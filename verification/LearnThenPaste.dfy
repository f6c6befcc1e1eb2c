/** The promise the probes are for: learn a phone's layout from its own answers,
    and what is pasted through that layout is what the phone shows. */
module LearnThenPaste {
  import opened Wrappers
  import opened Keycodes
  import opened Hid
  import opened Coalescing
  import opened Phone
  import opened Text
  import opened Probe
  import opened Capture
  import opened LayoutTable
  import opened LayoutFile
  import opened Streaming
  import opened Escapes
  import opened Typing
  import opened ProbeRoundTrip
  import opened AccentRoundTrip

  // -- keystrokes that type one character --------------------------------------

  /** From a clean start these keystrokes show `c`, and leave no accent owed. */
  ghost predicate Shows(phone: Layout, strokes: seq<Stroke>, c: char) {
    forall text :: phone.StrikeAll(Screen(text, Clear), strokes) == Screen(text + [c], Clear)
  }

  lemma KeyShows(phone: Layout, s: Stroke, c: char)
    requires phone.meaning(s) == Types(c)
    ensures Shows(phone, [s], c)
  {
    forall text ensures phone.StrikeAll(Screen(text, Clear), [s]) == Screen(text + [c], Clear) {
      phone.StrikeOne(Screen(text, Clear), s);
    }
  }

  lemma PairShows(phone: Layout, dead: Stroke, base: Stroke, c: char)
    requires phone.meaning(dead).Dead? && (base == SPACE || phone.meaning(base).Types?)
    requires Composed(phone, dead, base) == Some(c)
    ensures Shows(phone, [dead, base], c)
  {
    forall text ensures phone.StrikeAll(Screen(text, Clear), [dead, base]) == Screen(text + [c], Clear) {
      phone.StrikeTwo(Screen(text, Clear), dead, base);
    }
  }

  // -- every finding is an honest one ------------------------------------------

  function StepStrokes(kb: Keyboard, steps: seq<Step>): (r: seq<Stroke>)
    ensures |r| == |steps| && forall i :: 0 <= i < |r| ==> r[i] == Press(kb, steps[i])
  {
    if steps == [] then []
    else StepStrokes(kb, steps[..|steps| - 1]) + [Press(kb, steps[|steps| - 1])]
  }

  /** A finding names keys a report can carry, and unless it is a lone dead key they
      show its character. */
  ghost predicate Honest(phone: Layout, kb: Keyboard, f: Finding) {
    && f.steps != [] && AllKnown(kb, f.steps)
    && (DeadKey !in f.notes ==> Shows(phone, StepStrokes(kb, f.steps), f.c))
  }

  lemma KeyTruthIsHonest(phone: Layout, kb: Keyboard, step: Step, f: Finding)
    requires f in KeyTruth(phone, kb, step) && step.keycode in kb
    ensures Honest(phone, kb, f)
  {
    if DeadKey !in f.notes {
      assert StepStrokes(kb, [step]) == [Press(kb, step)];
      KeyShows(phone, Press(kb, step), f.c);
    }
  }

  lemma LayoutTruthIsHonest(phone: Layout, kb: Keyboard, rows: seq<ProbeRow>, f: Finding)
    requires f in LayoutTruth(phone, kb, rows) && Known(kb, rows)
    ensures Honest(phone, kb, f)
  {
    InTruth(phone, kb, rows, f);
    var step :| Probed(rows, step) && f in KeyTruth(phone, kb, step);
    KeyTruthIsHonest(phone, kb, step, f);
  }

  lemma AccentTruthIsHonest(phone: Layout, kb: Keyboard, m: char, candidates: seq<Candidate>, bases: seq<Step>,
      f: Finding)
    requires AllRowsProbeable(phone, kb, m, candidates, bases)
    requires forall i :: 0 <= i < |candidates| ==> candidates[i].dead.keycode in kb
    requires f in AccentTruth(phone, kb, candidates, bases).findings
    ensures Honest(phone, kb, f)
  {
    AccentTruthContents(phone, kb, candidates, bases, f);
    var i :| 0 <= i < |candidates| && PairsWithSome(phone, kb, candidates[i].dead, bases, f);
    var dead := candidates[i].dead;
    assert RowProbeable(phone, kb, m, dead, bases);
    var j :| 0 <= j < |bases| && Pairs(phone, kb, dead, bases[j], f);
    assert StepStrokes(kb, [dead, bases[j]]) == [Press(kb, dead), Press(kb, bases[j])];
    PairShows(phone, Press(kb, dead), Press(kb, bases[j]), f.c);
  }

  /** Marking the quotes changes nothing that typing depends on. */
  lemma AnnotatedIsHonest(phone: Layout, kb: Keyboard, findings: seq<Finding>)
    requires forall f :: f in findings ==> Honest(phone, kb, f)
    ensures forall f :: f in Annotated(findings) ==> Honest(phone, kb, f)
  {
    var on := SmartPunctuation(findings);
    forall i | 0 <= i < |findings| ensures Honest(phone, kb, AnnotateAll(findings, on)[i]) {
      assert findings[i] in findings;
    }
  }

  // -- what was learned --------------------------------------------------------

  /** Everything read from the two mails. */
  function Learned(kb: Keyboard, layoutMail: string, accentMail: string): seq<Finding> {
    var first := CaptureReading(layoutMail).findings;
    first + CompositionsReading(kb, accentMail, DeadKeyCandidates(first), BASES).findings
  }

  /** The keymap pasting uses: the measured layout over the keys that mean themselves. */
  function LearnedKeymap(findings: seq<Finding>, shiftNewline: bool): Keymap {
    var table := WithQuoteAliases(TableOf(findings));
    Whitespace(shiftNewline) + map c | c in table :: table[c].steps
  }

  /** The characters pasting promises: those some probed key or pair of keys types,
      and the two blanks that every text has. */
  ghost predicate Promised(findings: seq<Finding>, c: char) {
    c in TableOf(findings) || c == ' ' || c == '\n'
  }

  ghost predicate PlainKeys(phone: Layout, kb: Keyboard, shiftNewline: bool) {
    && Equipped(kb)
    && phone.meaning(SPACE) == Types(' ')
    && phone.meaning(Press(kb, Step(KEY_ENTER, if shiftNewline then MOD_LEFTSHIFT else 0))) == Types('\n')
  }

  lemma KnownStrokesAll(kb: Keyboard, steps: seq<Step>)
    requires AllKnown(kb, steps)
    ensures KnownStrokes(kb, steps) == StepStrokes(kb, steps)
  {
    if steps != [] {
      KnownStrokesAll(kb, steps[..|steps| - 1]);
    }
  }

  /** One promised character, typed through what was learned. */
  lemma PromisedIsShown(phone: Layout, kb: Keyboard, findings: seq<Finding>, shiftNewline: bool, c: char)
    requires PlainKeys(phone, kb, shiftNewline)
    requires forall f :: f in findings ==> Honest(phone, kb, f)
    requires Promised(findings, c)
    ensures Shows(phone, ItemStrokes(kb, LearnedKeymap(findings, shiftNewline), Char(c)), c)
  {
    var table := TableOf(findings);
    var keymap := LearnedKeymap(findings, shiftNewline);
    AliasesAddOnly(table);
    TableIsCheapest(findings, c);
    if c in table {
      var i: nat :| BestAt(findings, c, i) && table[c] == Way(findings[i].steps, findings[i].notes);
      assert findings[i] in findings;
      KnownStrokesAll(kb, keymap[c]);
    } else {
      BlankIsShown(phone, kb, findings, shiftNewline, c);
    }
  }

  lemma BlankIsShown(phone: Layout, kb: Keyboard, findings: seq<Finding>, shiftNewline: bool, c: char)
    requires PlainKeys(phone, kb, shiftNewline)
    requires (c == ' ' || c == '\n') && c !in TableOf(findings)
    ensures Shows(phone, ItemStrokes(kb, LearnedKeymap(findings, shiftNewline), Char(c)), c)
  {
    var step := BlankStep(shiftNewline, c);
    BlankIsMapped(findings, shiftNewline, c);
    assert KnownStrokes(kb, [step]) == [Press(kb, step)] by {
      assert [step][..0] == [];
    }
    KeyShows(phone, Press(kb, step), c);
  }

  function BlankStep(shiftNewline: bool, c: char): Step {
    if c == ' ' then Step(KEY_SPACE, 0) else Step(KEY_ENTER, if shiftNewline then MOD_LEFTSHIFT else 0)
  }

  /** A blank the measured layout does not have is still the key that means it. */
  lemma BlankIsMapped(findings: seq<Finding>, shiftNewline: bool, c: char)
    requires (c == ' ' || c == '\n') && c !in TableOf(findings)
    ensures c in LearnedKeymap(findings, shiftNewline)
    ensures LearnedKeymap(findings, shiftNewline)[c] == [BlankStep(shiftNewline, c)]
  {
    AliasesAddOnly(TableOf(findings));
  }

  /** What the phone shows of a text: every character the keymap has, in order. */
  function Typeable(keymap: Keymap, text: string): string {
    if text == [] then []
    else
      var front := Typeable(keymap, text[..|text| - 1]);
      var c := text[|text| - 1];
      if c in keymap then front + [c] else front
  }

  lemma {:induction false} TextIsShown(phone: Layout, kb: Keyboard, keymap: Keymap, items: seq<Item>, text: string,
      shown: string)
    requires |items| == |text| && forall i :: 0 <= i < |text| ==> items[i] == Char(text[i])
    requires forall c :: c in text && c in keymap ==> Shows(phone, ItemStrokes(kb, keymap, Char(c)), c)
    ensures phone.StrikeAll(Screen(shown, Clear), ItemsStrokes(kb, keymap, items))
         == Screen(shown + Typeable(keymap, text), Clear)
    decreases |text|
  {
    if text == [] {
      assert shown + [] == shown;
    } else {
      var n := |text| - 1;
      var front, c := text[..n], text[n];
      TextIsShown(phone, kb, keymap, items[..n], front, shown);
      var strokes := ItemStrokes(kb, keymap, Char(c));
      phone.StrikeConcat(Screen(shown, Clear), ItemsStrokes(kb, keymap, items[..n]), strokes);
      if c in keymap {
        assert c in text && Shows(phone, strokes, c);
        assert shown + Typeable(keymap, front) + [c] == shown + (Typeable(keymap, front) + [c]);
      }
    }
  }

  /** Pasting through any honest set of findings: the phone shows the text, less the
      characters nothing types, and owes no accent. */
  lemma PasteIsShown(phone: Layout, kb: Keyboard, findings: seq<Finding>, shiftNewline: bool,
                     idle: Report, text: string, shown: string)
    requires PlainKeys(phone, kb, shiftNewline)
    requires forall f :: f in findings ==> Honest(phone, kb, f)
    requires idle.keys == []
    requires ESC !in text
    requires forall c :: c in text ==> Promised(findings, c) || c !in LearnedKeymap(findings, shiftNewline)
    ensures Bounded(NextItem)
    ensures var keymap := LearnedKeymap(findings, shiftNewline);
            var reports := PushAll([], ItemsStrokes(kb, keymap, Decode(NextItem, text).items));
            && Decode(NextItem, text).tail == []
            && phone.StrikeAll(Screen(shown, Clear), Presses(idle, reports))
               == Screen(shown + Typeable(keymap, text), Clear)
  {
    NextItemIsSteady();
    var keymap := LearnedKeymap(findings, shiftNewline);
    var items := Decode(NextItem, text).items;
    PlainTextDecodes(text);
    forall c | c in text && c in keymap ensures Shows(phone, ItemStrokes(kb, keymap, Char(c)), c) {
      PromisedIsShown(phone, kb, findings, shiftNewline, c);
    }
    TextIsShown(phone, kb, keymap, items, text, shown);
    CoalescingPreservesMeaning(idle, ItemsStrokes(kb, keymap, items));
  }

  // -- what the two probes learn -----------------------------------------------

  /** `step` is one of the keys, at one of the levels, that the layout probe presses. */
  ghost predicate Probed(rows: seq<ProbeRow>, step: Step) {
    exists i, j :: 0 <= i < |rows| && 0 <= j < |rows[i].positions|
      && step == Step(rows[i].positions[j], rows[i].mods)
  }

  ghost predicate TypedByKey(phone: Layout, kb: Keyboard, rows: seq<ProbeRow>, c: char) {
    exists step :: Probed(rows, step) && phone.meaning(Press(kb, step)) == Types(c)
  }

  ghost predicate TypedByPair(phone: Layout, kb: Keyboard, rows: seq<ProbeRow>, bases: seq<Step>, c: char) {
    exists dead, base :: Probed(rows, dead) && phone.meaning(Press(kb, dead)).Dead? && base in bases
      && Composed(phone, Press(kb, dead), Press(kb, base)) == Some(c)
  }

  lemma InTruth(phone: Layout, kb: Keyboard, rows: seq<ProbeRow>, f: Finding)
    ensures f in LayoutTruth(phone, kb, rows) <==> exists step :: Probed(rows, step) && f in KeyTruth(phone, kb, step)
  {
    LayoutTruthContents(phone, kb, rows, f);
    if f in LayoutTruth(phone, kb, rows) {
      var i, j :| 0 <= i < |rows| && 0 <= j < |rows[i].positions|
        && f in KeyTruth(phone, kb, Step(rows[i].positions[j], rows[i].mods));
      assert Probed(rows, Step(rows[i].positions[j], rows[i].mods));
    }
  }

  /** The same way of typing the same character, and as dead. */
  ghost predicate SameWay(f: Finding, g: Finding) {
    f.steps == g.steps && f.c == g.c && (DeadKey in f.notes <==> DeadKey in g.notes)
  }

  lemma IntoAnnotated(findings: seq<Finding>, f: Finding) returns (g: Finding)
    requires f in findings
    ensures g in Annotated(findings) && SameWay(f, g)
  {
    var i :| 0 <= i < |findings| && findings[i] == f;
    g := Annotated(findings)[i];
  }

  lemma OutOfAnnotated(findings: seq<Finding>, g: Finding) returns (f: Finding)
    requires g in Annotated(findings)
    ensures f in findings && SameWay(f, g)
  {
    var i :| 0 <= i < |findings| && Annotated(findings)[i] == g;
    f := findings[i];
  }

  /** What a finding of the first probe says about the phone. */
  lemma FindingMeans(phone: Layout, kb: Keyboard, rows: seq<ProbeRow>, g: Finding) returns (step: Step)
    requires g in Annotated(LayoutTruth(phone, kb, rows))
    ensures Probed(rows, step) && g.steps == [step]
    ensures phone.meaning(Press(kb, step)) == if DeadKey in g.notes then Dead(g.c) else Types(g.c)
  {
    var f := OutOfAnnotated(LayoutTruth(phone, kb, rows), g);
    InTruth(phone, kb, rows, f);
    step :| Probed(rows, step) && f in KeyTruth(phone, kb, step);
  }

  /** And that the phone's every meaning is found. */
  lemma MeaningFound(phone: Layout, kb: Keyboard, rows: seq<ProbeRow>, step: Step, f: Finding) returns (g: Finding)
    requires Probed(rows, step) && KeyTruth(phone, kb, step) == [f]
    ensures g in Annotated(LayoutTruth(phone, kb, rows)) && SameWay(f, g)
  {
    assert f in KeyTruth(phone, kb, step);
    InTruth(phone, kb, rows, f);
    g := IntoAnnotated(LayoutTruth(phone, kb, rows), f);
  }

  /** The first probe's dead keys are exactly the phone's, among those probed. */
  lemma CandidatesAreDead(phone: Layout, kb: Keyboard, rows: seq<ProbeRow>, c: Candidate)
    requires c in DeadKeyCandidates(Annotated(LayoutTruth(phone, kb, rows)))
    ensures Probed(rows, c.dead) && phone.meaning(Press(kb, c.dead)) == Dead(c.accent)
  {
    var findings := Annotated(LayoutTruth(phone, kb, rows));
    var g :| g in findings && g.steps == [c.dead] && g.c == c.accent && DeadKey in g.notes;
    var step := FindingMeans(phone, kb, rows, g);
    assert [step][0] == [c.dead][0];
  }

  lemma DeadKeysAreCandidates(phone: Layout, kb: Keyboard, rows: seq<ProbeRow>, step: Step)
    requires Probed(rows, step) && phone.meaning(Press(kb, step)).Dead?
    ensures Candidate(step, phone.meaning(Press(kb, step)).accent)
      in DeadKeyCandidates(Annotated(LayoutTruth(phone, kb, rows)))
  {
    var f := Finding([step], phone.meaning(Press(kb, step)).accent, [DeadKey]);
    var g := MeaningFound(phone, kb, rows, step, f);
    assert |g.steps| == 1;
  }

  /** The second probe may be run with what the first one found. */
  lemma CandidatesAreProbeable(phone: Layout, kb: Keyboard, m: char, rows: seq<ProbeRow>, bases: seq<Step>)
    requires Probeable(phone, kb, m) && FairRows(phone, kb, rows, m)
    requires forall j :: 0 <= j < |bases| ==> bases[j].keycode in kb && IsBase(phone, Press(kb, bases[j]))
    requires forall s: Stroke, j :: 0 <= j < |bases| ==> ComposesInLine(phone, s, Press(kb, bases[j]))
    ensures AccentsProbeable(phone, kb, m, DeadKeyCandidates(Annotated(LayoutTruth(phone, kb, rows))), bases)
  {
    var candidates := DeadKeyCandidates(Annotated(LayoutTruth(phone, kb, rows)));
    forall i | 0 <= i < |candidates| ensures IsAccent(phone, Press(kb, candidates[i].dead), m) {
      var c := candidates[i];
      CandidatesAreDead(phone, kb, rows, c);
      var k, j :| 0 <= k < |rows| && 0 <= j < |rows[k].positions| && c.dead == Step(rows[k].positions[j], rows[k].mods);
      assert FairRow(phone, kb, rows[k], m);
    }
  }

  /** The two truths together: what both probes say about a phone. */
  function WholeTruth(phone: Layout, kb: Keyboard, rows: seq<ProbeRow>, bases: seq<Step>): seq<Finding> {
    var first := Annotated(LayoutTruth(phone, kb, rows));
    first + AccentTruth(phone, kb, Usable(kb, DeadKeyCandidates(first)), bases).findings
  }

  ghost predicate Known(kb: Keyboard, rows: seq<ProbeRow>) {
    forall step :: Probed(rows, step) ==> step.keycode in kb
  }

  lemma KeyIsLearned(phone: Layout, kb: Keyboard, rows: seq<ProbeRow>, c: char) returns (g: Finding)
    requires TypedByKey(phone, kb, rows, c)
    ensures g in Annotated(LayoutTruth(phone, kb, rows)) && g.c == c && DeadKey !in g.notes
  {
    var step :| Probed(rows, step) && phone.meaning(Press(kb, step)) == Types(c);
    g := MeaningFound(phone, kb, rows, step, Finding([step], c, []));
  }

  lemma LearnedByKey(phone: Layout, kb: Keyboard, rows: seq<ProbeRow>, g: Finding)
    requires g in Annotated(LayoutTruth(phone, kb, rows)) && DeadKey !in g.notes
    ensures TypedByKey(phone, kb, rows, g.c)
  {
    var step := FindingMeans(phone, kb, rows, g);
  }

  lemma PairIsLearned(phone: Layout, kb: Keyboard, rows: seq<ProbeRow>, bases: seq<Step>, c: char) returns (f: Finding)
    requires Known(kb, rows)
    requires TypedByPair(phone, kb, rows, bases, c)
    ensures var candidates := DeadKeyCandidates(Annotated(LayoutTruth(phone, kb, rows)));
            f in AccentTruth(phone, kb, Usable(kb, candidates), bases).findings && f.c == c
    ensures DeadKey !in f.notes
  {
    var candidates := DeadKeyCandidates(Annotated(LayoutTruth(phone, kb, rows)));
    var usable := Usable(kb, candidates);
    var dead, base :| Probed(rows, dead) && phone.meaning(Press(kb, dead)).Dead? && base in bases
      && Composed(phone, Press(kb, dead), Press(kb, base)) == Some(c);
    DeadKeysAreCandidates(phone, kb, rows, dead);
    var candidate := Candidate(dead, phone.meaning(Press(kb, dead)).accent);
    UsableKeepsKnown(kb, candidates, candidate);
    var i :| 0 <= i < |usable| && usable[i] == candidate;
    var j :| 0 <= j < |bases| && bases[j] == base;
    f := Finding([dead, base], c, []);
    assert Pairs(phone, kb, dead, bases[j], f);
    assert PairsWithSome(phone, kb, usable[i].dead, bases, f);
    AccentTruthContents(phone, kb, usable, bases, f);
  }

  lemma LearnedByPair(phone: Layout, kb: Keyboard, rows: seq<ProbeRow>, bases: seq<Step>, f: Finding)
    requires var candidates := DeadKeyCandidates(Annotated(LayoutTruth(phone, kb, rows)));
             f in AccentTruth(phone, kb, Usable(kb, candidates), bases).findings
    ensures TypedByPair(phone, kb, rows, bases, f.c)
  {
    var candidates := DeadKeyCandidates(Annotated(LayoutTruth(phone, kb, rows)));
    var usable := Usable(kb, candidates);
    AccentTruthContents(phone, kb, usable, bases, f);
    var i :| 0 <= i < |usable| && PairsWithSome(phone, kb, usable[i].dead, bases, f);
    var j :| 0 <= j < |bases| && Pairs(phone, kb, usable[i].dead, bases[j], f);
    CandidatesAreDead(phone, kb, rows, usable[i]);
    assert bases[j] in bases;
  }

  /** The table holds exactly what the phone can be made to type: a visible character
      of some probed key, or of some probed dead key with some base. */
  lemma TableIsComplete(phone: Layout, kb: Keyboard, rows: seq<ProbeRow>, bases: seq<Step>, c: char)
    requires Known(kb, rows)
    ensures c in TableOf(WholeTruth(phone, kb, rows, bases))
       <==> c !in BLANKS && (TypedByKey(phone, kb, rows, c) || TypedByPair(phone, kb, rows, bases, c))
  {
    var first := Annotated(LayoutTruth(phone, kb, rows));
    var all := WholeTruth(phone, kb, rows, bases);
    TableIsCheapest(all, c);
    if c in TableOf(all) {
      var i :| 0 <= i < |all| && IsWayTo(all[i], c);
      if i < |first| {
        LearnedByKey(phone, kb, rows, all[i]);
      } else {
        LearnedByPair(phone, kb, rows, bases, all[i]);
      }
    } else if c !in BLANKS {
      if TypedByKey(phone, kb, rows, c) {
        var g := KeyIsLearned(phone, kb, rows, c);
        assert g in all && IsWayTo(g, c);
      }
      if TypedByPair(phone, kb, rows, bases, c) {
        var f := PairIsLearned(phone, kb, rows, bases, c);
        assert f in all && IsWayTo(f, c);
      }
    }
  }

  lemma WholeTruthIsHonest(phone: Layout, kb: Keyboard, m: char, rows: seq<ProbeRow>, bases: seq<Step>)
    requires Known(kb, rows)
    requires AccentsProbeable(phone, kb, m, DeadKeyCandidates(Annotated(LayoutTruth(phone, kb, rows))), bases)
    ensures forall f :: f in WholeTruth(phone, kb, rows, bases) ==> Honest(phone, kb, f)
  {
    var truth := LayoutTruth(phone, kb, rows);
    forall f | f in truth ensures Honest(phone, kb, f) {
      LayoutTruthIsHonest(phone, kb, rows, f);
    }
    AnnotatedIsHonest(phone, kb, truth);
    var candidates := DeadKeyCandidates(Annotated(truth));
    UsableIsProbeable(phone, kb, m, candidates, bases);
    var usable := Usable(kb, candidates);
    forall f | f in AccentTruth(phone, kb, usable, bases).findings ensures Honest(phone, kb, f) {
      AccentTruthIsHonest(phone, kb, m, usable, bases, f);
    }
  }

  // -- the whole story ---------------------------------------------------------

  /** A mail around a capture: no other line of it looks like a sentinel, and the
      capture starts on a line of its own. */
  datatype Mail = Mail(before: string, after: string)

  ghost predicate Ordinary(mail: Mail) {
    EndsLine(mail.before) && NoSentinels(SplitLines(mail.before)) && NoSentinels(SplitLines(mail.after))
  }

  /** The mail as it comes back, once the phone has answered these keystrokes. */
  function Answered(phone: Layout, idle: Report, strokes: seq<Stroke>, mail: Mail): string {
    phone.StrikeAll(Screen(mail.before, Clear), Presses(idle, Plain(strokes))).text + mail.after
  }

  /** What is assumed of the phone: the marker types a visible character, no accent
      is the marker or a blank, base keys type ordinary characters, and nothing
      probed breaks the line. */
  ghost predicate Learnable(phone: Layout, kb: Keyboard, m: char) {
    && Probeable(phone, kb, m)
    && FairRows(phone, kb, Expected(LEVELS, ROWS), m)
    && BasesAreOrdinary(phone, kb, BASES)
  }

  ghost predicate BasesAreOrdinary(phone: Layout, kb: Keyboard, bases: seq<Step>) {
    && (forall j :: 0 <= j < |bases| ==> bases[j].keycode in kb && IsBase(phone, Press(kb, bases[j])))
    && (forall s: Stroke, j :: 0 <= j < |bases| ==> ComposesInLine(phone, s, Press(kb, bases[j])))
  }

  /** Run both probes, mail both answers back, read them: exactly the whole truth. */
  lemma LearningIsExact(phone: Layout, kb: Keyboard, m: char, idle: Report, first: Mail, second: Mail)
    requires Learnable(phone, kb, m) && idle.keys == []
    requires Ordinary(first) && Ordinary(second)
    ensures
      var rows := Expected(LEVELS, ROWS);
      var layoutMail := Answered(phone, idle, ProbeStrokes(kb), first);
      var candidates := DeadKeyCandidates(CaptureReading(layoutMail).findings);
      var accentMail := Answered(phone, idle, AccentProbeStrokes(kb, candidates, BASES), second);
      Learned(kb, layoutMail, accentMail) == WholeTruth(phone, kb, rows, BASES)
  {
    LayoutProbeRoundTrip(phone, kb, m, idle, first.before, first.after);
    AccentsAreExact(phone, kb, m, idle, Expected(LEVELS, ROWS), BASES, second);
  }

  lemma AccentsAreExact(phone: Layout, kb: Keyboard, m: char, idle: Report, rows: seq<ProbeRow>, bases: seq<Step>,
      mail: Mail)
    requires Probeable(phone, kb, m) && FairRows(phone, kb, rows, m) && BasesAreOrdinary(phone, kb, bases)
    requires idle.keys == [] && Ordinary(mail)
    ensures
      var candidates := DeadKeyCandidates(Annotated(LayoutTruth(phone, kb, rows)));
      var answer := Answered(phone, idle, AccentProbeStrokes(kb, candidates, bases), mail);
      CompositionsReading(kb, answer, candidates, bases) == AccentTruth(phone, kb, Usable(kb, candidates), bases)
  {
    CandidatesAreProbeable(phone, kb, m, rows, bases);
    AllTried(kb, bases);
    AccentProbeRoundTrip(phone, kb, m, DeadKeyCandidates(Annotated(LayoutTruth(phone, kb, rows))), bases,
                         idle, mail.before, mail.after);
  }

  /** A character the phone was shown to type: a blank, or the visible result of a
      probed key or pair. */
  ghost predicate Within(phone: Layout, kb: Keyboard, rows: seq<ProbeRow>, bases: seq<Step>, c: char) {
    c == ' ' || c == '\n'
    || (c !in BLANKS && (TypedByKey(phone, kb, rows, c) || TypedByPair(phone, kb, rows, bases, c)))
  }

  lemma {:induction false} AllTypeable(keymap: Keymap, text: string)
    requires forall c :: c in text ==> c in keymap
    ensures Typeable(keymap, text) == text
  {
    if text != [] {
      var n := |text| - 1;
      assert text[n] in text && text == text[..n] + [text[n]];
      AllTypeable(keymap, text[..n]);
    }
  }

  lemma TruthPastes(phone: Layout, kb: Keyboard, m: char, rows: seq<ProbeRow>, bases: seq<Step>, shiftNewline: bool,
                    idle: Report, text: string, shown: string)
    requires Probeable(phone, kb, m) && FairRows(phone, kb, rows, m) && BasesAreOrdinary(phone, kb, bases)
    requires Known(kb, rows) && PlainKeys(phone, kb, shiftNewline) && idle.keys == []
    requires ESC !in text && forall c :: c in text ==> Within(phone, kb, rows, bases, c)
    ensures Bounded(NextItem)
    ensures var keymap := LearnedKeymap(WholeTruth(phone, kb, rows, bases), shiftNewline);
            var reports := PushAll([], ItemsStrokes(kb, keymap, Decode(NextItem, text).items));
            phone.StrikeAll(Screen(shown, Clear), Presses(idle, reports)) == Screen(shown + text, Clear)
  {
    var findings := WholeTruth(phone, kb, rows, bases);
    CandidatesAreProbeable(phone, kb, m, rows, bases);
    WholeTruthIsHonest(phone, kb, m, rows, bases);
    forall c | c in text ensures Promised(findings, c) && c in LearnedKeymap(findings, shiftNewline) {
      TableIsComplete(phone, kb, rows, bases, c);
      AliasesAddOnly(TableOf(findings));
    }
    PasteIsShown(phone, kb, findings, shiftNewline, idle, text, shown);
    AllTypeable(LearnedKeymap(findings, shiftNewline), text);
  }

  lemma RowsAreKnown(kb: Keyboard)
    requires Equipped(kb)
    ensures Known(kb, Expected(LEVELS, ROWS))
  {
    var rows := Expected(LEVELS, ROWS);
    forall step | Probed(rows, step) ensures step.keycode in kb {
      var i, j :| 0 <= i < |rows| && 0 <= j < |rows[i].positions| && step == Step(rows[i].positions[j], rows[i].mods);
      var k :| 0 <= k < |ROWS| && ROWS[k] == rows[i].positions;
    }
  }

  // -- and the file in between -------------------------------------------------

  /** The parts of a layout file that are for people. */
  datatype Booklet = Booklet(header: seq<string>, notes: seq<string>, words: Wording)

  ghost predicate Tidy(book: Booklet) {
    && (forall i :: 0 <= i < |book.header| ==> IsRemark(book.header[i]) && OneLine(book.header[i]))
    && (forall i :: 0 <= i < |book.notes| ==> IsRemark(book.notes[i]) && OneLine(book.notes[i]))
    && (forall c :: !IsLineBreak(c) ==> OneLine(book.words.name(c)))
    && (forall c, notes :: !IsLineBreak(c) ==> OneLine(book.words.describe(c, notes)))
  }

  /** The findings are of characters that can stand in a line. */
  ghost predicate InLine(findings: seq<Finding>) {
    forall f :: f in findings ==> !IsLineBreak(f.c)
  }

  lemma ProbedIsFair(phone: Layout, kb: Keyboard, m: char, rows: seq<ProbeRow>, step: Step)
    requires FairRows(phone, kb, rows, m) && Probed(rows, step)
    ensures Fair(phone, Press(kb, step), m)
  {
    var i, j :| 0 <= i < |rows| && 0 <= j < |rows[i].positions| && step == Step(rows[i].positions[j], rows[i].mods);
    assert FairRow(phone, kb, rows[i], m);
  }

  lemma LayoutTruthInLine(phone: Layout, kb: Keyboard, m: char, rows: seq<ProbeRow>)
    requires FairRows(phone, kb, rows, m)
    ensures InLine(Annotated(LayoutTruth(phone, kb, rows)))
  {
    var truth := LayoutTruth(phone, kb, rows);
    forall f | f in truth ensures !IsLineBreak(f.c) {
      InTruth(phone, kb, rows, f);
      var step :| Probed(rows, step) && f in KeyTruth(phone, kb, step);
      ProbedIsFair(phone, kb, m, rows, step);
    }
    var on := SmartPunctuation(truth);
    forall i | 0 <= i < |truth| ensures !IsLineBreak(AnnotateAll(truth, on)[i].c) {
      assert truth[i] in truth;
    }
  }

  lemma AccentTruthInLine(phone: Layout, kb: Keyboard, m: char, candidates: seq<Candidate>, bases: seq<Step>)
    requires AllRowsProbeable(phone, kb, m, candidates, bases)
    ensures InLine(AccentTruth(phone, kb, candidates, bases).findings)
  {
    forall f | f in AccentTruth(phone, kb, candidates, bases).findings ensures !IsLineBreak(f.c) {
      AccentTruthContents(phone, kb, candidates, bases, f);
      var i :| 0 <= i < |candidates| && PairsWithSome(phone, kb, candidates[i].dead, bases, f);
      assert RowProbeable(phone, kb, m, candidates[i].dead, bases);
      var j :| 0 <= j < |bases| && Pairs(phone, kb, candidates[i].dead, bases[j], f);
      assert ComposesInLine(phone, Press(kb, candidates[i].dead), Press(kb, bases[j]));
    }
  }

  lemma WholeTruthInLine(phone: Layout, kb: Keyboard, m: char, rows: seq<ProbeRow>, bases: seq<Step>)
    requires FairRows(phone, kb, rows, m)
    requires AccentsProbeable(phone, kb, m, DeadKeyCandidates(Annotated(LayoutTruth(phone, kb, rows))), bases)
    ensures InLine(WholeTruth(phone, kb, rows, bases))
  {
    var candidates := DeadKeyCandidates(Annotated(LayoutTruth(phone, kb, rows)));
    LayoutTruthInLine(phone, kb, m, rows);
    UsableIsProbeable(phone, kb, m, candidates, bases);
    AccentTruthInLine(phone, kb, m, Usable(kb, candidates), bases);
  }

  ghost predicate InRange(kb: Keyboard) {
    forall k :: k in kb ==> 0 <= k <= 0xFFFF
  }

  /** The findings name keys that can be written down. */
  lemma FindingsArePrintable(kb: Keyboard, findings: seq<Finding>, order: seq<char>)
    requires InRange(kb)
    requires forall f :: f in findings ==> f.steps != [] && AllKnown(kb, f.steps)
    requires forall c :: c in order ==> c in WithQuoteAliases(TableOf(findings))
    ensures PrintableTable(WithQuoteAliases(TableOf(findings)), order)
    ensures PrintableDeads(DeadKeyCandidates(findings))
  {
    var table := WithQuoteAliases(TableOf(findings));
    forall i | 0 <= i < |order| ensures table[order[i]].steps != [] && Printable(table[order[i]].steps) {
      assert order[i] in order;
      AliasedSteps(TableOf(findings), order[i]);
      var c :| c in TableOf(findings) && table[order[i]].steps == TableOf(findings)[c].steps;
      TableIsCheapest(findings, c);
      var j: nat :| BestAt(findings, c, j) && TableOf(findings)[c] == Way(findings[j].steps, findings[j].notes);
      assert findings[j] in findings;
    }
    var deads := DeadKeyCandidates(findings);
    forall i | 0 <= i < |deads| ensures 0 <= deads[i].dead.keycode {
      assert deads[i] in deads;
      var f :| f in findings && f.steps == [deads[i].dead];
      assert f.steps[0].keycode in kb;
    }
  }

  /** An alias is typed by keys the table already had. */
  lemma AliasedSteps(table: Table, c: char)
    requires c in WithQuoteAliases(table)
    ensures exists d :: d in table && WithQuoteAliases(table)[c].steps == table[d].steps
  {
    var once := Aliased(table, '\'', ['\U{2019}', '\U{2018}']);
    AliasStep(table, '\'', ['\U{2019}', '\U{2018}']);
    AliasStep(once, '"', ['\U{201C}', '\U{201D}']);
    var d :| d in once && WithQuoteAliases(table)[c].steps == once[d].steps;
  }

  lemma AliasStep(table: Table, straight: char, curlies: seq<char>)
    ensures forall c :: c in Aliased(table, straight, curlies) ==>
      exists d :: d in table && Aliased(table, straight, curlies)[c].steps == table[d].steps
  {
    forall c | c in Aliased(table, straight, curlies)
      ensures exists d :: d in table && Aliased(table, straight, curlies)[c].steps == table[d].steps
    {
      if c !in table || Aliased(table, straight, curlies)[c] != table[c] {
        var d := CheapestOf(table, curlies).value;
        assert Aliased(table, straight, curlies)[c].steps == table[d].steps;
      }
    }
  }

  /** The file written from some findings. */
  function WrittenFile(findings: seq<Finding>, order: seq<char>, book: Booklet): string
    requires PrintableTable(WithQuoteAliases(TableOf(findings)), order)
    requires PrintableDeads(DeadKeyCandidates(findings))
  {
    Unlines(FileLines(WithQuoteAliases(TableOf(findings)), order, DeadKeyCandidates(findings),
                      book.header, book.notes, book.words))
  }

  /** The keymap pasting really uses: read back from the file. */
  function LoadedKeymap(file: string, shiftNewline: bool): Option<Keymap> {
    match LayoutOf(FileSplit(file))
    case Ok(layout) => Some(Whitespace(shiftNewline) + layout)
    case Bad(_) => None
  }

  /** So whatever is said of them stands in a line of its own. */
  lemma FindingsStandInLines(findings: seq<Finding>, order: seq<char>, book: Booklet)
    requires InLine(findings) && Tidy(book)
    requires PrintableTable(WithQuoteAliases(TableOf(findings)), order)
    requires PrintableDeads(DeadKeyCandidates(findings))
    ensures OneLineEach(WithQuoteAliases(TableOf(findings)), order, DeadKeyCandidates(findings),
                        book.header, book.notes, book.words)
  {
    forall i | 0 <= i < |order| ensures !IsLineBreak(order[i]) {
      AliasesAddOnly(TableOf(findings));
      if order[i] in TableOf(findings) {
        TableIsCheapest(findings, order[i]);
        var j :| 0 <= j < |findings| && IsWayTo(findings[j], order[i]);
        assert findings[j] in findings;
      } else {
        assert order[i] in TableOf(findings).Keys + {'\'', '"'};
      }
    }
    var deads := DeadKeyCandidates(findings);
    forall i | 0 <= i < |deads| ensures !IsLineBreak(deads[i].accent) {
      assert deads[i] in deads;
      var f :| f in findings && f.c == deads[i].accent;
    }
  }

  lemma FileKeepsKeymap(kb: Keyboard, findings: seq<Finding>, order: seq<char>, book: Booklet, shiftNewline: bool)
    requires InRange(kb) && Tidy(book) && InLine(findings)
    requires forall f :: f in findings ==> f.steps != [] && AllKnown(kb, f.steps)
    requires forall c :: c in WithQuoteAliases(TableOf(findings)) <==> c in order
    ensures PrintableTable(WithQuoteAliases(TableOf(findings)), order)
    ensures PrintableDeads(DeadKeyCandidates(findings))
    ensures LoadedKeymap(WrittenFile(findings, order, book), shiftNewline)
         == Some(LearnedKeymap(findings, shiftNewline))
  {
    FindingsArePrintable(kb, findings, order);
    FindingsStandInLines(findings, order, book);
    LayoutFileRoundTrip(WithQuoteAliases(TableOf(findings)), order, DeadKeyCandidates(findings),
                        book.header, book.notes, book.words);
  }

  /** Learn, then paste: for every phone the probes can measure, any text of
      characters it was shown to type, typed from an idle queue through the layout
      file made of its own two mails, appears on it as exactly that text, with no
      dead key left waiting. */
  lemma LearnThenPasteIsExact(phone: Layout, kb: Keyboard, m: char, shiftNewline: bool, idle: Report,
                              first: Mail, second: Mail, order: seq<char>, book: Booklet,
                              text: string, shown: string)
    requires Learnable(phone, kb, m) && PlainKeys(phone, kb, shiftNewline) && InRange(kb)
    requires idle.keys == []
    requires Ordinary(first) && Ordinary(second) && Tidy(book)
    requires ESC !in text && forall c :: c in text ==> Within(phone, kb, Expected(LEVELS, ROWS), BASES, c)
    ensures
      var layoutMail := Answered(phone, idle, ProbeStrokes(kb), first);
      var candidates := DeadKeyCandidates(CaptureReading(layoutMail).findings);
      var accentMail := Answered(phone, idle, AccentProbeStrokes(kb, candidates, BASES), second);
      PastesThroughFile(phone, kb, shiftNewline, idle, Learned(kb, layoutMail, accentMail), order, book, text, shown)
  {
    LearningIsExact(phone, kb, m, idle, first, second);
    RowsAreKnown(kb);
    TruthPastesThroughFile(phone, kb, m, Expected(LEVELS, ROWS), BASES, shiftNewline, idle, order, book, text, shown);
  }

  /** The characters of the table, each of them and no others, in some order. */
  ghost predicate Lists(order: seq<char>, table: Table) {
    forall c :: c in table <==> c in order
  }

  /** The layout file made of these findings, in whatever order it lists its characters,
      can be written, and loads as a keymap through which the text, typed from an idle
      queue, appears as exactly that text with no dead key left waiting. */
  ghost predicate PastesThroughFile(phone: Layout, kb: Keyboard, shiftNewline: bool, idle: Report,
                                    findings: seq<Finding>, order: seq<char>, book: Booklet,
                                    text: string, shown: string)
  {
    && Bounded(NextItem)
    && (Lists(order, WithQuoteAliases(TableOf(findings))) ==>
          && PrintableTable(WithQuoteAliases(TableOf(findings)), order)
          && PrintableDeads(DeadKeyCandidates(findings))
          && var loaded := LoadedKeymap(WrittenFile(findings, order, book), shiftNewline);
          && loaded.Some?
          && var reports := PushAll([], ItemsStrokes(kb, loaded.value, Decode(NextItem, text).items));
          && phone.StrikeAll(Screen(shown, Clear), Presses(idle, reports)) == Screen(shown + text, Clear))
  }

  lemma TruthPastesThroughFile(phone: Layout, kb: Keyboard, m: char, rows: seq<ProbeRow>, bases: seq<Step>,
                               shiftNewline: bool, idle: Report, order: seq<char>, book: Booklet,
                               text: string, shown: string)
    requires Probeable(phone, kb, m) && FairRows(phone, kb, rows, m) && BasesAreOrdinary(phone, kb, bases)
    requires Known(kb, rows) && PlainKeys(phone, kb, shiftNewline) && InRange(kb) && idle.keys == [] && Tidy(book)
    requires ESC !in text && forall c :: c in text ==> Within(phone, kb, rows, bases, c)
    ensures PastesThroughFile(phone, kb, shiftNewline, idle, WholeTruth(phone, kb, rows, bases), order, book, text,
                              shown)
  {
    TruthPastes(phone, kb, m, rows, bases, shiftNewline, idle, text, shown);
    CandidatesAreProbeable(phone, kb, m, rows, bases);
    WholeTruthIsHonest(phone, kb, m, rows, bases);
    WholeTruthInLine(phone, kb, m, rows, bases);
    if Lists(order, WithQuoteAliases(TableOf(WholeTruth(phone, kb, rows, bases)))) {
      FileKeepsKeymap(kb, WholeTruth(phone, kb, rows, bases), order, book, shiftNewline);
    }
  }
}
