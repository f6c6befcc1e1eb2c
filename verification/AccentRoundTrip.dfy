/** The second probe: each dead key tried with each base, and what the phone's
    answer says about which pairs compose. */
module AccentRoundTrip {
  import opened Wrappers
  import opened Keycodes
  import opened Hid
  import opened Coalescing
  import opened Phone
  import opened Text
  import opened Rows
  import opened Probe
  import opened Capture
  import opened ProbeRoundTrip

  /** A key the first probe rightly took for a dead one. */
  ghost predicate IsAccent(phone: Layout, s: Stroke, m: char) {
    phone.meaning(s).Dead? && Fair(phone, s, m)
  }

  /** A base: the space bar, or a key that types an ordinary character. */
  ghost predicate IsBase(phone: Layout, s: Stroke) {
    s == SPACE || (phone.meaning(s).Types? && !IsLineBreak(phone.meaning(s).c))
  }

  /** What a dead key and a base make together: the bare accent with a space, the
      composition where the phone has one, and otherwise nothing. */
  function Composed(phone: Layout, dead: Stroke, base: Stroke): Option<char> {
    if base == SPACE && phone.meaning(dead).Dead? then Some(phone.meaning(dead).accent)
    else phone.compose(dead, base)
  }

  /** No composition breaks the line. */
  predicate ComposesInLine(phone: Layout, dead: Stroke, base: Stroke) {
    var composed := phone.compose(dead, base);
    composed.Some? ==> !IsLineBreak(composed.value)
  }

  /** The second probe can be run on this phone with these keys. */
  ghost predicate AccentsProbeable(phone: Layout, kb: Keyboard, m: char, candidates: seq<Candidate>, bases: seq<Step>) {
    && Probeable(phone, kb, m)
    && (forall i :: 0 <= i < |candidates| && candidates[i].dead.keycode in kb
          ==> IsAccent(phone, Press(kb, candidates[i].dead), m))
    && (forall j :: 0 <= j < |bases| ==> bases[j].keycode in kb && IsBase(phone, Press(kb, bases[j])))
    && (forall i, j :: 0 <= i < |candidates| && 0 <= j < |bases|
          ==> ComposesInLine(phone, Press(kb, candidates[i].dead), Press(kb, bases[j])))
  }

  /** The same for one dead key that a report can carry. */
  ghost predicate RowProbeable(phone: Layout, kb: Keyboard, m: char, dead: Step, bases: seq<Step>) {
    && Probeable(phone, kb, m)
    && IsAccent(phone, Press(kb, dead), m)
    && (forall j :: 0 <= j < |bases| ==> bases[j].keycode in kb && IsBase(phone, Press(kb, bases[j])))
    && (forall j :: 0 <= j < |bases| ==> ComposesInLine(phone, Press(kb, dead), Press(kb, bases[j])))
  }

  // -- what the phone types ----------------------------------------------------

  /** One character for a pair that composed, the accent and the base for one that
      did not. */
  function PairAnswer(phone: Layout, dead: Stroke, base: Stroke): Entry
    requires phone.meaning(dead).Dead? && (base == SPACE || phone.meaning(base).Types?)
  {
    match Composed(phone, dead, base)
    case Some(c) => Entry(Some([c]), false)
    case None => Entry(Some([phone.meaning(dead).accent, phone.meaning(base).c]), false)
  }

  lemma PairTyped(phone: Layout, kb: Keyboard, m: char, dead: Step, base: Step, text: string)
    requires Probeable(phone, kb, m)
    requires phone.meaning(Press(kb, dead)).Dead? && IsBase(phone, Press(kb, base))
    ensures phone.StrikeAll(Screen(text, Clear), PairStrokes(kb, dead, base))
         == Screen(text + FieldOf(PairAnswer(phone, Press(kb, dead), Press(kb, base))) + [m, m], Clear)
  {
    var d, b := Press(kb, dead), Press(kb, base);
    var screen := Screen(text, Clear);
    var output := PairAnswer(phone, d, b).output.value;
    var settled := Screen(text + output, Clear);
    var spaced := Screen(text + (output + " "), Clear);
    assert PairStrokes(kb, dead, base) == [d, b] + ([SPACE] + [Mark(kb), Mark(kb)]);
    phone.StrikeConcat(screen, [d, b], [SPACE] + [Mark(kb), Mark(kb)]);
    phone.StrikeTwo(screen, d, b);
    assert phone.Strike(phone.Strike(screen, d), b) == settled;
    phone.StrikeConcat(settled, [SPACE], [Mark(kb), Mark(kb)]);
    phone.StrikeOne(settled, SPACE);
    assert text + output + [' '] == text + (output + " ");
    assert phone.Strike(settled, SPACE) == spaced;
    phone.StrikeTwo(spaced, Mark(kb), Mark(kb));
    assert spaced.text + [m] + [m] == spaced.text + [m, m];
  }

  function PairAnswers(phone: Layout, kb: Keyboard, dead: Step, bases: seq<Step>): (r: seq<Entry>)
    requires phone.meaning(Press(kb, dead)).Dead?
    requires forall j :: 0 <= j < |bases| ==>
      Press(kb, bases[j]) == SPACE || phone.meaning(Press(kb, bases[j])).Types?
    ensures |r| == |bases|
    ensures forall j :: 0 <= j < |r| ==> r[j] == PairAnswer(phone, Press(kb, dead), Press(kb, bases[j]))
    decreases bases
  {
    if bases == [] then []
    else
      var n := |bases| - 1;
      PairAnswers(phone, kb, dead, bases[..n]) + [PairAnswer(phone, Press(kb, dead), Press(kb, bases[n]))]
  }

  ghost function AccentText(phone: Layout, kb: Keyboard, m: char, dead: Step, bases: seq<Step>): string
    requires RowProbeable(phone, kb, m, dead, bases)
  {
    Joined(Fields(PairAnswers(phone, kb, dead, bases)), m)
  }

  lemma {:induction false} PairsTyped(phone: Layout, kb: Keyboard, m: char, dead: Step, bases: seq<Step>, text: string)
    requires RowProbeable(phone, kb, m, dead, bases)
    ensures phone.StrikeAll(Screen(text, Clear), PairsStrokes(kb, dead, bases))
         == Screen(text + AccentText(phone, kb, m, dead, bases), Clear)
    decreases bases
  {
    if bases == [] {
      assert text + [] == text;
    } else {
      var n := |bases| - 1;
      var front, base := bases[..n], bases[n];
      assert RowProbeable(phone, kb, m, dead, front);
      var answers := PairAnswers(phone, kb, dead, front);
      var answer := PairAnswer(phone, Press(kb, dead), Press(kb, base));
      PairsTyped(phone, kb, m, dead, front, text);
      PairTyped(phone, kb, m, dead, base, text + Joined(Fields(answers), m));
      FieldAdded(phone, m, text, PairsStrokes(kb, dead, front), PairStrokes(kb, dead, base), answers, answer);
    }
  }

  ghost predicate AllRowsProbeable(phone: Layout, kb: Keyboard, m: char, candidates: seq<Candidate>, bases: seq<Step>) {
    forall i :: 0 <= i < |candidates| ==> RowProbeable(phone, kb, m, candidates[i].dead, bases)
  }

  ghost function AccentTexts(phone: Layout, kb: Keyboard, m: char, candidates: seq<Candidate>,
      bases: seq<Step>): (r: seq<string>)
    requires AllRowsProbeable(phone, kb, m, candidates, bases)
    ensures |r| == |candidates|
    ensures forall i :: 0 <= i < |r| ==> r[i] == AccentText(phone, kb, m, candidates[i].dead, bases)
    decreases candidates
  {
    if candidates == [] then []
    else
      var n := |candidates| - 1;
      AccentTexts(phone, kb, m, candidates[..n], bases) + [AccentText(phone, kb, m, candidates[n].dead, bases)]
  }

  lemma {:induction false} AccentsTyped(phone: Layout, kb: Keyboard, m: char, candidates: seq<Candidate>,
      bases: seq<Step>, text: string)
    requires Probeable(phone, kb, m) && AllRowsProbeable(phone, kb, m, candidates, bases)
    ensures phone.StrikeAll(Screen(text, Clear), AccentStrokes(kb, candidates, bases))
         == Screen(text + Unlines(AccentTexts(phone, kb, m, candidates, bases)), Clear)
    decreases candidates
  {
    if candidates == [] {
      assert text + [] == text;
    } else {
      var n := |candidates| - 1;
      var front, dead := candidates[..n], candidates[n].dead;
      assert AllRowsProbeable(phone, kb, m, front, bases);
      var lines := AccentTexts(phone, kb, m, front, bases);
      var line := AccentText(phone, kb, m, dead, bases);
      var shown := text + Unlines(lines);
      AccentsTyped(phone, kb, m, front, bases, text);
      PairsTyped(phone, kb, m, dead, bases, shown);
      LineEnded(phone, kb, m, shown, PairsStrokes(kb, dead, bases), line);
      LineAdded(phone, text, AccentStrokes(kb, front, bases), PairsStrokes(kb, dead, bases) + [Terminator(kb)],
                lines, line);
      assert AccentTexts(phone, kb, m, candidates, bases) == lines + [line];
    }
  }

  // -- and what it should be read as -------------------------------------------

  /** The pairs of one dead key that compose, and the bases it refuses. */
  function PairsTruth(phone: Layout, kb: Keyboard, dead: Step, bases: seq<Step>): PairsRead
    decreases bases
  {
    if bases == [] then PairsRead([], [])
    else
      var n := |bases| - 1;
      var front := PairsTruth(phone, kb, dead, bases[..n]);
      match Composed(phone, Press(kb, dead), Press(kb, bases[n]))
      case Some(c) => PairsRead(front.findings + [Finding([dead, bases[n]], c, [])], front.refused)
      case None => PairsRead(front.findings, front.refused + [bases[n].keycode])
  }

  function AccentTruth(phone: Layout, kb: Keyboard, candidates: seq<Candidate>, bases: seq<Step>): AccentReading
    decreases candidates
  {
    if candidates == [] then AccentReading([], [], [])
    else
      var n := |candidates| - 1;
      var front := AccentTruth(phone, kb, candidates[..n], bases);
      var row := PairsTruth(phone, kb, candidates[n].dead, bases);
      AccentReading(
        front.findings + row.findings,
        if row.refused == [] then front.declined
        else front.declined + [Declined(candidates[n].accent, row.refused)],
        [])
  }

  // -- bases that cannot be typed ----------------------------------------------

  /** The bases a report can carry. */
  function Tried(kb: Keyboard, bases: seq<Step>): (tried: seq<Step>)
    ensures |tried| <= |bases| && forall j :: 0 <= j < |tried| ==> tried[j].keycode in kb
    decreases bases
  {
    if bases == [] then []
    else
      var front, last := Tried(kb, bases[..|bases| - 1]), bases[|bases| - 1];
      if last.keycode in kb then front + [last] else front
  }

  lemma {:induction false} AllTried(kb: Keyboard, bases: seq<Step>)
    requires forall j :: 0 <= j < |bases| ==> bases[j].keycode in kb
    ensures Tried(kb, bases) == bases
    decreases bases
  {
    if bases != [] {
      AllTried(kb, bases[..|bases| - 1]);
    }
  }

  lemma {:induction false} PairsStrokesTried(kb: Keyboard, dead: Step, bases: seq<Step>)
    ensures PairsStrokes(kb, dead, bases) == PairsStrokes(kb, dead, Tried(kb, bases))
    decreases bases
  {
    if bases != [] {
      var front, last := bases[..|bases| - 1], bases[|bases| - 1];
      PairsStrokesTried(kb, dead, front);
      assert (Tried(kb, front) + [last])[..|Tried(kb, front)|] == Tried(kb, front);
    }
  }

  lemma {:induction false} AccentStrokesTried(kb: Keyboard, candidates: seq<Candidate>, bases: seq<Step>)
    ensures AccentStrokes(kb, candidates, bases) == AccentStrokes(kb, candidates, Tried(kb, bases))
    decreases candidates
  {
    if candidates != [] {
      AccentStrokesTried(kb, candidates[..|candidates| - 1], bases);
      PairsStrokesTried(kb, candidates[|candidates| - 1].dead, bases);
    }
  }

  /** What each base is credited with: the answer of the base tried in its place, and
      a refusal once the answers run out. */
  function PairsCredited(phone: Layout, kb: Keyboard, dead: Step, bases: seq<Step>, tried: seq<Step>): PairsRead
    requires |tried| <= |bases|
    decreases bases
  {
    if bases == [] then PairsRead([], [])
    else
      var n := |bases| - 1;
      var front := PairsCredited(phone, kb, dead, bases[..n], if n < |tried| then tried[..n] else tried);
      if n < |tried| && Composed(phone, Press(kb, dead), Press(kb, tried[n])).Some? then
        var c := Composed(phone, Press(kb, dead), Press(kb, tried[n])).value;
        PairsRead(front.findings + [Finding([dead, bases[n]], c, [])], front.refused)
      else PairsRead(front.findings, front.refused + [bases[n].keycode])
  }

  function AccentCredited(phone: Layout, kb: Keyboard, candidates: seq<Candidate>, bases: seq<Step>): AccentReading
    decreases candidates
  {
    if candidates == [] then AccentReading([], [], [])
    else
      var n := |candidates| - 1;
      WithPairs(AccentCredited(phone, kb, candidates[..n], bases), candidates[n].accent,
                PairsCredited(phone, kb, candidates[n].dead, bases, Tried(kb, bases)))
  }

  lemma {:induction false} PairsAllCredited(phone: Layout, kb: Keyboard, dead: Step, bases: seq<Step>)
    ensures PairsCredited(phone, kb, dead, bases, bases) == PairsTruth(phone, kb, dead, bases)
    decreases bases
  {
    if bases != [] {
      PairsAllCredited(phone, kb, dead, bases[..|bases| - 1]);
    }
  }

  lemma {:induction false} AllCredited(phone: Layout, kb: Keyboard, candidates: seq<Candidate>, bases: seq<Step>)
    requires Tried(kb, bases) == bases
    ensures AccentCredited(phone, kb, candidates, bases) == AccentTruth(phone, kb, candidates, bases)
    decreases candidates
  {
    if candidates != [] {
      AllCredited(phone, kb, candidates[..|candidates| - 1], bases);
      PairsAllCredited(phone, kb, candidates[|candidates| - 1].dead, bases);
    }
  }

  /** No base that can be typed comes after one that cannot. */
  predicate OnlyLastMissing(kb: Keyboard, bases: seq<Step>) {
    forall i, j :: 0 <= i < j < |bases| && bases[j].keycode in kb ==> bases[i].keycode in kb
  }

  predicate InPlace(bases: seq<Step>, tried: seq<Step>)
    requires |tried| <= |bases|
  {
    forall j :: 0 <= j < |tried| ==> tried[j] == bases[j]
  }

  lemma {:induction false} TriedInPlace(kb: Keyboard, bases: seq<Step>)
    ensures InPlace(bases, Tried(kb, bases)) <==> OnlyLastMissing(kb, bases)
    ensures OnlyLastMissing(kb, bases) ==>
      forall i :: |Tried(kb, bases)| <= i < |bases| ==> bases[i].keycode !in kb
    decreases bases
  {
    if bases != [] {
      var front, last := bases[..|bases| - 1], bases[|bases| - 1];
      var tried := Tried(kb, front);
      TriedInPlace(kb, front);
      assert forall i :: 0 <= i < |front| ==> front[i] == bases[i];
      if last.keycode in kb {
        assert InPlace(bases, tried + [last]) <==> InPlace(front, tried) && bases[|tried|] == last;
        if OnlyLastMissing(kb, bases) {
          AllTried(kb, front);
        }
      }
    }
  }

  /** Every base that composes is credited in its own place. */
  predicate ComposedInPlace(phone: Layout, kb: Keyboard, dead: Step, bases: seq<Step>, tried: seq<Step>)
    requires |tried| <= |bases|
  {
    forall j :: 0 <= j < |tried| && Composed(phone, Press(kb, dead), Press(kb, tried[j])).Some? ==> tried[j] == bases[j]
  }

  predicate AllCompose(phone: Layout, kb: Keyboard, dead: Step, tried: seq<Step>) {
    forall j :: 0 <= j < |tried| ==> Composed(phone, Press(kb, dead), Press(kb, tried[j])).Some?
  }

  lemma AllComposeInPlace(phone: Layout, kb: Keyboard, dead: Step, bases: seq<Step>, tried: seq<Step>)
    requires |tried| <= |bases|
    ensures InPlace(bases, tried) ==> ComposedInPlace(phone, kb, dead, bases, tried)
    ensures AllCompose(phone, kb, dead, tried) && ComposedInPlace(phone, kb, dead, bases, tried) ==>
        InPlace(bases, tried)
  {}

  /** The pairs read are the ones that compose exactly if every base that composes is
      credited in its own place. */
  lemma {:induction false} CreditedExactly(phone: Layout, kb: Keyboard, dead: Step, bases: seq<Step>, tried: seq<Step>)
    requires |tried| <= |bases|
    ensures PairsCredited(phone, kb, dead, bases, tried).findings == PairsTruth(phone, kb, dead, tried).findings
       <==> ComposedInPlace(phone, kb, dead, bases, tried)
    ensures |PairsCredited(phone, kb, dead, bases, tried).findings| == |PairsTruth(phone, kb, dead, tried).findings|
    decreases bases
  {
    if bases != [] {
      var n := |bases| - 1;
      if n < |tried| {
        CreditedExactly(phone, kb, dead, bases[..n], tried[..n]);
        var a := PairsCredited(phone, kb, dead, bases[..n], tried[..n]).findings;
        var b := PairsTruth(phone, kb, dead, tried[..n]).findings;
        var composed := Composed(phone, Press(kb, dead), Press(kb, tried[n]));
        if composed.Some? {
          SameBoth(a, b, Finding([dead, bases[n]], composed.value, []), Finding([dead, tried[n]], composed.value, []));
          assert [dead, bases[n]][1] == bases[n] && [dead, tried[n]][1] == tried[n];
        }
      } else {
        CreditedExactly(phone, kb, dead, bases[..n], tried);
      }
    }
  }

  lemma SameBoth(a: seq<Finding>, b: seq<Finding>, x: Finding, y: Finding)
    requires |a| == |b|
    ensures a + [x] == b + [y] <==> a == b && x == y
  {
    assert (a + [x])[..|a|] == a && (b + [y])[..|b|] == b;
    assert (a + [x])[|a|] == x && (b + [y])[|b|] == y;
  }

  /** So on every phone the pairs read are right exactly if only the last bases are
      missing: otherwise a phone that composes them all is misread. */
  lemma MissingBasesShift(phone: Layout, kb: Keyboard, dead: Step, bases: seq<Step>)
    ensures var tried := Tried(kb, bases);
            var right := PairsCredited(phone, kb, dead, bases, tried).findings
                == PairsTruth(phone, kb, dead, tried).findings;
            && (OnlyLastMissing(kb, bases) ==> right)
            && (AllCompose(phone, kb, dead, tried) ==> (right <==> OnlyLastMissing(kb, bases)))
  {
    var tried := Tried(kb, bases);
    TriedInPlace(kb, bases);
    CreditedExactly(phone, kb, dead, bases, tried);
    AllComposeInPlace(phone, kb, dead, bases, tried);
  }

  /** The shortest such list: what the second base composes is put down to the first. */
  lemma MissingBaseIsMisread(phone: Layout, kb: Keyboard, dead: Step, missing: Step, base: Step, c: char)
    requires missing.keycode !in kb && base.keycode in kb
    requires Composed(phone, Press(kb, dead), Press(kb, base)) == Some(c)
    ensures PairsCredited(phone, kb, dead, [missing, base], Tried(kb, [missing, base])).findings
         == [Finding([dead, missing], c, [])]
  {
    assert [missing, base][..1] == [missing] && [missing][..0] == [];
    assert Tried(kb, []) == [] && Tried(kb, [missing]) == [] && Tried(kb, [missing, base]) == [base];
    assert [base][..0] == [] && PairsCredited(phone, kb, dead, [], []) == PairsRead([], []);
    assert PairsCredited(phone, kb, dead, [missing], [base]) == PairsRead([Finding([dead, missing], c, [])], []);
  }

  // -- the rows as read --------------------------------------------------------

  /** The answers of the bases tried, and nothing where they run out. */
  function RowAnswers(phone: Layout, kb: Keyboard, dead: Step, bases: seq<Step>, tried: seq<Step>): (r: seq<Entry>)
    requires |tried| <= |bases| && phone.meaning(Press(kb, dead)).Dead?
    requires forall j :: 0 <= j < |tried| ==>
      Press(kb, tried[j]) == SPACE || phone.meaning(Press(kb, tried[j])).Types?
    ensures |r| == |bases|
  {
    PairAnswers(phone, kb, dead, tried) + Padding(|bases| - |tried|)
  }

  lemma {:induction false} PairsReadCredited(phone: Layout, kb: Keyboard, dead: Step, bases: seq<Step>,
      tried: seq<Step>)
    requires |tried| <= |bases| && phone.meaning(Press(kb, dead)).Dead?
    requires forall j :: 0 <= j < |tried| ==>
      Press(kb, tried[j]) == SPACE || phone.meaning(Press(kb, tried[j])).Types?
    ensures PairsReading(dead, bases, RowAnswers(phone, kb, dead, bases, tried))
         == PairsCredited(phone, kb, dead, bases, tried)
    decreases bases
  {
    if bases != [] {
      var n := |bases| - 1;
      var fewer := if n < |tried| then tried[..n] else tried;
      PairsReadCredited(phone, kb, dead, bases[..n], fewer);
      RowAnswersNext(phone, kb, dead, bases, tried);
    }
  }

  lemma RowAnswersNext(phone: Layout, kb: Keyboard, dead: Step, bases: seq<Step>, tried: seq<Step>)
    requires |tried| <= |bases| && bases != [] && phone.meaning(Press(kb, dead)).Dead?
    requires forall j :: 0 <= j < |tried| ==>
      Press(kb, tried[j]) == SPACE || phone.meaning(Press(kb, tried[j])).Types?
    ensures var n, answers := |bases| - 1, RowAnswers(phone, kb, dead, bases, tried);
            && answers[..n] == RowAnswers(phone, kb, dead, bases[..n], if n < |tried| then tried[..n] else tried)
            && answers[n] == if n < |tried| then PairAnswer(phone, Press(kb, dead), Press(kb, tried[n])) else MISSING
  {
    var n := |bases| - 1;
    if n >= |tried| {
      assert Padding(n + 1 - |tried|)[..n - |tried|] == Padding(n - |tried|);
    }
  }

  lemma FairPair(phone: Layout, kb: Keyboard, m: char, dead: Step, bases: seq<Step>, j: nat)
    requires RowProbeable(phone, kb, m, dead, bases) && j < |bases|
    ensures var answer := PairAnswer(phone, Press(kb, dead), Press(kb, bases[j]));
            Answer(answer) && Clean(FieldOf(answer), m) && NoBreak(FieldOf(answer))
  {
    var answer := PairAnswer(phone, Press(kb, dead), Press(kb, bases[j]));
    var field := FieldOf(answer);
    assert field[|field| - 1] == ' ';
    assert |field| == 3 ==> field[0] == phone.meaning(Press(kb, dead)).accent;
    forall i: nat ensures !DoubledAt(field, m, i) {
      assert i + 1 < |field| ==> i == 0 || i + 1 == |field| - 1;
    }
  }

  lemma AccentLineUnbroken(phone: Layout, kb: Keyboard, m: char, dead: Step, bases: seq<Step>)
    requires RowProbeable(phone, kb, m, dead, bases)
    ensures NoBreak(AccentText(phone, kb, m, dead, bases))
    ensures forall j :: 0 <= j < |bases| ==>
      var answer := PairAnswer(phone, Press(kb, dead), Press(kb, bases[j])); Answer(answer) && Clean(FieldOf(answer), m)
  {
    var answers := PairAnswers(phone, kb, dead, bases);
    forall j | 0 <= j < |answers|
      ensures Answer(answers[j]) && Clean(FieldOf(answers[j]), m) && NoBreak(FieldOf(answers[j]))
    {
      FairPair(phone, kb, m, dead, bases, j);
    }
    JoinedHasNoBreak(Fields(answers), m);
  }

  lemma AccentReadsTrue(phone: Layout, kb: Keyboard, m: char, dead: Step, bases: seq<Step>, tried: seq<Step>)
    requires |tried| <= |bases| && RowProbeable(phone, kb, m, dead, tried)
    ensures PairsReading(dead, bases, Row(AccentText(phone, kb, m, dead, tried), |bases|, m))
         == PairsCredited(phone, kb, dead, bases, tried)
  {
    AccentLineUnbroken(phone, kb, m, dead, tried);
    RowRoundTrip(PairAnswers(phone, kb, dead, tried), |bases|, m);
    PairsReadCredited(phone, kb, dead, bases, tried);
  }

  predicate LineCredited(phone: Layout, kb: Keyboard, m: char, line: string, dead: Step, bases: seq<Step>) {
    PairsReading(dead, bases, Row(line, |bases|, m)) == PairsCredited(phone, kb, dead, bases, Tried(kb, bases))
  }

  lemma {:induction false} LinesCredited(
      phone: Layout, kb: Keyboard, m: char, lines: seq<string>, candidates: seq<Candidate>, bases: seq<Step>)
    requires |lines| == |candidates|
    requires forall i :: 0 <= i < |lines| ==> LineCredited(phone, kb, m, lines[i], candidates[i].dead, bases)
    ensures AccentLinesReading(lines, candidates, bases, m) == AccentCredited(phone, kb, candidates, bases)
    decreases lines
  {
    if lines != [] {
      var n := |lines| - 1;
      LinesCredited(phone, kb, m, lines[..n], candidates[..n], bases);
      assert LineCredited(phone, kb, m, lines[n], candidates[n].dead, bases);
      OneMoreAccentLine(lines, candidates, bases, m, n);
      assert lines[..n + 1] == lines && candidates[..n + 1] == candidates;
    }
  }

  lemma AccentLinesReadTrue(phone: Layout, kb: Keyboard, m: char, candidates: seq<Candidate>, bases: seq<Step>)
    requires AllRowsProbeable(phone, kb, m, candidates, Tried(kb, bases))
    ensures AccentLinesReading(AccentTexts(phone, kb, m, candidates, Tried(kb, bases)), candidates, bases, m)
         == AccentCredited(phone, kb, candidates, bases)
  {
    var tried := Tried(kb, bases);
    var lines := AccentTexts(phone, kb, m, candidates, tried);
    forall i | 0 <= i < |lines| ensures LineCredited(phone, kb, m, lines[i], candidates[i].dead, bases) {
      AccentReadsTrue(phone, kb, m, candidates[i].dead, bases, tried);
    }
    LinesCredited(phone, kb, m, lines, candidates, bases);
  }

  /** Type the accent probe at a phone and read the mail back: exactly the pairs that
      compose, with their characters, and under each accent exactly the bases it
      refused.  A base no report can carry is not typed, and the answers of those after
      it are credited one base early. */
  lemma AccentProbeRoundTrip(phone: Layout, kb: Keyboard, m: char, candidates: seq<Candidate>, bases: seq<Step>,
                             idle: Report, before: string, after: string)
    requires AccentsProbeable(phone, kb, m, candidates, Tried(kb, bases))
    requires idle.keys == []
    requires EndsLine(before)
    requires NoSentinels(SplitLines(before)) && NoSentinels(SplitLines(after))
    ensures
      var probe := Plain(AccentProbeStrokes(kb, candidates, bases));
      var screen := phone.StrikeAll(Screen(before, Clear), Presses(idle, probe));
      && screen.pending == Clear
      && CompositionsReading(kb, screen.text + after, candidates, bases)
         == AccentCredited(phone, kb, Usable(kb, candidates), bases)
      && (Tried(kb, bases) == bases ==>
            CompositionsReading(kb, screen.text + after, candidates, bases)
            == AccentTruth(phone, kb, Usable(kb, candidates), bases))
  {
    var usable, tried := Usable(kb, candidates), Tried(kb, bases);
    UsableIsProbeable(phone, kb, m, candidates, tried);
    AccentStrokesTried(kb, usable, bases);
    PlainRegisters(idle, AccentProbeStrokes(kb, candidates, bases));
    AccentsTyped(phone, kb, m, usable, tried, before + Unlines(Edge(m)));
    var lines := AccentTexts(phone, kb, m, usable, tried);
    Sandwich(phone, kb, m, AccentStrokes(kb, usable, tried), lines, before);
    AccentTextsUnbroken(phone, kb, m, usable, tried);
    CaptureFound(before, lines, after, m);
    AccentLinesReadTrue(phone, kb, m, usable, bases);
    if tried == bases {
      AllCredited(phone, kb, usable, bases);
    }
  }

  lemma UsableIsProbeable(phone: Layout, kb: Keyboard, m: char, candidates: seq<Candidate>, bases: seq<Step>)
    requires AccentsProbeable(phone, kb, m, candidates, bases)
    ensures AllRowsProbeable(phone, kb, m, Usable(kb, candidates), bases)
  {
    var usable := Usable(kb, candidates);
    forall i | 0 <= i < |usable| ensures RowProbeable(phone, kb, m, usable[i].dead, bases) {
      assert usable[i] in candidates;
    }
  }

  lemma AccentTextsUnbroken(phone: Layout, kb: Keyboard, m: char, candidates: seq<Candidate>, bases: seq<Step>)
    requires AllRowsProbeable(phone, kb, m, candidates, bases)
    ensures Unbroken(AccentTexts(phone, kb, m, candidates, bases))
  {
    forall i | 0 <= i < |candidates| ensures NoBreak(AccentTexts(phone, kb, m, candidates, bases)[i]) {
      AccentLineUnbroken(phone, kb, m, candidates[i].dead, bases);
    }
  }

  // -- the truth, read another way ---------------------------------------------

  ghost predicate Pairs(phone: Layout, kb: Keyboard, dead: Step, base: Step, f: Finding) {
    f.steps == [dead, base] && f.notes == []
    && Composed(phone, Press(kb, dead), Press(kb, base)) == Some(f.c)
  }

  ghost predicate PairsWithSome(phone: Layout, kb: Keyboard, dead: Step, bases: seq<Step>, f: Finding) {
    exists j :: 0 <= j < |bases| && Pairs(phone, kb, dead, bases[j], f)
  }

  lemma {:induction false} PairsTruthContents(phone: Layout, kb: Keyboard, dead: Step, bases: seq<Step>, f: Finding)
    ensures f in PairsTruth(phone, kb, dead, bases).findings
       <==> PairsWithSome(phone, kb, dead, bases, f)
    decreases bases
  {
    if bases != [] {
      var n := |bases| - 1;
      PairsTruthContents(phone, kb, dead, bases[..n], f);
      assert forall j :: 0 <= j < n ==> bases[..n][j] == bases[j];
      assert Pairs(phone, kb, dead, bases[n], f) ==> f == Finding([dead, bases[n]], f.c, []);
    }
  }

  /** Some candidate and some base make this finding. */
  ghost predicate FoundAmong(phone: Layout, kb: Keyboard, candidates: seq<Candidate>, bases: seq<Step>, f: Finding) {
    exists i :: 0 <= i < |candidates| && PairsWithSome(phone, kb, candidates[i].dead, bases, f)
  }

  lemma FoundAmongNext(phone: Layout, kb: Keyboard, candidates: seq<Candidate>, bases: seq<Step>, f: Finding)
    requires candidates != []
    ensures FoundAmong(phone, kb, candidates, bases, f)
       <==> FoundAmong(phone, kb, candidates[..|candidates| - 1], bases, f)
            || PairsWithSome(phone, kb, candidates[|candidates| - 1].dead, bases, f)
  {
    var n := |candidates| - 1;
    assert forall i :: 0 <= i < n ==> candidates[..n][i] == candidates[i];
    if i :| 0 <= i < n && PairsWithSome(phone, kb, candidates[..n][i].dead, bases, f) {
      assert PairsWithSome(phone, kb, candidates[i].dead, bases, f);
    }
  }

  /** A finding is reported exactly when its dead key was a candidate, its base was
      tried, and the two compose to its character. */
  lemma {:induction false} AccentTruthContents(phone: Layout, kb: Keyboard, candidates: seq<Candidate>,
      bases: seq<Step>, f: Finding)
    ensures f in AccentTruth(phone, kb, candidates, bases).findings <==> FoundAmong(phone, kb, candidates, bases, f)
    decreases candidates
  {
    if candidates != [] {
      var n := |candidates| - 1;
      AccentTruthContents(phone, kb, candidates[..n], bases, f);
      PairsTruthContents(phone, kb, candidates[n].dead, bases, f);
      FoundAmongNext(phone, kb, candidates, bases, f);
    }
  }

  /** A base is among the refused exactly when it was tried and does not compose. */
  lemma {:induction false} RefusedContents(phone: Layout, kb: Keyboard, dead: Step, bases: seq<Step>, keycode: Keycode)
    ensures keycode in PairsTruth(phone, kb, dead, bases).refused
       <==> exists j :: 0 <= j < |bases| && bases[j].keycode == keycode
              && Composed(phone, Press(kb, dead), Press(kb, bases[j])) == None
    decreases bases
  {
    if bases != [] {
      var n := |bases| - 1;
      RefusedContents(phone, kb, dead, bases[..n], keycode);
      assert forall j :: 0 <= j < n ==> bases[..n][j] == bases[j];
    }
  }

  /** An accent is listed as declined exactly when it refused some base, with all the
      bases it refused. */
  lemma {:induction false} DeclinedContents(phone: Layout, kb: Keyboard, candidates: seq<Candidate>,
      bases: seq<Step>, d: Declined)
    ensures d in AccentTruth(phone, kb, candidates, bases).declined
       <==> exists i :: 0 <= i < |candidates| && Declines(phone, kb, candidates[i], bases, d)
    decreases candidates
  {
    if candidates != [] {
      var n := |candidates| - 1;
      DeclinedContents(phone, kb, candidates[..n], bases, d);
      assert forall i :: 0 <= i < n ==> candidates[..n][i] == candidates[i];
    }
  }

  predicate Declines(phone: Layout, kb: Keyboard, c: Candidate, bases: seq<Step>, d: Declined) {
    var refused := PairsTruth(phone, kb, c.dead, bases).refused;
    refused != [] && d == Declined(c.accent, refused)
  }
}
