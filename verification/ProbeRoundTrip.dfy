/** What a phone types in answer to a probe, and that reading it back recovers
    the phone's layout exactly. */
module ProbeRoundTrip {
  import opened Wrappers
  import opened Keycodes
  import opened Hid
  import opened Coalescing
  import opened Phone
  import opened Text
  import opened Rows
  import opened Probe
  import opened Seqs
  import opened Capture

  // -- what a probe asks of the phone ------------------------------------------

  /** The keys the probe itself leans on: space and Shift+Enter are what they are
      on any keyboard, and the marker types some visible character `m`. */
  ghost predicate Probeable(phone: Layout, kb: Keyboard, m: char) {
    && Equipped(kb)
    && phone.meaning(SPACE) == Types(' ')
    && phone.meaning(Terminator(kb)) == Types('\n')
    && phone.meaning(Mark(kb)) == Types(m)
    && !IsSpace(m)
  }

  /** A probed key: no result breaks the line, and no accent is the marker or blank. */
  ghost predicate Fair(phone: Layout, s: Stroke, m: char) {
    match phone.meaning(s)
    case Silent => true
    case Types(c) => !IsLineBreak(c)
    case Dead(accent) => !IsLineBreak(accent) && accent != m && accent != ' '
  }

  ghost predicate FairRow(phone: Layout, kb: Keyboard, row: ProbeRow, m: char) {
    forall i :: 0 <= i < |row.positions| ==> Fair(phone, Press(kb, Step(row.positions[i], row.mods)), m)
  }

  ghost predicate FairRows(phone: Layout, kb: Keyboard, rows: seq<ProbeRow>, m: char) {
    forall i :: 0 <= i < |rows| ==> FairRow(phone, kb, rows[i], m)
  }

  // -- lines, typed and read ---------------------------------------------------

  /** Three stretches of lines typed one after the other. */
  lemma UnlinesThrice(text: string, a: seq<string>, b: seq<string>, c: seq<string>)
    ensures text + Unlines(a) + Unlines(b) + Unlines(c) == text + Unlines(a + b + c)
  {
    UnlinesConcat(a + b, c);
    UnlinesConcat(a, b);
  }

  ghost predicate Unbroken(lines: seq<string>) {
    forall i :: 0 <= i < |lines| ==> NoBreak(lines[i])
  }

  lemma {:induction false} SplitUnlines(lines: seq<string>)
    requires Unbroken(lines)
    ensures SplitLines(Unlines(lines)) == lines
    ensures EndsLine(Unlines(lines))
    decreases |lines|
  {
    if lines != [] {
      var front, last := lines[..|lines| - 1], lines[|lines| - 1];
      assert lines == front + [last];
      assert Unbroken(front) && NoBreak(last);
      SplitUnlines(front);
      SplitLast(front, last);
    }
  }

  lemma SplitLast(lines: seq<string>, line: string)
    requires SplitLines(Unlines(lines)) == lines && EndsLine(Unlines(lines)) && NoBreak(line)
    ensures SplitLines(Unlines(lines + [line])) == lines + [line]
    ensures EndsLine(Unlines(lines + [line]))
  {
    UnlinesSnoc(lines, line);
    SplitConcat(Unlines(lines), line + "\n");
    SplitFirstLine(line, []);
    assert line + "\n" + [] == line + "\n";
  }

  lemma {:induction false} JoinedSnoc(fields: seq<string>, field: string, m: char)
    ensures Joined(fields + [field], m) == Joined(fields, m) + field + [m, m]
  {
    if fields == [] {
      assert [field][1..] == [];
      assert [] + [field] == [field];
    } else {
      assert (fields + [field])[1..] == fields[1..] + [field];
      JoinedSnoc(fields[1..], field, m);
    }
  }

  lemma {:induction false} JoinedHasNoBreak(fields: seq<string>, m: char)
    requires !IsLineBreak(m) && forall i :: 0 <= i < |fields| ==> NoBreak(fields[i])
    ensures NoBreak(Joined(fields, m))
  {
    if fields != [] {
      JoinedHasNoBreak(fields[1..], m);
    }
  }

  /** Why no accent may be the marker: a dead key that gives it is read as a key that
      gives nothing. */
  lemma AccentLikeMarkerIsMisread(phone: Layout, kb: Keyboard, m: char, dead: Step)
    requires Probeable(phone, kb, m) && phone.meaning(Press(kb, dead)) == Dead(m)
    ensures var screen := phone.StrikeAll(BLANK, FieldStrokes(kb, dead));
            screen == Screen([m, m, m], Clear) && Row(screen.text, 1, m) == [MISSING]
  {
    var d := Press(kb, dead);
    assert FieldStrokes(kb, dead) == [d, SPACE] + [Mark(kb), Mark(kb)];
    phone.StrikeConcat(BLANK, [d, SPACE], [Mark(kb), Mark(kb)]);
    phone.StrikeTwo(BLANK, d, SPACE);
    assert phone.Strike(phone.Strike(BLANK, d), SPACE) == Screen([m], Clear);
    phone.StrikeTwo(Screen([m], Clear), Mark(kb), Mark(kb));
    assert [m] + [m] + [m] == [m, m, m];
    assert DoubledAt([m, m, m], m, 0) && [m, m, m][..0] == [];
    assert SplitOn([m, m, m], m)[..1] == [[]];
    assert Decoded([[]]) == [MISSING];
  }

  // -- a sentinel --------------------------------------------------------------

  function MarkerLine(m: char, n: nat): (line: string)
    ensures |line| == n && forall i :: 0 <= i < n ==> line[i] == m
  {
    if n == 0 then [] else MarkerLine(m, n - 1) + [m]
  }

  /** The marker line that opens and closes a probe. */
  function Edge(m: char): seq<string> {
    [MarkerLine(m, SENTINEL_LENGTH)]
  }

  lemma {:induction false} MarksTyped(phone: Layout, kb: Keyboard, m: char, text: string, n: nat)
    requires Probeable(phone, kb, m)
    ensures phone.StrikeAll(Screen(text, Clear), Repeated(Mark(kb), n)) == Screen(text + MarkerLine(m, n), Clear)
  {
    if n != 0 {
      MarksTyped(phone, kb, m, text, n - 1);
      assert Repeated(Mark(kb), n) == Repeated(Mark(kb), n - 1) + [Mark(kb)];
      phone.StrikeConcat(Screen(text, Clear), Repeated(Mark(kb), n - 1), [Mark(kb)]);
      phone.StrikeOne(Screen(text + MarkerLine(m, n - 1), Clear), Mark(kb));
      assert text + MarkerLine(m, n - 1) + [m] == text + MarkerLine(m, n);
    } else {
      assert text + [] == text;
    }
  }

  lemma SentinelTyped(phone: Layout, kb: Keyboard, m: char, text: string)
    requires Probeable(phone, kb, m)
    ensures phone.StrikeAll(Screen(text, Clear), SentinelStrokes(kb))
         == Screen(text + Unlines(Edge(m)), Clear)
  {
    var line := MarkerLine(m, SENTINEL_LENGTH);
    MarksTyped(phone, kb, m, text, SENTINEL_LENGTH);
    phone.StrikeConcat(Screen(text, Clear), Repeated(Mark(kb), SENTINEL_LENGTH), [Terminator(kb)]);
    phone.StrikeOne(Screen(text + line, Clear), Terminator(kb));
    UnlinesOne(line);
    assert text + line + "\n" == text + (line + "\n");
  }

  lemma MarkerLineIsSentinel(m: char)
    requires !IsSpace(m)
    ensures var line := MarkerLine(m, SENTINEL_LENGTH);
            IsSentinel(line) && Strip(line)[0] == m && NoBreak(line)
  {
    StripNothing(MarkerLine(m, SENTINEL_LENGTH));
  }

  /** Everything typed between two sentinels is found again in the mail. */
  lemma CaptureFound(before: string, lines: seq<string>, after: string, m: char)
    requires EndsLine(before)
    requires !IsSpace(m)
    requires Unbroken(lines)
    requires NoSentinels(SplitLines(before)) && NoSentinels(SplitLines(after))
    ensures CaptureBlock(SplitLines(before + Unlines(Edge(m) + lines + Edge(m)) + after)) == Some(Block(lines, m))
  {
    var mark := MarkerLine(m, SENTINEL_LENGTH);
    var all := Edge(m) + lines + Edge(m);
    MarkerLineIsSentinel(m);
    assert Unbroken(all);
    SplitUnlines(all);
    SplitThrice(before, Unlines(all), after);
    BlockFound(SplitLines(before), mark, lines, mark, SplitLines(after));
  }

  lemma SplitThrice(a: string, b: string, c: string)
    requires EndsLine(a) && EndsLine(b)
    ensures SplitLines(a + b + c) == SplitLines(a) + SplitLines(b) + SplitLines(c)
  {
    assert EndsLine(a + b);
    SplitConcat(a + b, c);
    SplitConcat(a, b);
  }

  // -- the layout probe --------------------------------------------------------

  /** What one probed key and its settling space leave on the screen. */
  function KeyAnswer(phone: Layout, s: Stroke): Entry {
    match phone.meaning(s)
    case Silent => MISSING
    case Types(c) => Entry(Some([c]), false)
    case Dead(accent) => Entry(Some([accent]), true)
  }

  lemma FieldTyped(phone: Layout, kb: Keyboard, m: char, step: Step, text: string)
    requires Probeable(phone, kb, m)
    ensures phone.StrikeAll(Screen(text, Clear), FieldStrokes(kb, step))
         == Screen(text + FieldOf(KeyAnswer(phone, Press(kb, step))) + [m, m], Clear)
  {
    var s := Press(kb, step);
    var screen := Screen(text, Clear);
    var settled := Screen(text + FieldOf(KeyAnswer(phone, s)), Clear);
    assert FieldStrokes(kb, step) == [s, SPACE] + [Mark(kb), Mark(kb)];
    phone.StrikeConcat(screen, [s, SPACE], [Mark(kb), Mark(kb)]);
    phone.StrikeTwo(screen, s, SPACE);
    assert phone.Strike(phone.Strike(screen, s), SPACE) == settled;
    phone.StrikeTwo(settled, Mark(kb), Mark(kb));
    assert settled.text + [m] + [m] == settled.text + [m, m];
  }

  function KeysAnswers(phone: Layout, kb: Keyboard, positions: seq<Keycode>, mods: Modifiers): (r: seq<Entry>)
    ensures |r| == |positions|
    ensures forall i :: 0 <= i < |r| ==> r[i] == KeyAnswer(phone, Press(kb, Step(positions[i], mods)))
  {
    if positions == [] then []
    else
      var n := |positions| - 1;
      KeysAnswers(phone, kb, positions[..n], mods) + [KeyAnswer(phone, Press(kb, Step(positions[n], mods)))]
  }

  function RowText(phone: Layout, kb: Keyboard, row: ProbeRow, m: char): string {
    Joined(Fields(KeysAnswers(phone, kb, row.positions, row.mods)), m)
  }

  function RowTexts(phone: Layout, kb: Keyboard, rows: seq<ProbeRow>, m: char): (r: seq<string>)
    ensures |r| == |rows|
    ensures forall i :: 0 <= i < |r| ==> r[i] == RowText(phone, kb, rows[i], m)
  {
    if rows == [] then []
    else RowTexts(phone, kb, rows[..|rows| - 1], m) + [RowText(phone, kb, rows[|rows| - 1], m)]
  }

  /** A row grows by one field. */
  lemma FieldAdded(phone: Layout, m: char, text: string, a: seq<Stroke>, b: seq<Stroke>, answers: seq<Entry>,
      answer: Entry)
    requires phone.StrikeAll(Screen(text, Clear), a) == Screen(text + Joined(Fields(answers), m), Clear)
    requires var shown := text + Joined(Fields(answers), m);
             phone.StrikeAll(Screen(shown, Clear), b) == Screen(shown + FieldOf(answer) + [m, m], Clear)
    ensures phone.StrikeAll(Screen(text, Clear), a + b)
         == Screen(text + Joined(Fields(answers + [answer]), m), Clear)
  {
    phone.StrikeConcat(Screen(text, Clear), a, b);
    assert Fields(answers + [answer]) == Fields(answers) + [FieldOf(answer)];
    JoinedSnoc(Fields(answers), FieldOf(answer), m);
    assert text + Joined(Fields(answers), m) + FieldOf(answer) + [m, m]
        == text + (Joined(Fields(answers), m) + FieldOf(answer) + [m, m]);
  }

  /** A capture grows by one line. */
  lemma LineAdded(phone: Layout, text: string, a: seq<Stroke>, b: seq<Stroke>, lines: seq<string>, line: string)
    requires phone.StrikeAll(Screen(text, Clear), a) == Screen(text + Unlines(lines), Clear)
    requires var shown := text + Unlines(lines);
             phone.StrikeAll(Screen(shown, Clear), b) == Screen(shown + (line + "\n"), Clear)
    ensures phone.StrikeAll(Screen(text, Clear), a + b) == Screen(text + Unlines(lines + [line]), Clear)
  {
    phone.StrikeConcat(Screen(text, Clear), a, b);
    UnlinesConcat(lines, [line]);
    UnlinesOne(line);
    assert text + Unlines(lines) + (line + "\n") == text + (Unlines(lines) + (line + "\n"));
  }

  /** A line is closed. */
  lemma LineEnded(phone: Layout, kb: Keyboard, m: char, text: string, keys: seq<Stroke>, line: string)
    requires Probeable(phone, kb, m)
    requires phone.StrikeAll(Screen(text, Clear), keys) == Screen(text + line, Clear)
    ensures phone.StrikeAll(Screen(text, Clear), keys + [Terminator(kb)]) == Screen(text + (line + "\n"), Clear)
  {
    phone.StrikeConcat(Screen(text, Clear), keys, [Terminator(kb)]);
    phone.StrikeOne(Screen(text + line, Clear), Terminator(kb));
    assert text + line + "\n" == text + (line + "\n");
  }

  lemma {:induction false} KeysTyped(phone: Layout, kb: Keyboard, m: char, positions: seq<Keycode>, mods: Modifiers,
      text: string)
    requires Probeable(phone, kb, m)
    ensures phone.StrikeAll(Screen(text, Clear), KeysStrokes(kb, positions, mods))
         == Screen(text + RowText(phone, kb, ProbeRow(positions, mods), m), Clear)
    decreases positions
  {
    if positions == [] {
      assert text + [] == text;
    } else {
      var n := |positions| - 1;
      var front, step := positions[..n], Step(positions[n], mods);
      var answers, answer := KeysAnswers(phone, kb, front, mods), KeyAnswer(phone, Press(kb, step));
      KeysTyped(phone, kb, m, front, mods, text);
      FieldTyped(phone, kb, m, step, text + Joined(Fields(answers), m));
      FieldAdded(phone, m, text, KeysStrokes(kb, front, mods), FieldStrokes(kb, step), answers, answer);
    }
  }

  lemma RowTyped(phone: Layout, kb: Keyboard, m: char, row: ProbeRow, text: string)
    requires Probeable(phone, kb, m)
    ensures phone.StrikeAll(Screen(text, Clear), RowStrokes(kb, row))
         == Screen(text + (RowText(phone, kb, row, m) + "\n"), Clear)
  {
    KeysTyped(phone, kb, m, row.positions, row.mods, text);
    LineEnded(phone, kb, m, text, KeysStrokes(kb, row.positions, row.mods), RowText(phone, kb, row, m));
  }

  lemma {:induction false} RowsTyped(phone: Layout, kb: Keyboard, m: char, rows: seq<ProbeRow>, text: string)
    requires Probeable(phone, kb, m)
    ensures phone.StrikeAll(Screen(text, Clear), RowsStrokes(kb, rows))
         == Screen(text + Unlines(RowTexts(phone, kb, rows, m)), Clear)
    decreases rows
  {
    if rows == [] {
      assert text + [] == text;
    } else {
      var front, row := rows[..|rows| - 1], rows[|rows| - 1];
      var lines := RowTexts(phone, kb, front, m);
      RowsTyped(phone, kb, m, front, text);
      RowTyped(phone, kb, m, row, text + Unlines(lines));
      LineAdded(phone, text, RowsStrokes(kb, front), RowStrokes(kb, row), lines, RowText(phone, kb, row, m));
      assert RowTexts(phone, kb, rows, m) == lines + [RowText(phone, kb, row, m)];
    }
  }

  lemma ProbeTyped(phone: Layout, kb: Keyboard, m: char, rows: seq<ProbeRow>, text: string)
    requires Probeable(phone, kb, m)
    ensures phone.StrikeAll(Screen(text, Clear), SentinelStrokes(kb) + RowsStrokes(kb, rows) + SentinelStrokes(kb))
         == Screen(text + Unlines(Edge(m) + RowTexts(phone, kb, rows, m) + Edge(m)), Clear)
  {
    var lines := RowTexts(phone, kb, rows, m);
    Sandwich(phone, kb, m, RowsStrokes(kb, rows), lines, text);
    RowsTyped(phone, kb, m, rows, text + Unlines(Edge(m)));
  }

  /** Between its two sentinels, a probe is whatever its rows type. */
  lemma Sandwich(phone: Layout, kb: Keyboard, m: char, middle: seq<Stroke>, lines: seq<string>, text: string)
    requires Probeable(phone, kb, m)
    ensures
      var begun := text + Unlines(Edge(m));
      phone.StrikeAll(Screen(begun, Clear), middle) == Screen(begun + Unlines(lines), Clear)
      ==> phone.StrikeAll(Screen(text, Clear), SentinelStrokes(kb) + middle + SentinelStrokes(kb))
          == Screen(text + Unlines(Edge(m) + lines + Edge(m)), Clear)
  {
    var begun := text + Unlines(Edge(m));
    phone.StrikeConcat(Screen(text, Clear), SentinelStrokes(kb) + middle, SentinelStrokes(kb));
    phone.StrikeConcat(Screen(text, Clear), SentinelStrokes(kb), middle);
    SentinelTyped(phone, kb, m, text);
    SentinelTyped(phone, kb, m, begun + Unlines(lines));
    UnlinesThrice(text, Edge(m), lines, Edge(m));
  }

  // -- and what it should be read as -------------------------------------------

  /** The truth about one key: nothing, the character, or the dead accent. */
  function KeyTruth(phone: Layout, kb: Keyboard, step: Step): seq<Finding> {
    match phone.meaning(Press(kb, step))
    case Silent => []
    case Types(c) => [Finding([step], c, [])]
    case Dead(accent) => [Finding([step], accent, [DeadKey])]
  }

  function KeysTruth(phone: Layout, kb: Keyboard, positions: seq<Keycode>, mods: Modifiers): seq<Finding> {
    if positions == [] then []
    else
      var n := |positions| - 1;
      KeysTruth(phone, kb, positions[..n], mods) + KeyTruth(phone, kb, Step(positions[n], mods))
  }

  function LayoutTruth(phone: Layout, kb: Keyboard, rows: seq<ProbeRow>): seq<Finding> {
    if rows == [] then []
    else
      var row := rows[|rows| - 1];
      LayoutTruth(phone, kb, rows[..|rows| - 1]) + KeysTruth(phone, kb, row.positions, row.mods)
  }

  lemma {:induction false} KeysReadTrue(phone: Layout, kb: Keyboard, positions: seq<Keycode>, mods: Modifiers)
    ensures KeysReading(positions, mods, KeysAnswers(phone, kb, positions, mods))
         == Reading(KeysTruth(phone, kb, positions, mods), [])
    decreases positions
  {
    if positions != [] {
      var n := |positions| - 1;
      KeysReadTrue(phone, kb, positions[..n], mods);
      var answers := KeysAnswers(phone, kb, positions, mods);
      assert answers[..n] == KeysAnswers(phone, kb, positions[..n], mods);
      assert KeyReading(Step(positions[n], mods), answers[n])
          == Reading(KeyTruth(phone, kb, Step(positions[n], mods)), []);
    }
  }

  lemma FairAnswer(phone: Layout, s: Stroke, m: char)
    requires Fair(phone, s, m) && !IsSpace(m)
    ensures Answer(KeyAnswer(phone, s))
    ensures Clean(FieldOf(KeyAnswer(phone, s)), m) && NoBreak(FieldOf(KeyAnswer(phone, s)))
  {}

  lemma RowReadsTrue(phone: Layout, kb: Keyboard, row: ProbeRow, m: char)
    requires FairRow(phone, kb, row, m) && !IsSpace(m)
    ensures NoBreak(RowText(phone, kb, row, m))
    ensures LineReading(RowText(phone, kb, row, m), row, m)
         == Reading(KeysTruth(phone, kb, row.positions, row.mods), [])
  {
    var answers := KeysAnswers(phone, kb, row.positions, row.mods);
    forall i | 0 <= i < |answers|
      ensures Answer(answers[i]) && Clean(FieldOf(answers[i]), m) && NoBreak(FieldOf(answers[i]))
    {
      FairAnswer(phone, Press(kb, Step(row.positions[i], row.mods)), m);
    }
    RowRoundTrip(answers, |row.positions|, m);
    assert answers + Padding(0) == answers;
    JoinedHasNoBreak(Fields(answers), m);
    KeysReadTrue(phone, kb, row.positions, row.mods);
  }

  lemma {:induction false} LinesReadTrue(phone: Layout, kb: Keyboard, rows: seq<ProbeRow>, m: char)
    requires FairRows(phone, kb, rows, m) && !IsSpace(m)
    ensures LinesReading(RowTexts(phone, kb, rows, m), rows, m) == Reading(LayoutTruth(phone, kb, rows), [])
    decreases rows
  {
    if rows != [] {
      var n := |rows| - 1;
      LinesReadTrue(phone, kb, rows[..n], m);
      RowReadsTrue(phone, kb, rows[n], m);
      assert RowTexts(phone, kb, rows, m)[..n] == RowTexts(phone, kb, rows[..n], m);
    }
  }

  /** Any rows at all: the capture is found and its lines are the truth. */
  lemma RowsRoundTrip(phone: Layout, kb: Keyboard, m: char, rows: seq<ProbeRow>, before: string, after: string)
    requires Probeable(phone, kb, m) && FairRows(phone, kb, rows, m)
    requires EndsLine(before)
    requires NoSentinels(SplitLines(before)) && NoSentinels(SplitLines(after))
    ensures
      var strokes := SentinelStrokes(kb) + RowsStrokes(kb, rows) + SentinelStrokes(kb);
      var screen := phone.StrikeAll(Screen(before, Clear), strokes);
      && screen.pending == Clear
      && RowsCaptureReading(screen.text + after, rows) == Reading(Annotated(LayoutTruth(phone, kb, rows)), [])
  {
    ProbeTyped(phone, kb, m, rows, before);
    var lines := RowTexts(phone, kb, rows, m);
    assert Unbroken(lines) by {
      forall i | 0 <= i < |lines| ensures NoBreak(lines[i]) {
        RowReadsTrue(phone, kb, rows[i], m);
      }
    }
    CaptureFound(before, lines, after, m);
    LinesReadTrue(phone, kb, rows, m);
  }

  /** Type the layout probe at a phone, wherever in a mail, and read the mail back:
      exactly what the phone means by every probed key, with nothing unresolved. */
  lemma LayoutProbeRoundTrip(phone: Layout, kb: Keyboard, m: char, idle: Report, before: string, after: string)
    requires Probeable(phone, kb, m)
    requires FairRows(phone, kb, Expected(LEVELS, ROWS), m)
    requires idle.keys == []
    requires EndsLine(before)
    requires NoSentinels(SplitLines(before)) && NoSentinels(SplitLines(after))
    ensures
      var screen := phone.StrikeAll(Screen(before, Clear), Presses(idle, Plain(ProbeStrokes(kb))));
      && screen.pending == Clear
      && CaptureReading(screen.text + after)
         == Reading(Annotated(LayoutTruth(phone, kb, Expected(LEVELS, ROWS))), [])
  {
    PlainRegisters(idle, ProbeStrokes(kb));
    RowsRoundTrip(phone, kb, m, Expected(LEVELS, ROWS), before, after);
  }

  /** The truth names each non-silent probed key once, at its own level, and says
      nothing of the others. */
  lemma {:induction false} KeysTruthContents(phone: Layout, kb: Keyboard, positions: seq<Keycode>, mods: Modifiers,
      f: Finding)
    ensures f in KeysTruth(phone, kb, positions, mods)
       <==> exists i :: 0 <= i < |positions| && f in KeyTruth(phone, kb, Step(positions[i], mods))
    decreases positions
  {
    if positions != [] {
      var n := |positions| - 1;
      KeysTruthContents(phone, kb, positions[..n], mods, f);
      assert f in KeysTruth(phone, kb, positions, mods)
        <==> f in KeysTruth(phone, kb, positions[..n], mods) || f in KeyTruth(phone, kb, Step(positions[n], mods));
      assert forall i :: 0 <= i < n ==> positions[..n][i] == positions[i];
    }
  }

  lemma {:induction false} LayoutTruthContents(phone: Layout, kb: Keyboard, rows: seq<ProbeRow>, f: Finding)
    ensures f in LayoutTruth(phone, kb, rows)
       <==> exists i, j :: 0 <= i < |rows| && 0 <= j < |rows[i].positions|
              && f in KeyTruth(phone, kb, Step(rows[i].positions[j], rows[i].mods))
    decreases rows
  {
    if rows != [] {
      var n := |rows| - 1;
      LayoutTruthContents(phone, kb, rows[..n], f);
      KeysTruthContents(phone, kb, rows[n].positions, rows[n].mods, f);
      assert f in LayoutTruth(phone, kb, rows)
        <==> f in LayoutTruth(phone, kb, rows[..n]) || f in KeysTruth(phone, kb, rows[n].positions, rows[n].mods);
      assert forall i :: 0 <= i < n ==> rows[..n][i] == rows[i];
    }
  }
}
