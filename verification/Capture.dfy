/** Reading a phone's answers back: what each probed key turned out to type. */
module Capture {
  import opened Wrappers
  import opened Keycodes
  import opened Text
  import opened Rows
  import opened Probe
  import opened Seqs

  datatype Note = DeadKey | Smart | Straight | ArrivesAs(c: char)

  /** One way of typing a character, as measured. */
  datatype Finding = Finding(steps: seq<Step>, c: char, notes: seq<Note>)

  datatype Problem =
    | WrongRowCount(expected: nat, found: nat)
    | NotOneCharacter(keycode: Keycode, output: string)

  datatype Reading = Reading(findings: seq<Finding>, problems: seq<Problem>)

  const NOTHING_READ: Reading := Reading([], [])

  function Both(a: Reading, b: Reading): Reading {
    Reading(a.findings + b.findings, a.problems + b.problems)
  }

  // -- finding the capture in the mail -----------------------------------------

  /** A line of one repeated character, blanks around it aside. */
  predicate IsSentinel(line: string) {
    var s := Strip(line);
    && |s| >= SENTINEL_LENGTH - 2
    && !IsSpace(s[0])
    && forall i :: 0 <= i < |s| ==> s[i] == s[0]
  }

  /** That is, one visible character often enough, with nothing else but blanks around. */
  lemma SentinelsRepeat(line: string)
    ensures IsSentinel(line) <==>
      exists c, n :: n >= SENTINEL_LENGTH - 2 && !IsSpace(c) && Strip(line) == Repeated(c, n)
  {
    var s := Strip(line);
    if IsSentinel(line) {
      assert s == Repeated(s[0], |s|);
    }
  }

  /** The positions of the lines that are marks, in order. */
  function Marks(isMark: string -> bool, lines: seq<string>): (r: seq<nat>)
    ensures forall k :: 0 <= k < |r| ==> r[k] < |lines| && isMark(lines[r[k]])
    ensures forall i :: 0 <= i < |lines| && isMark(lines[i]) ==> i in r
    ensures forall j, k :: 0 <= j < k < |r| ==> r[j] < r[k]
  {
    if lines == [] then []
    else
      var n := |lines| - 1;
      var front := Marks(isMark, lines[..n]);
      if isMark(lines[n]) then front + [n] else front
  }

  /** What lies between the outermost sentinels, and the character they repeat. */
  datatype Block = Block(rows: seq<string>, marker: char)

  function BlockOf(isMark: string -> bool, markerOf: string -> char, lines: seq<string>): Option<Block> {
    var marks := Marks(isMark, lines);
    if |marks| < 2 then None
    else
      assert marks[0] < marks[|marks| - 1];
      Some(Block(lines[marks[0] + 1..marks[|marks| - 1]], markerOf(lines[marks[0]])))
  }

  /** The character a sentinel repeats; a sentinel is never blank. */
  function MarkerOf(line: string): char {
    if Strip(line) == [] then ' ' else Strip(line)[0]
  }

  function CaptureBlock(lines: seq<string>): Option<Block> { BlockOf(IsSentinel, MarkerOf, lines) }

  ghost predicate NoMarks(isMark: string -> bool, lines: seq<string>) {
    forall i :: 0 <= i < |lines| ==> !isMark(lines[i])
  }

  ghost predicate NoSentinels(lines: seq<string>) { NoMarks(IsSentinel, lines) }

  lemma OutermostMarks(isMark: string -> bool, lines: seq<string>, p: nat, q: nat)
    requires p < q < |lines| && isMark(lines[p]) && isMark(lines[q])
    requires forall i :: 0 <= i < p || q < i < |lines| ==> !isMark(lines[i])
    ensures var marks := Marks(isMark, lines); |marks| >= 2 && marks[0] == p && marks[|marks| - 1] == q
  {
    var marks := Marks(isMark, lines);
    assert p in marks && q in marks;
    var j :| 0 <= j < |marks| && marks[j] == p;
    var k :| 0 <= k < |marks| && marks[k] == q;
    assert p <= marks[0] && marks[|marks| - 1] <= q;
  }

  lemma BlockAround(
      isMark: string -> bool, markerOf: string -> char,
      before: seq<string>, first: string, rows: seq<string>, last: string, after: seq<string>)
    requires NoMarks(isMark, before) && NoMarks(isMark, after) && isMark(first) && isMark(last)
    ensures BlockOf(isMark, markerOf, before + ([first] + rows + [last]) + after) == Some(Block(rows, markerOf(first)))
  {
    var lines := before + ([first] + rows + [last]) + after;
    var p, q := |before|, |before| + 1 + |rows|;
    forall i | 0 <= i < p || q < i < |lines| ensures !isMark(lines[i]) {
      assert lines[i] == if i < p then before[i] else after[i - q - 1];
    }
    assert lines[p] == first && lines[q] == last;
    OutermostMarks(isMark, lines, p, q);
    assert lines[p + 1..q] == rows;
  }

  /** Whatever else the mail holds, as long as no other line of it looks like a
      sentinel - lines inside the capture may. */
  lemma BlockFound(before: seq<string>, first: string, rows: seq<string>, last: string, after: seq<string>)
    requires NoSentinels(before) && NoSentinels(after)
    requires IsSentinel(first) && IsSentinel(last)
    ensures CaptureBlock(before + ([first] + rows + [last]) + after) == Some(Block(rows, MarkerOf(first)))
  {
    BlockAround(IsSentinel, MarkerOf, before, first, rows, last, after);
  }

  // -- the layout capture ------------------------------------------------------

  function KeyReading(step: Step, entry: Entry): Reading {
    match entry.output
    case None => NOTHING_READ
    case Some(output) =>
      if |output| != 1 then Reading([], [NotOneCharacter(step.keycode, output)])
      else Reading([Finding([step], output[0], if entry.dead then [DeadKey] else [])], [])
  }

  function KeysReading(positions: seq<Keycode>, mods: Modifiers, entries: seq<Entry>): Reading
    requires |positions| == |entries|
    decreases |positions|
  {
    if positions == [] then NOTHING_READ
    else
      var n := |positions| - 1;
      Both(KeysReading(positions[..n], mods, entries[..n]),
           KeyReading(Step(positions[n], mods), entries[n]))
  }

  function LineReading(line: string, row: ProbeRow, marker: char): Reading {
    KeysReading(row.positions, row.mods, Row(line, |row.positions|, marker))
  }

  function LinesReading(lines: seq<string>, rows: seq<ProbeRow>, marker: char): Reading
    requires |lines| == |rows|
    decreases |lines|
  {
    if lines == [] then NOTHING_READ
    else
      var n := |lines| - 1;
      Both(LinesReading(lines[..n], rows[..n], marker), LineReading(lines[n], rows[n], marker))
  }

  predicate IsStraightQuote(c: char) { c == '\'' || c == '"' }

  predicate IsSmartQuote(c: char) { '\U{2018}' <= c <= '\U{2019}' || '\U{201C}' <= c <= '\U{201D}' }

  /** A straight quote anywhere in the capture means nothing was rewriting them. */
  predicate SmartPunctuation(findings: seq<Finding>) {
    forall i :: 0 <= i < |findings| ==> !IsStraightQuote(findings[i].c)
  }

  function AnnotateOne(f: Finding, on: bool): Finding {
    if on && IsSmartQuote(f.c) then f.(notes := f.notes + [Smart])
    else if !on && IsStraightQuote(f.c) then f.(notes := f.notes + [Straight])
    else f
  }

  function AnnotateAll(findings: seq<Finding>, on: bool): (r: seq<Finding>)
    ensures |r| == |findings|
    ensures forall i :: 0 <= i < |r| ==> r[i] == AnnotateOne(findings[i], on)
  {
    if findings == [] then []
    else AnnotateAll(findings[..|findings| - 1], on) + [AnnotateOne(findings[|findings| - 1], on)]
  }

  /** Marks the quotes that depend on the Smart Punctuation setting. */
  function Annotated(findings: seq<Finding>): seq<Finding> {
    AnnotateAll(findings, SmartPunctuation(findings))
  }

  /** With a straight quote anywhere in the capture the straight ones are marked, and else
      the curly ones; nothing else of any finding changes. */
  lemma QuotesAreMarked(findings: seq<Finding>, i: nat)
    requires i < |findings|
    ensures var straight, curly := ['\'', '"'], ['\U{2018}', '\U{2019}', '\U{201C}', '\U{201D}'];
            var any := exists j :: 0 <= j < |findings| && findings[j].c in straight;
            var f, marked := findings[i], Annotated(findings)[i];
            && marked.steps == f.steps && marked.c == f.c
            && marked.notes == f.notes + (if any && f.c in straight then [Straight]
                                          else if !any && f.c in curly then [Smart] else [])
  {
    var f := findings[i];
    assert f.notes + [] == f.notes;
    forall j | 0 <= j < |findings| ensures IsStraightQuote(findings[j].c) <==> findings[j].c in ['\'', '"'] {}
    assert IsSmartQuote(f.c) <==> f.c in ['\U{2018}', '\U{2019}', '\U{201C}', '\U{201D}'];
  }

  /** A row-per-line capture of these rows, read as a whole. */
  function RowsCaptureReading(text: string, expected: seq<ProbeRow>): Reading {
    match CaptureBlock(SplitLines(text))
    case None => NOTHING_READ
    case Some(block) =>
      if |block.rows| != |expected| then Reading([], [WrongRowCount(|expected|, |block.rows|)])
      else
        var reading := LinesReading(block.rows, expected, block.marker);
        Reading(Annotated(reading.findings), reading.problems)
  }

  /** A capture of the layout probe. */
  function CaptureReading(text: string): Reading {
    RowsCaptureReading(text, Expected(LEVELS, ROWS))
  }

  lemma NothingMore(reading: Reading)
    ensures reading.findings + [] == reading.findings && reading.problems + [] == reading.problems
  {}

  lemma OneMoreKey(positions: seq<Keycode>, mods: Modifiers, entries: seq<Entry>, i: nat, soFar: Reading)
    requires i < |positions| == |entries|
    ensures Both(soFar, KeysReading(positions[..i + 1], mods, entries[..i + 1]))
         == Both(Both(soFar, KeysReading(positions[..i], mods, entries[..i])),
                 KeyReading(Step(positions[i], mods), entries[i]))
  {
    assert positions[..i + 1][..i] == positions[..i] && entries[..i + 1][..i] == entries[..i];
    BothRegroup(soFar, KeysReading(positions[..i], mods, entries[..i]),
                KeyReading(Step(positions[i], mods), entries[i]));
  }

  lemma BothRegroup(a: Reading, b: Reading, c: Reading)
    ensures Both(a, Both(b, c)) == Both(Both(a, b), c)
  {}

  method ReadKeys(positions: seq<Keycode>, mods: Modifiers, entries: seq<Entry>, soFar: Reading)
    returns (reading: Reading)
    requires |positions| == |entries|
    ensures reading == Both(soFar, KeysReading(positions, mods, entries))
  {
    var findings, problems := soFar.findings, soFar.problems;
    NothingMore(soFar);
    for i := 0 to |positions|
      invariant Reading(findings, problems) == Both(soFar, KeysReading(positions[..i], mods, entries[..i]))
    {
      OneMoreKey(positions, mods, entries, i, soFar);
      NothingMore(Reading(findings, problems));
      var entry := entries[i];
      if entry.output.None? {
        continue;
      }
      var output := entry.output.value;
      if |output| != 1 {
        problems := problems + [NotOneCharacter(positions[i], output)];
        continue;
      }
      var notes := if entry.dead then [DeadKey] else [];
      findings := findings + [Finding([Step(positions[i], mods)], output[0], notes)];
    }
    assert positions[..|positions|] == positions && entries[..|entries|] == entries;
    reading := Reading(findings, problems);
  }

  method ReadLines(lines: seq<string>, rows: seq<ProbeRow>, marker: char) returns (reading: Reading)
    requires |lines| == |rows|
    ensures reading == LinesReading(lines, rows, marker)
  {
    reading := NOTHING_READ;
    for i := 0 to |lines|
      invariant reading == LinesReading(lines[..i], rows[..i], marker)
    {
      OneMoreLine(lines, rows, marker, i);
      var entries := ReadRow(lines[i], |rows[i].positions|, marker);
      reading := ReadKeys(rows[i].positions, rows[i].mods, entries, reading);
    }
    assert lines[..|lines|] == lines && rows[..|rows|] == rows;
  }

  lemma OneMoreLine(lines: seq<string>, rows: seq<ProbeRow>, marker: char, i: nat)
    requires i < |lines| == |rows|
    ensures LinesReading(lines[..i + 1], rows[..i + 1], marker)
         == Both(LinesReading(lines[..i], rows[..i], marker), LineReading(lines[i], rows[i], marker))
  {
    assert lines[..i + 1][..i] == lines[..i] && rows[..i + 1][..i] == rows[..i];
  }

  method AnnotateQuotes(findings: seq<Finding>) returns (annotated: seq<Finding>)
    ensures annotated == Annotated(findings)
  {
    var on := SmartPunctuation(findings);
    annotated := findings;
    for i := 0 to |findings|
      invariant annotated == AnnotateAll(findings[..i], on) + findings[i..]
    {
      var wrongWayRound := if on then IsSmartQuote(findings[i].c) else IsStraightQuote(findings[i].c);
      OneMoreAnnotated(findings, on, i);
      if wrongWayRound {
        annotated := annotated[i := findings[i].(notes := findings[i].notes + [if on then Smart else Straight])];
      }
    }
    assert findings[..|findings|] == findings;
  }

  lemma OneMoreAnnotated(findings: seq<Finding>, on: bool, i: nat)
    requires i < |findings|
    ensures var before := AnnotateAll(findings[..i], on) + findings[i..];
            var after := AnnotateAll(findings[..i + 1], on) + findings[i + 1..];
            var one := AnnotateOne(findings[i], on);
            i < |before| && before[i := one] == after && (one == findings[i] ==> before == after)
  {
    assert findings[..i + 1][..i] == findings[..i];
    OneInTheMiddle(AnnotateAll(findings[..i], on), findings[i..], AnnotateOne(findings[i], on));
  }

  lemma OneInTheMiddle(front: seq<Finding>, rest: seq<Finding>, one: Finding)
    requires rest != []
    ensures (front + rest)[|front| := one] == front + [one] + rest[1..]
    ensures one == rest[0] ==> front + rest == front + [one] + rest[1..]
  {}

  method ParseCapture(text: string) returns (reading: Reading)
    ensures reading == CaptureReading(text)
  {
    var found := CaptureBlock(SplitLines(text));
    if found.None? {
      return NOTHING_READ;
    }
    var expected := Expected(LEVELS, ROWS);
    if |found.value.rows| != |expected| {
      return Reading([], [WrongRowCount(|expected|, |found.value.rows|)]);
    }
    reading := ReadLines(found.value.rows, expected, found.value.marker);
    var findings := AnnotateQuotes(reading.findings);
    reading := Reading(findings, reading.problems);
  }

  /** Every dead key found, as a candidate for the second probe. */
  function DeadKeyCandidates(findings: seq<Finding>): (r: seq<Candidate>)
    ensures forall c :: c in r ==>
      exists f :: f in findings && f.steps == [c.dead] && f.c == c.accent && DeadKey in f.notes
    ensures forall f :: f in findings && |f.steps| == 1 && DeadKey in f.notes ==>
      Candidate(f.steps[0], f.c) in r
  {
    if findings == [] then []
    else
      var front := DeadKeyCandidates(findings[..|findings| - 1]);
      var f := findings[|findings| - 1];
      if |f.steps| == 1 && DeadKey in f.notes then
        assert f.steps == [f.steps[0]];
        front + [Candidate(f.steps[0], f.c)]
      else front
  }

  // -- the accent capture ------------------------------------------------------

  /** The bases one accent was tried with and refused. */
  datatype Declined = Declined(accent: char, bases: seq<Keycode>)

  datatype AccentReading = AccentReading(findings: seq<Finding>, declined: seq<Declined>, problems: seq<Problem>)

  /** One row's compositions, and the bases it refused. */
  datatype PairsRead = PairsRead(findings: seq<Finding>, refused: seq<Keycode>)

  function PairsReading(dead: Step, bases: seq<Step>, entries: seq<Entry>): PairsRead
    requires |bases| == |entries|
    decreases |bases|
  {
    if bases == [] then PairsRead([], [])
    else
      var n := |bases| - 1;
      var front := PairsReading(dead, bases[..n], entries[..n]);
      var output := entries[n].output;
      if output.None? || |output.value| != 1
      then PairsRead(front.findings, front.refused + [bases[n].keycode])
      else PairsRead(front.findings + [Finding([dead, bases[n]], output.value[0], [])], front.refused)
  }

  function AccentLinesReading(lines: seq<string>, candidates: seq<Candidate>, bases: seq<Step>, marker: char):
    AccentReading
    requires |lines| == |candidates|
    decreases |lines|
  {
    if lines == [] then AccentReading([], [], [])
    else
      var n := |lines| - 1;
      var front := AccentLinesReading(lines[..n], candidates[..n], bases, marker);
      var row := PairsReading(candidates[n].dead, bases, Row(lines[n], |bases|, marker));
      AccentReading(
        front.findings + row.findings,
        if row.refused == [] then front.declined
        else front.declined + [Declined(candidates[n].accent, row.refused)],
        [])
  }

  /** A capture of the second probe: one row a candidate, in order. */
  function CompositionsReading(kb: Keyboard, text: string, candidates: seq<Candidate>, bases: seq<Step>):
    AccentReading
  {
    match CaptureBlock(SplitLines(text))
    case None => AccentReading([], [], [])
    case Some(block) =>
      var usable := Usable(kb, candidates);
      if |block.rows| != |usable| then AccentReading([], [], [WrongRowCount(|usable|, |block.rows|)])
      else AccentLinesReading(block.rows, usable, bases, block.marker)
  }

  method ReadPairs(dead: Step, bases: seq<Step>, entries: seq<Entry>) returns (read: PairsRead)
    requires |bases| == |entries|
    ensures read == PairsReading(dead, bases, entries)
  {
    var findings: seq<Finding>, refused: seq<Keycode> := [], [];
    for i := 0 to |bases|
      invariant PairsRead(findings, refused) == PairsReading(dead, bases[..i], entries[..i])
    {
      assert bases[..i + 1][..i] == bases[..i] && entries[..i + 1][..i] == entries[..i];
      var output := entries[i].output;
      if output.None? || |output.value| != 1 {
        refused := refused + [bases[i].keycode];
        continue;
      }
      findings := findings + [Finding([dead, bases[i]], output.value[0], [])];
    }
    assert bases[..|bases|] == bases && entries[..|entries|] == entries;
    read := PairsRead(findings, refused);
  }

  method ParseCompositions(kb: Keyboard, text: string, candidates: seq<Candidate>, bases: seq<Step>)
    returns (reading: AccentReading)
    ensures reading == CompositionsReading(kb, text, candidates, bases)
  {
    var found := CaptureBlock(SplitLines(text));
    if found.None? {
      return AccentReading([], [], []);
    }
    var lines, marker := found.value.rows, found.value.marker;
    var usable := Usable(kb, candidates);
    if |lines| != |usable| {
      return AccentReading([], [], [WrongRowCount(|usable|, |lines|)]);
    }
    reading := ReadAccentLines(lines, usable, bases, marker);
  }

  function WithPairs(soFar: AccentReading, accent: char, row: PairsRead): AccentReading {
    AccentReading(
      soFar.findings + row.findings,
      if row.refused == [] then soFar.declined else soFar.declined + [Declined(accent, row.refused)],
      [])
  }

  lemma OneMoreAccentLine(lines: seq<string>, usable: seq<Candidate>, bases: seq<Step>, marker: char, i: nat)
    requires i < |lines| == |usable|
    ensures AccentLinesReading(lines[..i + 1], usable[..i + 1], bases, marker)
         == WithPairs(AccentLinesReading(lines[..i], usable[..i], bases, marker), usable[i].accent,
                      PairsReading(usable[i].dead, bases, Row(lines[i], |bases|, marker)))
  {
    assert lines[..i + 1][..i] == lines[..i] && usable[..i + 1][..i] == usable[..i];
  }

  method ReadAccentLines(lines: seq<string>, usable: seq<Candidate>, bases: seq<Step>, marker: char)
    returns (reading: AccentReading)
    requires |lines| == |usable|
    ensures reading == AccentLinesReading(lines, usable, bases, marker)
  {
    var findings: seq<Finding>, declined: seq<Declined> := [], [];
    for i := 0 to |lines|
      invariant AccentReading(findings, declined, [])
             == AccentLinesReading(lines[..i], usable[..i], bases, marker)
    {
      OneMoreAccentLine(lines, usable, bases, marker, i);
      var entries := ReadRow(lines[i], |bases|, marker);
      var row := ReadPairs(usable[i].dead, bases, entries);
      findings := findings + row.findings;
      if row.refused != [] {
        declined := declined + [Declined(usable[i].accent, row.refused)];
      }
    }
    assert lines[..|lines|] == lines && usable[..|usable|] == usable;
    reading := AccentReading(findings, declined, []);
  }
}
