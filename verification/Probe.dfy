/** Measuring a phone's layout: the keys the two probes press, and reading the
    phone's answers back. */
module Probe {
  import opened Keycodes
  import opened Hid
  import opened Seqs

  // -- what is probed ----------------------------------------------------------

  /** One keystroke of an entry: a key position and the modifiers held with it. */
  datatype Step = Step(keycode: Keycode, mods: Modifiers)

  /** A row of keys, pressed with the same modifiers. */
  datatype ProbeRow = ProbeRow(positions: seq<Keycode>, mods: Modifiers)

  const ROWS: seq<seq<Keycode>> := [
    [2, 3, 4, 5, 6, 7, 8, 9, 10, 11, 12, 13],
    [16, 17, 18, 19, 20, 21, 22, 23, 24, 25, 26, 27],
    [30, 31, 32, 33, 34, 35, 36, 37, 38, 39, 40, 41],
    [43, 44, 45, 46, 47, 48, 49, 50, 51, 52, 53, 86]
  ]

  const LEVELS: seq<Modifiers> := [0, MOD_LEFTSHIFT, MOD_RIGHTALT, MOD_RIGHTALT | MOD_LEFTSHIFT]

  const SENTINEL_POSITION: Keycode := 2
  const SENTINEL_LENGTH: nat := 8

  /** Space first, then a e i o u y n c, plain and shifted. */
  const BASES: seq<Step> := [
    Step(57, 0),
    Step(30, 0), Step(18, 0), Step(23, 0), Step(24, 0), Step(22, 0), Step(21, 0), Step(49, 0), Step(46, 0),
    Step(30, MOD_LEFTSHIFT), Step(18, MOD_LEFTSHIFT), Step(23, MOD_LEFTSHIFT), Step(24, MOD_LEFTSHIFT),
    Step(22, MOD_LEFTSHIFT), Step(21, MOD_LEFTSHIFT), Step(49, MOD_LEFTSHIFT), Step(46, MOD_LEFTSHIFT)
  ]

  function RowsAt(mods: Modifiers, rows: seq<seq<Keycode>>): (r: seq<ProbeRow>)
    ensures |r| == |rows|
    ensures forall i :: 0 <= i < |r| ==> r[i] == ProbeRow(rows[i], mods)
  {
    if rows == [] then []
    else RowsAt(mods, rows[..|rows| - 1]) + [ProbeRow(rows[|rows| - 1], mods)]
  }

  /** Every row of a probe, in the order it visits them: all of one level, then
      all of the next. */
  function Expected(levels: seq<Modifiers>, rows: seq<seq<Keycode>>): (r: seq<ProbeRow>)
    ensures |r| == |levels| * |rows|
    ensures forall i :: 0 <= i < |r| ==> r[i].positions in rows && r[i].mods in levels
  {
    if levels == [] then []
    else Expected(levels[..|levels| - 1], rows) + RowsAt(levels[|levels| - 1], rows)
  }

  // -- the keys pressed --------------------------------------------------------

  /** The keyboard table names every key the probes press. */
  ghost predicate Equipped(kb: Keyboard) {
    && SENTINEL_POSITION in kb && KEY_ENTER in kb
    && KEY_SPACE in kb && kb[KEY_SPACE] == 0x2C
    && (forall i, j :: 0 <= i < |ROWS| && 0 <= j < |ROWS[i]| ==> ROWS[i][j] in kb)
    && (forall i :: 0 <= i < |BASES| ==> BASES[i].keycode in kb)
  }

  lemma KeyboardIsEquipped()
    ensures Equipped(KEYBOARD)
  {
    forall i, j | 0 <= i < |ROWS| && 0 <= j < |ROWS[i]| ensures ROWS[i][j] in KEYBOARD {
      assert forall k: Keycode :: 2 <= k <= 13 ==> k in KEYBOARD;
      assert forall k: Keycode :: 16 <= k <= 27 ==> k in KEYBOARD;
      assert forall k: Keycode :: 30 <= k <= 41 ==> k in KEYBOARD;
      assert forall k: Keycode :: 43 <= k <= 53 ==> k in KEYBOARD;
    }
  }

  function Press(kb: Keyboard, step: Step): Stroke {
    Stroke(step.mods, if step.keycode in kb then kb[step.keycode] else 0)
  }

  function SpacePress(kb: Keyboard): Stroke { Press(kb, Step(KEY_SPACE, 0)) }

  function Mark(kb: Keyboard): Stroke { Press(kb, Step(SENTINEL_POSITION, 0)) }

  /** The line's end: Enter with Shift, so that no program takes it as send. */
  function Terminator(kb: Keyboard): Stroke { Press(kb, Step(KEY_ENTER, MOD_LEFTSHIFT)) }

  function SentinelStrokes(kb: Keyboard): seq<Stroke> {
    Repeated(Mark(kb), SENTINEL_LENGTH) + [Terminator(kb)]
  }

  /** A key's field: itself, a space in case it is dead, and the marker twice. */
  function FieldStrokes(kb: Keyboard, step: Step): seq<Stroke> {
    [Press(kb, step), SpacePress(kb), Mark(kb), Mark(kb)]
  }

  function KeysStrokes(kb: Keyboard, positions: seq<Keycode>, mods: Modifiers): seq<Stroke>
    decreases positions
  {
    if positions == [] then []
    else
      KeysStrokes(kb, positions[..|positions| - 1], mods)
      + FieldStrokes(kb, Step(positions[|positions| - 1], mods))
  }

  function RowStrokes(kb: Keyboard, row: ProbeRow): seq<Stroke> {
    KeysStrokes(kb, row.positions, row.mods) + [Terminator(kb)]
  }

  function RowsStrokes(kb: Keyboard, rows: seq<ProbeRow>): seq<Stroke>
    decreases rows
  {
    if rows == [] then []
    else RowsStrokes(kb, rows[..|rows| - 1]) + RowStrokes(kb, rows[|rows| - 1])
  }

  /** The layout probe as keystrokes: a row a line, between two marker lines. */
  function ProbeStrokes(kb: Keyboard): seq<Stroke> {
    SentinelStrokes(kb) + RowsStrokes(kb, Expected(LEVELS, ROWS)) + SentinelStrokes(kb)
  }

  lemma RowsStrokesSnoc(kb: Keyboard, rows: seq<ProbeRow>, row: ProbeRow)
    ensures RowsStrokes(kb, rows + [row]) == RowsStrokes(kb, rows) + RowStrokes(kb, row)
  {
    assert (rows + [row])[..|rows|] == rows;
  }

  lemma {:induction false} RowsStrokesConcat(kb: Keyboard, a: seq<ProbeRow>, b: seq<ProbeRow>)
    ensures RowsStrokes(kb, a + b) == RowsStrokes(kb, a) + RowsStrokes(kb, b)
    decreases b
  {
    if b == [] {
      assert a + b == a;
    } else {
      var front := b[..|b| - 1];
      assert (a + b)[..|a + b| - 1] == a + front;
      RowsStrokesConcat(kb, a, front);
    }
  }

  method TypeRow(kb: Keyboard, positions: seq<Keycode>, mods: Modifiers) returns (strokes: seq<Stroke>)
    ensures strokes == RowStrokes(kb, ProbeRow(positions, mods))
  {
    strokes := [];
    for i := 0 to |positions|
      invariant strokes == KeysStrokes(kb, positions[..i], mods)
    {
      assert positions[..i + 1][..i] == positions[..i];
      strokes := strokes + FieldStrokes(kb, Step(positions[i], mods));
    }
    assert positions[..|positions|] == positions;
    strokes := strokes + [Terminator(kb)];
  }

  method TypeLevel(kb: Keyboard, mods: Modifiers, rows: seq<seq<Keycode>>) returns (strokes: seq<Stroke>)
    ensures strokes == RowsStrokes(kb, RowsAt(mods, rows))
  {
    strokes := [];
    for j := 0 to |rows|
      invariant strokes == RowsStrokes(kb, RowsAt(mods, rows[..j]))
    {
      var row := TypeRow(kb, rows[j], mods);
      assert rows[..j + 1][..j] == rows[..j];
      RowsStrokesSnoc(kb, RowsAt(mods, rows[..j]), ProbeRow(rows[j], mods));
      strokes := strokes + row;
    }
    assert rows[..|rows|] == rows;
  }

  method TypeLevels(kb: Keyboard, levels: seq<Modifiers>, rows: seq<seq<Keycode>>)
    returns (strokes: seq<Stroke>)
    ensures strokes == RowsStrokes(kb, Expected(levels, rows))
  {
    strokes := [];
    for i := 0 to |levels|
      invariant strokes == RowsStrokes(kb, Expected(levels[..i], rows))
    {
      var level := TypeLevel(kb, levels[i], rows);
      assert levels[..i + 1][..i] == levels[..i];
      RowsStrokesConcat(kb, Expected(levels[..i], rows), RowsAt(levels[i], rows));
      strokes := strokes + level;
    }
    assert levels[..|levels|] == levels;
  }

  /** Every row at every level, between sentinels. */
  method CaptureStrokes(kb: Keyboard) returns (strokes: seq<Stroke>)
    requires Equipped(kb)
    ensures strokes == ProbeStrokes(kb)
  {
    var rows := TypeLevels(kb, LEVELS, ROWS);
    strokes := SentinelStrokes(kb) + rows + SentinelStrokes(kb);
  }

  /** A dead key to try, and the accent it was seen to produce. */
  datatype Candidate = Candidate(dead: Step, accent: char)

  /** A pair's field: the dead key and the base, a space, and the marker twice. */
  function PairStrokes(kb: Keyboard, dead: Step, base: Step): seq<Stroke> {
    [Press(kb, dead), Press(kb, base), SpacePress(kb), Mark(kb), Mark(kb)]
  }

  function PairsStrokes(kb: Keyboard, dead: Step, bases: seq<Step>): seq<Stroke>
    decreases bases
  {
    if bases == [] then []
    else
      var base := bases[|bases| - 1];
      PairsStrokes(kb, dead, bases[..|bases| - 1])
      + if base.keycode in kb then PairStrokes(kb, dead, base) else []
  }

  /** The candidates that name a key a report can carry. */
  function Usable(kb: Keyboard, candidates: seq<Candidate>): (r: seq<Candidate>)
    ensures forall i :: 0 <= i < |r| ==> r[i].dead.keycode in kb && r[i] in candidates
    decreases candidates
  {
    if candidates == [] then []
    else
      var last := candidates[|candidates| - 1];
      var front := Usable(kb, candidates[..|candidates| - 1]);
      if last.dead.keycode in kb then front + [last] else front
  }

  lemma {:induction false} UsableKeepsKnown(kb: Keyboard, candidates: seq<Candidate>, c: Candidate)
    requires c in candidates && c.dead.keycode in kb
    ensures c in Usable(kb, candidates)
    decreases candidates
  {
    if c != candidates[|candidates| - 1] {
      UsableKeepsKnown(kb, candidates[..|candidates| - 1], c);
    }
  }

  lemma UsableSnoc(kb: Keyboard, candidates: seq<Candidate>, c: Candidate)
    ensures Usable(kb, candidates + [c])
         == if c.dead.keycode in kb then Usable(kb, candidates) + [c] else Usable(kb, candidates)
  {
    assert (candidates + [c])[..|candidates|] == candidates;
  }

  function AccentStrokes(kb: Keyboard, candidates: seq<Candidate>, bases: seq<Step>): seq<Stroke>
    decreases candidates
  {
    if candidates == [] then []
    else
      AccentStrokes(kb, candidates[..|candidates| - 1], bases)
      + (PairsStrokes(kb, candidates[|candidates| - 1].dead, bases) + [Terminator(kb)])
  }

  /** The accent probe as keystrokes. */
  function AccentProbeStrokes(kb: Keyboard, candidates: seq<Candidate>, bases: seq<Step>): seq<Stroke> {
    SentinelStrokes(kb) + AccentStrokes(kb, Usable(kb, candidates), bases) + SentinelStrokes(kb)
  }

  lemma AccentStrokesSnoc(kb: Keyboard, candidates: seq<Candidate>, c: Candidate, bases: seq<Step>)
    ensures AccentStrokes(kb, candidates + [c], bases)
         == AccentStrokes(kb, candidates, bases) + (PairsStrokes(kb, c.dead, bases) + [Terminator(kb)])
  {
    assert (candidates + [c])[..|candidates|] == candidates;
  }

  /** The accent probe, a line for each candidate. */
  method ComposeStrokes(kb: Keyboard, candidates: seq<Candidate>, bases: seq<Step>)
    returns (strokes: seq<Stroke>)
    requires Equipped(kb)
    ensures strokes == AccentProbeStrokes(kb, candidates, bases)
  {
    strokes := SentinelStrokes(kb);
    for i := 0 to |candidates|
      invariant strokes == SentinelStrokes(kb) + AccentStrokes(kb, Usable(kb, candidates[..i]), bases)
    {
      UsableSnoc(kb, candidates[..i], candidates[i]);
      assert candidates[..i + 1] == candidates[..i] + [candidates[i]];
      if candidates[i].dead.keycode in kb {
        AccentStrokesSnoc(kb, Usable(kb, candidates[..i]), candidates[i], bases);
        var row := TypePairs(kb, candidates[i].dead, bases);
        Regroup(SentinelStrokes(kb), AccentStrokes(kb, Usable(kb, candidates[..i]), bases), row + [Terminator(kb)]);
        strokes := strokes + (row + [Terminator(kb)]);
      }
    }
    assert candidates[..|candidates|] == candidates;
    strokes := strokes + SentinelStrokes(kb);
  }

  method TypePairs(kb: Keyboard, dead: Step, bases: seq<Step>) returns (strokes: seq<Stroke>)
    ensures strokes == PairsStrokes(kb, dead, bases)
  {
    strokes := [];
    for j := 0 to |bases|
      invariant strokes == PairsStrokes(kb, dead, bases[..j])
    {
      assert bases[..j + 1][..j] == bases[..j];
      if bases[j].keycode in kb {
        strokes := strokes + PairStrokes(kb, dead, bases[j]);
      }
    }
    assert bases[..|bases|] == bases;
  }
}
