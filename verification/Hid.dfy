/** The wire between the keyboard and its host: whole-state reports, and the host's
    edge detector that turns a stream of them back into key presses.  A report names
    everything that is down at once, so what a host makes of one depends on the one
    before: a usage that was not there is a press, and one that has gone is a release,
    which matters to nobody here but for letting the same key be pressed again. */
module Hid {
  import opened Keycodes

  /** A keyboard report names everything that is down at once. */
  datatype Report = Report(mods: Modifiers, keys: seq<Usage>)

  /** One press as a host registers it. */
  datatype Stroke = Stroke(mods: Modifiers, usage: Usage)

  const NOTHING_DOWN: Report := Report(0, [])

  /** The usages of `keys` that were not already down in `before`. */
  function NewKeys(before: seq<Usage>, keys: seq<Usage>): seq<Usage> {
    if keys == [] then []
    else (if keys[0] in before then [] else [keys[0]]) + NewKeys(before, keys[1..])
  }

  function Strokes(mods: Modifiers, usages: seq<Usage>): (r: seq<Stroke>)
    ensures |r| == |usages|
  {
    if usages == [] then [] else [Stroke(mods, usages[0])] + Strokes(mods, usages[1..])
  }

  /** A usage in this report and not in the previous one is a press, taken with
      this report's modifiers. */
  function PressedBy(before: Report, now: Report): seq<Stroke> {
    Strokes(now.mods, NewKeys(before.keys, now.keys))
  }

  /** What a host that last saw `from` registers as the reports arrive. */
  function Presses(from: Report, reports: seq<Report>): seq<Stroke>
    decreases reports
  {
    if reports == [] then []
    else PressedBy(from, reports[0]) + Presses(reports[0], reports[1..])
  }

  /** What the host last saw, once the reports have arrived. */
  function After(from: Report, reports: seq<Report>): Report {
    if reports == [] then from else reports[|reports| - 1]
  }

  lemma {:induction false} PressesConcat(from: Report, a: seq<Report>, b: seq<Report>)
    ensures Presses(from, a + b) == Presses(from, a) + Presses(After(from, a), b)
    decreases a
  {
    if a == [] {
      assert a + b == b;
    } else {
      assert (a + b)[1..] == a[1..] + b;
      PressesConcat(a[0], a[1..], b);
      assert After(from, a) == After(a[0], a[1..]);
    }
  }

  lemma PressedByOne(before: Report, mods: Modifiers, usage: Usage)
    ensures PressedBy(before, Report(mods, [usage]))
         == if usage in before.keys then [] else [Stroke(mods, usage)]
  {
    var keys := [usage];
    assert keys[1..] == [];
    assert NewKeys(before.keys, keys) == if usage in before.keys then [] else [usage];
    assert [usage][1..] == [];
  }

  lemma PressesOne(before: Report, now: Report)
    ensures Presses(before, [now]) == PressedBy(before, now)
  {
    assert [now][1..] == [];
    assert PressedBy(before, now) + [] == PressedBy(before, now);
  }
}
