/** Packing keystrokes into reports: the fast form a paste uses, the plain form
    a probe uses, and why the fast one says the same thing in the fewest reports. */
module Coalescing {
  import opened Keycodes
  import opened Hid

  // -- the two ways of queueing ------------------------------------------------

  /** Whether the keystroke cannot follow the last queued report directly. */
  predicate NeedsGap(last: Report, s: Stroke) {
    (last.keys != [] && last.keys[0] == s.usage) || last.mods != s.mods
  }

  /** What one typed keystroke adds to the queue: itself, after a gap where it
      needs one.  The gap keeps whatever modifiers the two have in common. */
  function Added(queue: seq<Report>, s: Stroke): seq<Report> {
    if queue != [] && NeedsGap(queue[|queue| - 1], s)
    then [Report(queue[|queue| - 1].mods & s.mods, []), Report(s.mods, [s.usage])]
    else [Report(s.mods, [s.usage])]
  }

  function Push(queue: seq<Report>, s: Stroke): seq<Report> {
    queue + Added(queue, s)
  }

  function PushAll(queue: seq<Report>, strokes: seq<Stroke>): seq<Report>
    decreases strokes
  {
    if strokes == [] then queue else PushAll(Push(queue, strokes[0]), strokes[1..])
  }

  /** Probe keystrokes: every key pressed and let go before the next. */
  function Plain(strokes: seq<Stroke>): seq<Report> {
    if strokes == [] then []
    else [Report(strokes[0].mods, [strokes[0].usage]), NOTHING_DOWN] + Plain(strokes[1..])
  }

  lemma {:induction false} PushAllConcat(queue: seq<Report>, a: seq<Stroke>, b: seq<Stroke>)
    ensures PushAll(queue, a + b) == PushAll(PushAll(queue, a), b)
    decreases a
  {
    if a == [] {
      assert a + b == b;
    } else {
      assert (a + b)[1..] == a[1..] + b;
      PushAllConcat(Push(queue, a[0]), a[1..], b);
    }
  }

  // -- both register exactly the strokes queued --------------------------------

  /** Typed and probed reports name one key at most. */
  predicate OneKeyEach(reports: seq<Report>) {
    forall i :: 0 <= i < |reports| ==> |reports[i].keys| <= 1
  }

  lemma PushOnQueue(from: Report, queue: seq<Report>, s: Stroke)
    requires queue != [] && OneKeyEach(queue)
    ensures Presses(from, Push(queue, s)) == Presses(from, queue) + [s]
  {
    var last := queue[|queue| - 1];
    var press := Report(s.mods, [s.usage]);
    PressesConcat(from, queue, Added(queue, s));
    if NeedsGap(last, s) {
      var gap := Added(queue, s)[0];
      assert Added(queue, s) == [gap] + [press];
      PressesConcat(last, [gap], [press]);
      PressesOne(last, gap);
      PressesOne(gap, press);
      PressedByOne(gap, s.mods, s.usage);
    } else {
      PressesOne(last, press);
      PressedByOne(last, s.mods, s.usage);
    }
  }

  /** The queue alone decides the gap, so a keystroke is seen exactly when
      something is queued before it or the host is not already holding its key. */
  lemma PushRegisters(from: Report, queue: seq<Report>, s: Stroke)
    requires OneKeyEach(queue)
    ensures Presses(from, Push(queue, s)) == Presses(from, queue) + [s]
       <==> queue != [] || s.usage !in from.keys
  {
    if queue != [] {
      PushOnQueue(from, queue, s);
    } else {
      var press := Report(s.mods, [s.usage]);
      assert Push(queue, s) == [press];
      PressesOne(from, press);
      PressedByOne(from, s.mods, s.usage);
    }
  }

  /** The corner that condition excludes: the last press has just left the queue
      and the same key is typed again, so the host sees one long press. */
  lemma RepeatAfterDrainIsLost()
    ensures Presses(Report(0, [4]), Push([], Stroke(0, 4))) == []
  {
    PressesOne(Report(0, [4]), Report(0, [4]));
    PressedByOne(Report(0, [4]), 0, 4);
  }

  lemma HeadThenTail(before: seq<Stroke>, strokes: seq<Stroke>)
    requires strokes != []
    ensures before + [strokes[0]] + strokes[1..] == before + strokes
  {}

  lemma {:induction false} PushAllRegisters(from: Report, queue: seq<Report>, strokes: seq<Stroke>)
    requires OneKeyEach(queue)
    requires queue != [] || strokes == [] || strokes[0].usage !in from.keys
    ensures Presses(from, PushAll(queue, strokes)) == Presses(from, queue) + strokes
    ensures OneKeyEach(PushAll(queue, strokes))
    decreases strokes
  {
    if strokes != [] {
      var s := strokes[0];
      PushRegisters(from, queue, s);
      PushAllRegisters(from, Push(queue, s), strokes[1..]);
      HeadThenTail(Presses(from, queue), strokes);
    }
  }

  /** Of a run of keystrokes only the first can be lost, and exactly when nothing is
      queued and the host still holds its key. */
  lemma PushAllExactly(from: Report, queue: seq<Report>, strokes: seq<Stroke>)
    requires OneKeyEach(queue)
    ensures Presses(from, PushAll(queue, strokes)) ==
      Presses(from, queue)
      + if queue == [] && strokes != [] && strokes[0].usage in from.keys then strokes[1..] else strokes
    ensures OneKeyEach(PushAll(queue, strokes))
  {
    if queue == [] && strokes != [] && strokes[0].usage in from.keys {
      var press := Report(strokes[0].mods, [strokes[0].usage]);
      assert Push([], strokes[0]) == [press];
      PressesOne(from, press);
      PressedByOne(from, press.mods, strokes[0].usage);
      PushAllRegisters(from, [press], strokes[1..]);
    } else {
      PushAllRegisters(from, queue, strokes);
    }
  }

  lemma {:induction false} PlainRegisters(from: Report, strokes: seq<Stroke>)
    requires strokes == [] || strokes[0].usage !in from.keys
    ensures Presses(from, Plain(strokes)) == strokes
    decreases strokes
  {
    if strokes != [] {
      var s := strokes[0];
      PressesConcat(from, [Report(s.mods, [s.usage]), NOTHING_DOWN], Plain(strokes[1..]));
      PlainRegisters(NOTHING_DOWN, strokes[1..]);
      PressAndRelease(from, s);
    }
  }

  lemma PressAndRelease(from: Report, s: Stroke)
    requires s.usage !in from.keys
    ensures Presses(from, [Report(s.mods, [s.usage]), NOTHING_DOWN]) == [s]
  {
    var press := Report(s.mods, [s.usage]);
    assert [press, NOTHING_DOWN] == [press] + [NOTHING_DOWN];
    PressesConcat(from, [press], [NOTHING_DOWN]);
    PressesOne(from, press);
    PressedByOne(from, s.mods, s.usage);
    PressesOne(press, NOTHING_DOWN);
  }

  /** A paste into an idle queue and the same keys pressed one by one are the
      same thing to the host. */
  lemma CoalescingPreservesMeaning(from: Report, strokes: seq<Stroke>)
    requires from.keys == []
    ensures Presses(from, PushAll([], strokes)) == Presses(from, Plain(strokes)) == strokes
  {
    PushAllRegisters(from, [], strokes);
    PlainRegisters(from, strokes);
    assert Presses(from, []) + strokes == strokes;
  }

  // -- a press never lifts a modifier -----------------------------------------

  /** No report both presses a key and lets go of a modifier. */
  ghost predicate PressesLiftNothing(from: Report, reports: seq<Report>)
    decreases reports
  {
    reports == []
    || (&& (PressedBy(from, reports[0]) != [] ==> from.mods & reports[0].mods == from.mods)
        && PressesLiftNothing(reports[0], reports[1..]))
  }

  lemma {:induction false} LiftNothingConcat(from: Report, a: seq<Report>, b: seq<Report>)
    requires PressesLiftNothing(from, a) && PressesLiftNothing(After(from, a), b)
    ensures PressesLiftNothing(from, a + b)
    decreases a
  {
    if a == [] {
      assert a + b == b;
    } else {
      assert (a + b)[1..] == a[1..] + b;
      assert After(from, a) == After(a[0], a[1..]);
      LiftNothingConcat(a[0], a[1..], b);
    }
  }

  lemma PressAlone(last: Report, press: Report)
    requires last.mods & press.mods == last.mods
    ensures PressesLiftNothing(last, [press])
  {
    assert PressesLiftNothing(press, [press][1..]);
  }

  lemma GapThenPress(last: Report, mods: Modifiers, press: Report)
    requires mods & press.mods == mods
    ensures PressesLiftNothing(last, [Report(mods, []), press])
  {
    var gap := Report(mods, []);
    PressAlone(gap, press);
    assert [gap, press][1..] == [press];
    assert PressedBy(last, gap) == [];
  }

  lemma GapLiftsNothing(last: Report, s: Stroke)
    ensures PressesLiftNothing(last, [Report(last.mods & s.mods, []), Report(s.mods, [s.usage])])
  {
    var common := last.mods & s.mods;
    assert common & s.mods == common;
    GapThenPress(last, common, Report(s.mods, [s.usage]));
  }

  lemma AddedLiftsNothing(last: Report, queue: seq<Report>, s: Stroke)
    requires queue != [] ==> last == queue[|queue| - 1]
    requires queue == [] ==> last.mods & s.mods == last.mods
    ensures PressesLiftNothing(last, Added(queue, s))
  {
    if queue != [] && NeedsGap(last, s) {
      GapLiftsNothing(last, s);
    } else {
      PressAlone(last, Report(s.mods, [s.usage]));
    }
  }

  lemma {:induction false} PastesLiftNothing(from: Report, queue: seq<Report>, strokes: seq<Stroke>)
    requires PressesLiftNothing(from, queue)
    requires queue == [] && strokes != [] ==> from.mods & strokes[0].mods == from.mods
    ensures PressesLiftNothing(from, PushAll(queue, strokes))
    decreases strokes
  {
    if strokes != [] {
      AddedLiftsNothing(After(from, queue), queue, strokes[0]);
      LiftNothingConcat(from, queue, Added(queue, strokes[0]));
      PastesLiftNothing(from, Push(queue, strokes[0]), strokes[1..]);
    }
  }

  // -- and it costs as little as it can ---------------------------------------

  /** Two keystrokes that cannot share the edge between two reports. */
  predicate MustPart(a: Stroke, b: Stroke) {
    a.usage == b.usage || a.mods != b.mods
  }

  function Partings(strokes: seq<Stroke>): nat {
    if |strokes| < 2 then 0
    else (if MustPart(strokes[0], strokes[1]) then 1 else 0) + Partings(strokes[1..])
  }

  lemma {:induction false} PushAllLength(queue: seq<Report>, strokes: seq<Stroke>)
    ensures |PushAll(queue, strokes)| ==
      |queue| + |strokes| + Partings(strokes)
      + (if queue != [] && strokes != [] && NeedsGap(queue[|queue| - 1], strokes[0]) then 1 else 0)
    decreases strokes
  {
    if strokes != [] {
      PushAllLength(Push(queue, strokes[0]), strokes[1..]);
    }
  }

  /** From one report straight to the next, a host that saw the key change could
      not be sure which modifiers it was pressed with. */
  predicate SwapsUnderModifiers(a: Report, b: Report) {
    a.mods != b.mods && a.keys != [] && b.keys != [] && a.keys != b.keys
  }

  /** Any way at all of sending the keystrokes without that ambiguity. */
  ghost predicate Unambiguous(from: Report, reports: seq<Report>)
    decreases reports
  {
    reports == []
    || (&& |reports[0].keys| <= 1
        && !SwapsUnderModifiers(from, reports[0])
        && Unambiguous(reports[0], reports[1..]))
  }

  lemma {:induction false} NoShorterWay(from: Report, reports: seq<Report>)
    requires |from.keys| <= 1 && Unambiguous(from, reports)
    ensures var strokes := Presses(from, reports);
            && |reports| >= |strokes| + Partings(strokes)
            && (strokes != [] && from.keys != [] && MustPart(Stroke(from.mods, from.keys[0]), strokes[0])
                ==> |reports| >= |strokes| + Partings(strokes) + 1)
    decreases reports
  {
    if reports != [] {
      var now := reports[0];
      NoShorterWay(now, reports[1..]);
      if now.keys != [] {
        assert now == Report(now.mods, [now.keys[0]]);
        PressedByOne(from, now.mods, now.keys[0]);
        var rest := Presses(now, reports[1..]);
        if now.keys[0] in from.keys {
          assert Presses(from, reports) == rest;
        } else {
          var strokes := [Stroke(now.mods, now.keys[0])] + rest;
          assert Presses(from, reports) == strokes;
          assert strokes[1..] == rest;
        }
      } else {
        assert Presses(from, reports) == Presses(now, reports[1..]);
      }
    }
  }

  lemma {:induction false} UnambiguousConcat(from: Report, a: seq<Report>, b: seq<Report>)
    requires Unambiguous(from, a) && Unambiguous(After(from, a), b)
    ensures Unambiguous(from, a + b)
    decreases a
  {
    if a == [] {
      assert a + b == b;
    } else {
      assert (a + b)[1..] == a[1..] + b;
      assert After(from, a) == After(a[0], a[1..]);
      UnambiguousConcat(a[0], a[1..], b);
    }
  }

  lemma AddedIsUnambiguous(last: Report, queue: seq<Report>, s: Stroke)
    requires queue != [] ==> last == queue[|queue| - 1]
    requires queue == [] ==> last.keys == []
    ensures Unambiguous(last, Added(queue, s))
  {
    var press := Report(s.mods, [s.usage]);
    if queue != [] && NeedsGap(last, s) {
      var gap := Added(queue, s)[0];
      assert Unambiguous(gap, [press]);
      assert [gap, press][1..] == [press];
    }
  }

  lemma {:induction false} PastesAreUnambiguous(from: Report, queue: seq<Report>, strokes: seq<Stroke>)
    requires Unambiguous(from, queue)
    requires queue == [] ==> from.keys == []
    ensures Unambiguous(from, PushAll(queue, strokes))
    decreases strokes
  {
    if strokes != [] {
      AddedIsUnambiguous(After(from, queue), queue, strokes[0]);
      UnambiguousConcat(from, queue, Added(queue, strokes[0]));
      PastesAreUnambiguous(from, Push(queue, strokes[0]), strokes[1..]);
    }
  }

  /** Of every unambiguous way of saying these keystrokes to an idle host, the
      coalesced one is itself unambiguous and none is shorter. */
  lemma {:induction false} CoalescingIsOptimal(strokes: seq<Stroke>, other: seq<Report>)
    requires Unambiguous(NOTHING_DOWN, other) && Presses(NOTHING_DOWN, other) == strokes
    ensures |PushAll([], strokes)| == |strokes| + Partings(strokes) <= |other|
    ensures Unambiguous(NOTHING_DOWN, PushAll([], strokes))
    ensures PressesLiftNothing(NOTHING_DOWN, PushAll([], strokes))
  {
    PushAllLength([], strokes);
    NoShorterWay(NOTHING_DOWN, other);
    PastesAreUnambiguous(NOTHING_DOWN, [], strokes);
    PastesLiftNothing(NOTHING_DOWN, [], strokes);
  }
}
