/** What holds between any two events, however the world and the program interleave:
    nothing is owed that is not written down, and nothing written down is not owed.
    Each operation is shown to keep it for one keyboard of the set, and then over the
    whole set, the keyboards handled so far beside the ones still to come. */
module LedgerInvariant {
  import opened Wrappers
  import opened Ledger

  // -- the invariant -----------------------------------------------------------

  /** A keyboard is held exactly while its LEDs are saved; repeat is owed only on
      one that is held, and so open. */
  ghost predicate Sound(d: Device) {
    && (d.grabbed <==> d.savedLeds.Some?)
    && (d.grabbed ==> d.fd.Some? && d.wasHeld)
    && (d.savedRepeat.Some? ==> d.grabbed)
  }

  /** A descriptor that answers is its path's own device, and what is saved of it is
      what it had. */
  ghost predicate Attached(d: Device, k: Kernel) {
    && (d.fd.Some? ==> d.fd.value < k.next)
    && (Live(d, k) ==> d.path in k.at && k.at[d.path] == d.fd.value)
    && (Live(d, k) && d.savedRepeat.Some? ==>
          d.hasRepeat && k.nodes[d.fd.value].original == d.savedRepeat)
    && (Live(d, k) && d.savedLeds.Some? ==> k.nodes[d.fd.value].lights == d.savedLeds.value)
  }

  ghost predicate Hushes(d: Device, id: Id) {
    d.fd == Some(id) && d.savedRepeat.Some?
  }

  ghost predicate HushedByUs(devices: seq<Device>, id: Id) {
    exists i :: 0 <= i < |devices| && Hushes(devices[i], id)
  }

  ghost predicate Lights(d: Device, id: Id) {
    d.fd == Some(id) && d.savedLeds.Some?
  }

  ghost predicate LitByUs(devices: seq<Device>, id: Id) {
    exists i :: 0 <= i < |devices| && Lights(devices[i], id)
  }

  /** A keyboard owes this much at this path. */
  ghost predicate Owes(devices: seq<Device>, path: Path, repeat: Repeat) {
    exists i :: 0 <= i < |devices| && devices[i].path == path && devices[i].savedRepeat == Some(repeat)
  }

  ghost predicate Distinct(devices: seq<Device>) {
    forall i, j :: 0 <= i < j < |devices| ==> devices[i].path != devices[j].path
  }

  /** The guardian, once it has read all it was sent, knows the debts and no others. */
  ghost predicate Recorded(devices: seq<Device>, owed: map<Path, Repeat>) {
    && (forall path :: path in owed ==> Owes(devices, path, owed[path]))
    && (forall i :: 0 <= i < |devices| && devices[i].savedRepeat.Some? ==>
          devices[i].path in owed && owed[devices[i].path] == devices[i].savedRepeat.value)
  }

  /** Every device present repeats as it should, unless we hold it hushed. */
  ghost predicate Faithful(devices: seq<Device>, k: Kernel) {
    forall id :: id in k.nodes ==> k.nodes[id].repeat == k.nodes[id].original || HushedByUs(devices, id)
  }

  /** And shows the console's lights, unless we hold it. */
  ghost predicate Candid(devices: seq<Device>, k: Kernel) {
    forall id :: id in k.nodes ==> k.nodes[id].leds == k.nodes[id].lights || LitByUs(devices, id)
  }

  ghost predicate Inv(ks: Keyboards) {
    && Consistent(ks.outside.kernel)
    && Distinct(ks.devices)
    && (forall i :: 0 <= i < |ks.devices| ==> Sound(ks.devices[i]) && Attached(ks.devices[i], ks.outside.kernel))
    && Recorded(ks.devices, Owed(ks.outside.pipe))
    && Faithful(ks.devices, ks.outside.kernel)
    && Candid(ks.devices, ks.outside.kernel)
  }

  // -- one keyboard changes ----------------------------------------------------

  /** What handling one keyboard may do to the machine: nothing but set the repeat
      and the LEDs of that keyboard's own device. */
  ghost predicate OnlyTouches(d: Device, k: Kernel, k': Kernel) {
    && k'.at == k.at && k'.next == k.next && k'.nodes.Keys == k.nodes.Keys
    && (forall id :: id in k.nodes ==>
          && k'.nodes[id].original == k.nodes[id].original && k'.nodes[id].lights == k.nodes[id].lights
          && (k'.nodes[id].repeat.Some? <==> k.nodes[id].repeat.Some?)
          && k'.nodes[id].elsewhere == k.nodes[id].elsewhere && k'.nodes[id].down == k.nodes[id].down
          && (Some(id) == d.fd || k'.nodes[id] == k.nodes[id]))
  }

  /** The same keyboard, differently held, with what it owes written down and its
      device either as it should be or hushed by it. */
  ghost predicate Handled(d: Device, o: Outside, d': Device, o': Outside) {
    && OnlyTouches(d, o.kernel, o'.kernel)
    && d'.path == d.path && Sound(d') && Attached(d', o'.kernel)
    && (Live(d, o.kernel) ==>
          var id := d.fd.value;
          && (Hushes(d', id) || o'.kernel.nodes[id].repeat == o'.kernel.nodes[id].original)
          && (Lights(d', id) || o'.kernel.nodes[id].leds == o'.kernel.nodes[id].lights))
    && Owed(o'.pipe) == if d'.savedRepeat.Some? then Owed(o.pipe)[d.path := d'.savedRepeat.value]
                        else Owed(o.pipe) - {d.path}
  }

  lemma StaysConsistent(d: Device, k: Kernel, k': Kernel)
    requires Consistent(k) && OnlyTouches(d, k, k')
    ensures Consistent(k')
  {}

  lemma StaysAttached(d: Device, other: Device, k: Kernel, k': Kernel)
    requires OnlyTouches(d, k, k') && Attached(other, k)
    ensures Attached(other, k')
  {}

  /** One keyboard handled leaves everything in order. */
  lemma Replaced(ks: Keyboards, i: nat, d': Device, o': Outside)
    requires Inv(ks) && i < |ks.devices| && Handled(ks.devices[i], ks.outside, d', o')
    ensures Inv(Keyboards(ks.devices[i := d'], o'))
  {
    var d, after := ks.devices[i], ks.devices[i := d'];
    StaysConsistent(d, ks.outside.kernel, o'.kernel);
    forall j | 0 <= j < |after| ensures Sound(after[j]) && Attached(after[j], o'.kernel) {
      if j != i {
        StaysAttached(d, ks.devices[j], ks.outside.kernel, o'.kernel);
      }
    }
    RecordedAfter(ks.devices, Owed(ks.outside.pipe), i, d');
    FaithfulAfter(ks, i, d', o');
    CandidAfter(ks, i, d', o');
  }

  lemma RecordedAfter(devices: seq<Device>, owed: map<Path, Repeat>, i: nat, d': Device)
    requires i < |devices| && Distinct(devices) && Recorded(devices, owed) && d'.path == devices[i].path
    ensures Recorded(devices[i := d'],
              if d'.savedRepeat.Some? then owed[d'.path := d'.savedRepeat.value] else owed - {d'.path})
  {
    var after := devices[i := d'];
    var owed' := if d'.savedRepeat.Some? then owed[d'.path := d'.savedRepeat.value] else owed - {d'.path};
    forall path | path in owed' ensures Owes(after, path, owed'[path]) {
      if path == d'.path {
        assert after[i] == d';
      } else {
        var j :| 0 <= j < |devices| && devices[j].path == path && devices[j].savedRepeat == Some(owed[path]);
        assert after[j] == devices[j];
      }
    }
    forall j | 0 <= j < |after| && after[j].savedRepeat.Some?
      ensures after[j].path in owed' && owed'[after[j].path] == after[j].savedRepeat.value
    {
      if j != i {
        assert after[j] == devices[j] && after[j].path != d'.path;
      }
    }
  }

  lemma FaithfulAfter(ks: Keyboards, i: nat, d': Device, o': Outside)
    requires Inv(ks) && i < |ks.devices| && Handled(ks.devices[i], ks.outside, d', o')
    ensures Faithful(ks.devices[i := d'], o'.kernel)
  {
    var d, after := ks.devices[i], ks.devices[i := d'];
    var k, k' := ks.outside.kernel, o'.kernel;
    forall id | id in k'.nodes ensures k'.nodes[id].repeat == k'.nodes[id].original || HushedByUs(after, id) {
      assert id in k.nodes;
      if d.fd == Some(id) {
        assert after[i] == d';
      } else if k.nodes[id].repeat != k.nodes[id].original {
        var j :| 0 <= j < |ks.devices| && Hushes(ks.devices[j], id);
        assert after[j] == ks.devices[j];
      }
    }
  }

  lemma CandidAfter(ks: Keyboards, i: nat, d': Device, o': Outside)
    requires Inv(ks) && i < |ks.devices| && Handled(ks.devices[i], ks.outside, d', o')
    ensures Candid(ks.devices[i := d'], o'.kernel)
  {
    var d, after := ks.devices[i], ks.devices[i := d'];
    var k, k' := ks.outside.kernel, o'.kernel;
    forall id | id in k'.nodes ensures k'.nodes[id].leds == k'.nodes[id].lights || LitByUs(after, id) {
      assert id in k.nodes;
      if d.fd == Some(id) {
        assert after[i] == d';
      } else if k.nodes[id].leds != k.nodes[id].lights {
        var j :| 0 <= j < |ks.devices| && Lights(ks.devices[j], id);
        assert after[j] == ks.devices[j];
      }
    }
  }

  // -- the operations ----------------------------------------------------------

  lemma WithLedsTouches(d: Device, k: Kernel, leds: nat)
    ensures var k' := WithLeds(d, k, leds);
            && OnlyTouches(d, k, k')
            && (forall id :: id in k.nodes ==> k'.nodes[id].repeat == k.nodes[id].repeat)
            && (Live(d, k) ==> k'.nodes[d.fd.value].leds == leds)
  {}

  lemma WithRepeatTouches(d: Device, k: Kernel, repeat: Repeat)
    ensures var k' := WithRepeat(d, k, repeat);
            && OnlyTouches(d, k, k')
            && (forall id :: id in k.nodes ==> k'.nodes[id].leds == k.nodes[id].leds)
            && (Live(d, k) && d.hasRepeat && k.nodes[d.fd.value].repeat.Some? ==>
                  k'.nodes[d.fd.value].repeat == Some(repeat))
  {}

  lemma TouchesTwice(d: Device, k: Kernel, k': Kernel, k'': Kernel)
    requires OnlyTouches(d, k, k') && OnlyTouches(d, k', k'')
    ensures OnlyTouches(d, k, k'')
  {}

  /** Nothing owed before or after, and no word of it. */
  lemma QuietHandled(d: Device, o: Outside, d': Device, o': Outside)
    requires OnlyTouches(d, o.kernel, o'.kernel) && o'.pipe == o.pipe
    requires d'.path == d.path && Sound(d') && Attached(d', o'.kernel) && d'.savedRepeat.None?
    requires Live(d, o.kernel) ==> o'.kernel.nodes[d.fd.value].repeat == o'.kernel.nodes[d.fd.value].original
    requires Live(d, o.kernel) ==>
               (Lights(d', d.fd.value) || o'.kernel.nodes[d.fd.value].leds == o'.kernel.nodes[d.fd.value].lights)
    requires d.path !in Owed(o.pipe)
    ensures Handled(d, o, d', o')
  {
    assert Owed(o.pipe) - {d.path} == Owed(o.pipe);
  }

  lemma TakenHandles(d: Device, o: Outside)
    requires Consistent(o.kernel) && Attached(d, o.kernel)
    requires d.grabbed && d.fd.Some? && (d.savedRepeat.None? && Live(d, o.kernel) ==>
               o.kernel.nodes[d.fd.value].repeat == o.kernel.nodes[d.fd.value].original)
    requires d.savedLeds.None? && Live(d, o.kernel) ==>
               o.kernel.nodes[d.fd.value].leds == o.kernel.nodes[d.fd.value].lights
    requires d.savedRepeat.Some? ==> d.path in Owed(o.pipe) && Owed(o.pipe)[d.path] == d.savedRepeat.value
    requires d.savedRepeat.None? ==> d.path !in Owed(o.pipe)
    ensures Handled(d, o, Taken(d, o).0, Taken(d, o).1)
  {
    var (d', o') := Taken(d, o);
    if d.savedRepeat.Some? {
      StillHushed(d, o, d');
    } else if d'.savedRepeat.None? {
      QuietHandled(d, o, d', o');
    } else {
      HushedHandles(d, o, d', o');
    }
  }

  lemma StillHushed(d: Device, o: Outside, d': Device)
    requires Attached(d, o.kernel) && d.savedRepeat.Some? && d.fd.Some?
    requires d.path in Owed(o.pipe) && Owed(o.pipe)[d.path] == d.savedRepeat.value
    requires Sound(d') && d'.path == d.path && d'.fd == d.fd && d'.hasRepeat == d.hasRepeat
    requires d'.savedRepeat == d.savedRepeat && d'.savedLeds.Some?
    requires Live(d, o.kernel) ==> o.kernel.nodes[d.fd.value].lights == d'.savedLeds.value
    ensures Handled(d, o, d', o)
  {
    assert Owed(o.pipe)[d.path := d.savedRepeat.value] == Owed(o.pipe);
  }

  /** The repeat turned off, and the debt reported. */
  lemma HushedHandles(d: Device, o: Outside, d': Device, o': Outside)
    requires Consistent(o.kernel) && Attached(d, o.kernel) && Live(d, o.kernel)
    requires o.kernel.nodes[d.fd.value].repeat == o.kernel.nodes[d.fd.value].original
    requires d.hasRepeat && d'.savedRepeat.Some? && d'.savedRepeat == o.kernel.nodes[d.fd.value].repeat
    requires Sound(d') && d'.path == d.path && d'.fd == d.fd && d'.hasRepeat == d.hasRepeat
    requires d'.savedLeds.Some? && o.kernel.nodes[d.fd.value].lights == d'.savedLeds.value
    requires o' == Outside(WithRepeat(d, o.kernel, HUSHED), o.pipe + [Owe(d.path, d'.savedRepeat.value)])
    ensures Handled(d, o, d', o')
  {
    WithRepeatTouches(d, o.kernel, HUSHED);
    OwedSnoc(o.pipe, Owe(d.path, d'.savedRepeat.value));
  }

  lemma ReleasedHandles(d: Device, o: Outside)
    requires Consistent(o.kernel) && Attached(d, o.kernel)
    requires d.savedRepeat.None? && Live(d, o.kernel) ==>
               o.kernel.nodes[d.fd.value].repeat == o.kernel.nodes[d.fd.value].original
    requires d.savedLeds.None? && Live(d, o.kernel) ==>
               o.kernel.nodes[d.fd.value].leds == o.kernel.nodes[d.fd.value].lights
    requires d.savedRepeat.None? ==> d.path !in Owed(o.pipe)
    ensures Handled(d, o, Released(d, o).0, Released(d, o).1)
  {
    var (d', o') := Released(d, o);
    var k := if d.savedLeds.Some? then WithLeds(d, o.kernel, d.savedLeds.value) else o.kernel;
    if d.savedLeds.Some? {
      WithLedsTouches(d, o.kernel, d.savedLeds.value);
    }
    if d.savedRepeat.None? {
      QuietHandled(d, o, d', o');
    } else {
      RepaidHandles(d, o, k, d', o');
    }
  }

  /** The repeat put back, and said so. */
  lemma RepaidHandles(d: Device, o: Outside, k: Kernel, d': Device, o': Outside)
    requires Consistent(o.kernel) && Attached(d, o.kernel) && d.savedRepeat.Some?
    requires OnlyTouches(d, o.kernel, k)
    requires Live(d, o.kernel) ==> k.nodes[d.fd.value].leds == k.nodes[d.fd.value].lights
    requires d'.path == d.path && !d'.grabbed && d'.savedLeds.None? && d'.savedRepeat.None? && d'.fd.None?
    requires o' == Outside(WithRepeat(d, k, d.savedRepeat.value), o.pipe + [Settle(d.path)])
    ensures Handled(d, o, d', o')
  {
    WithRepeatTouches(d, k, d.savedRepeat.value);
    TouchesTwice(d, o.kernel, k, o'.kernel);
    OwedSnoc(o.pipe, Settle(d.path));
  }

  /** One of the set's own keyboards, as these need it. */
  lemma OwnState(ks: Keyboards, i: nat)
    requires Inv(ks) && i < |ks.devices|
    ensures var d, k := ks.devices[i], ks.outside.kernel;
            && (d.savedRepeat.None? && Live(d, k) ==> k.nodes[d.fd.value].repeat == k.nodes[d.fd.value].original)
            && (d.savedLeds.None? && Live(d, k) ==> k.nodes[d.fd.value].leds == k.nodes[d.fd.value].lights)
            && (d.savedRepeat.None? ==> d.path !in Owed(ks.outside.pipe))
            && (d.savedRepeat.Some? ==>
                  d.path in Owed(ks.outside.pipe) && Owed(ks.outside.pipe)[d.path] == d.savedRepeat.value)
  {
    var d, k := ks.devices[i], ks.outside.kernel;
    if Live(d, k) {
      forall j | 0 <= j < |ks.devices| && ks.devices[j].fd == d.fd ensures j == i {
        assert ks.devices[j].path == d.path;
      }
    }
    forall j | 0 <= j < |ks.devices| && ks.devices[j].path == d.path ensures j == i {}
    assert d.path in Owed(ks.outside.pipe) ==> Owes(ks.devices, d.path, Owed(ks.outside.pipe)[d.path]);
  }

  lemma GrabbedKeeps(ks: Keyboards, i: nat)
    requires Inv(ks) && i < |ks.devices|
    ensures var (d, o) := GrabOne(ks.devices[i], ks.outside); Inv(Keyboards(ks.devices[i := d], o))
    ensures var (d, o) := GrabOne(ks.devices[i], ks.outside);
            d.path == ks.devices[i].path && OnlyTouches(ks.devices[i], ks.outside.kernel, o.kernel)
  {
    var d, o := ks.devices[i], ks.outside;
    OwnState(ks, i);
    var (grabbed, came) := Grabbed(d, o.kernel);
    if came {
      var d1 := grabbed.(refused := false);
      TakenHandles(d1, o);
      assert Handled(d, o, Taken(d1, o).0, Taken(d1, o).1);
      Replaced(ks, i, Taken(d1, o).0, Taken(d1, o).1);
    } else {
      var (released, after) := Released(d, o);
      ReleasedHandles(d, o);
      assert Handled(d, o, released.(refused := true), after);
      Replaced(ks, i, released.(refused := true), after);
    }
  }

  lemma ReleasedKeeps(ks: Keyboards, i: nat)
    requires Inv(ks) && i < |ks.devices|
    ensures var (d, o) := Released(ks.devices[i], ks.outside); Inv(Keyboards(ks.devices[i := d], o))
  {
    OwnState(ks, i);
    ReleasedHandles(ks.devices[i], ks.outside);
    var (d, o) := Released(ks.devices[i], ks.outside);
    Replaced(ks, i, d, o);
  }

  function Without(devices: seq<Device>, i: nat): seq<Device>
    requires i < |devices|
  {
    devices[..i] + devices[i + 1..]
  }

  lemma OthersRemain(devices: seq<Device>, i: nat, j: nat)
    requires i < |devices| && j < |devices| && j != i
    ensures devices[j] in Without(devices, i)
  {
    assert Without(devices, i)[if j < i then j else j - 1] == devices[j];
  }

  lemma RecordedWithout(devices: seq<Device>, owed: map<Path, Repeat>, i: nat)
    requires i < |devices| && devices[i].savedRepeat.None? && Recorded(devices, owed)
    ensures Recorded(Without(devices, i), owed)
  {
    var after := Without(devices, i);
    forall path | path in owed ensures Owes(after, path, owed[path]) {
      var j :| 0 <= j < |devices| && devices[j].path == path && devices[j].savedRepeat == Some(owed[path]);
      OthersRemain(devices, i, j);
    }
    assert forall d :: d in after ==> d in devices;
  }

  lemma FaithfulWithout(devices: seq<Device>, k: Kernel, i: nat)
    requires i < |devices| && devices[i].savedRepeat.None? && Faithful(devices, k)
    ensures Faithful(Without(devices, i), k)
  {
    var after := Without(devices, i);
    forall id | id in k.nodes && HushedByUs(devices, id) ensures HushedByUs(after, id) {
      var j :| 0 <= j < |devices| && Hushes(devices[j], id);
      OthersRemain(devices, i, j);
    }
  }

  lemma CandidWithout(devices: seq<Device>, k: Kernel, i: nat)
    requires i < |devices| && devices[i].savedLeds.None? && Candid(devices, k)
    ensures Candid(Without(devices, i), k)
  {
    var after := Without(devices, i);
    forall id | id in k.nodes && LitByUs(devices, id) ensures LitByUs(after, id) {
      var j :| 0 <= j < |devices| && Lights(devices[j], id);
      OthersRemain(devices, i, j);
    }
  }

  lemma RemovedKeeps(ks: Keyboards, i: nat)
    requires Inv(ks) && i < |ks.devices| && ks.devices[i].savedRepeat.None? && ks.devices[i].savedLeds.None?
    ensures Inv(ks.(devices := Without(ks.devices, i)))
  {
    var after := Without(ks.devices, i);
    assert forall j :: 0 <= j < |after| ==> after[j] == ks.devices[if j < i then j else j + 1];
    RecordedWithout(ks.devices, Owed(ks.outside.pipe), i);
    FaithfulWithout(ks.devices, ks.outside.kernel, i);
    CandidWithout(ks.devices, ks.outside.kernel, i);
  }

  /** Letting a keyboard go and forgetting it. */
  lemma ForgottenKeeps(ks: Keyboards, i: nat)
    requires Inv(ks) && i < |ks.devices|
    ensures Inv(Keyboards(Without(ks.devices, i), Released(ks.devices[i], ks.outside).1))
  {
    var (d, o) := Released(ks.devices[i], ks.outside);
    ReleasedKeeps(ks, i);
    var released := Keyboards(ks.devices[i := d], o);
    RemovedKeeps(released, i);
    assert Without(released.devices, i) == Without(ks.devices, i);
  }

  lemma AddedKeeps(ks: Keyboards, d: Device)
    requires Inv(ks) && !HasPath(ks.devices, d.path)
    requires Sound(d) && Attached(d, ks.outside.kernel) && d.savedRepeat.None?
    ensures Inv(ks.(devices := ks.devices + [d]))
  {
    var devices, after := ks.devices, ks.devices + [d];
    var owed := Owed(ks.outside.pipe);
    forall path | path in owed ensures Owes(after, path, owed[path]) {
      var j :| 0 <= j < |devices| && devices[j].path == path && devices[j].savedRepeat == Some(owed[path]);
      assert after[j] == devices[j];
    }
    forall id | id in ks.outside.kernel.nodes && HushedByUs(devices, id) ensures HushedByUs(after, id) {
      var j :| 0 <= j < |devices| && Hushes(devices[j], id);
      assert after[j] == devices[j];
    }
    forall id | id in ks.outside.kernel.nodes && LitByUs(devices, id) ensures LitByUs(after, id) {
      var j :| 0 <= j < |devices| && Lights(devices[j], id);
      assert after[j] == devices[j];
    }
  }

  /** A keyboard we hold, lit with whatever mask. */
  lemma LitHandles(d: Device, o: Outside, mask: nat)
    requires Consistent(o.kernel) && Attached(d, o.kernel) && Sound(d) && d.savedLeds.Some?
    requires d.savedRepeat.None? && Live(d, o.kernel) ==>
               o.kernel.nodes[d.fd.value].repeat == o.kernel.nodes[d.fd.value].original
    requires d.savedRepeat.Some? ==> d.path in Owed(o.pipe) && Owed(o.pipe)[d.path] == d.savedRepeat.value
    requires d.savedRepeat.None? ==> d.path !in Owed(o.pipe)
    ensures Handled(d, o, d, o.(kernel := WithLeds(d, o.kernel, mask)))
  {
    WithLedsTouches(d, o.kernel, mask);
    assert d.savedRepeat.Some? ==> Owed(o.pipe)[d.path := d.savedRepeat.value] == Owed(o.pipe);
    assert d.savedRepeat.None? ==> Owed(o.pipe) - {d.path} == Owed(o.pipe);
  }

  lemma LitKeeps(ks: Keyboards, i: nat, how: Lighting)
    requires Inv(ks) && i < |ks.devices|
    ensures Inv(ks.(outside := ks.outside.(kernel := LitOne(ks.devices[i], ks.outside.kernel, how))))
  {
    var d, o := ks.devices[i], ks.outside;
    if d.savedLeds.Some? {
      var mask := if how.OfPhone? then how.mask else d.savedLeds.value;
      OwnState(ks, i);
      LitHandles(d, o, mask);
      Replaced(ks, i, d, o.(kernel := WithLeds(d, o.kernel, mask)));
      assert ks.devices[i := d] == ks.devices;
    }
  }

  lemma ReopenedKeeps(ks: Keyboards, i: nat)
    requires Inv(ks) && i < |ks.devices|
    ensures Inv(ks.(devices := ks.devices[i := Reopened(ks.devices[i], ks.outside.kernel).0]))
  {
    var d, o := ks.devices[i], ks.outside;
    var d' := Reopened(d, o.kernel).0;
    OwnState(ks, i);
    assert d'.savedRepeat.Some? ==> Owed(o.pipe)[d.path := d'.savedRepeat.value] == Owed(o.pipe);
    assert d'.savedRepeat.None? ==> Owed(o.pipe) - {d.path} == Owed(o.pipe);
    assert Handled(d, o, d', o);
    Replaced(ks, i, d', o);
  }

  // -- over the whole set ------------------------------------------------------

  /** The first keyboards handled, the others still to come. */
  function Beside(ks: Keyboards, rest: seq<Device>): Keyboards {
    ks.(devices := ks.devices + rest)
  }

  lemma {:induction false} GrabAllKeeps(ks: Keyboards, rest: seq<Device>)
    requires Inv(Beside(ks, rest))
    ensures Inv(Beside(GrabAll(ks), rest)) && |GrabAll(ks).devices| == |ks.devices|
    decreases |ks.devices|
  {
    if ks.devices != [] {
      var n := |ks.devices| - 1;
      var front, d := ks.(devices := ks.devices[..n]), ks.devices[n];
      assert Beside(front, [d] + rest) == Beside(ks, rest) by {
        assert ks.devices[..n] + ([d] + rest) == ks.devices + rest;
      }
      GrabAllKeeps(front, [d] + rest);
      var mid := Beside(GrabAll(front), [d] + rest);
      GrabbedKeeps(mid, n);
      var (d', o) := GrabOne(d, mid.outside);
      assert mid.devices[n] == d;
      assert mid.devices[n := d'] == GrabAll(front).devices + [d'] + rest;
    }
  }

  lemma {:induction false} ReleaseAllKeeps(ks: Keyboards, rest: seq<Device>)
    requires Inv(Beside(ks, rest))
    ensures Inv(Beside(ReleaseAll(ks), rest)) && |ReleaseAll(ks).devices| == |ks.devices|
    ensures forall i :: 0 <= i < |ks.devices| ==>
      var d := ReleaseAll(ks).devices[i]; d.savedRepeat.None? && d.savedLeds.None? && d.fd.None?
    decreases |ks.devices|
  {
    if ks.devices != [] {
      var n := |ks.devices| - 1;
      var front, d := ks.(devices := ks.devices[..n]), ks.devices[n];
      assert Beside(front, [d] + rest) == Beside(ks, rest) by {
        assert ks.devices[..n] + ([d] + rest) == ks.devices + rest;
      }
      ReleaseAllKeeps(front, [d] + rest);
      var mid := Beside(ReleaseAll(front), [d] + rest);
      ReleasedKeeps(mid, n);
      var (d', o) := Released(d, mid.outside);
      assert mid.devices[n] == d;
      assert mid.devices[n := d'] == ReleaseAll(front).devices + [d'] + rest;
    }
  }

  lemma {:induction false} LitAllKeeps(ks: Keyboards, how: Lighting, rest: seq<Device>)
    requires Inv(Beside(ks, rest))
    ensures Inv(Beside(Lit(ks, how), rest))
    decreases |ks.devices|
  {
    if ks.devices != [] {
      var n := |ks.devices| - 1;
      var front, d := ks.(devices := ks.devices[..n]), ks.devices[n];
      assert Beside(front, [d] + rest) == Beside(ks, rest) by {
        assert ks.devices[..n] + ([d] + rest) == ks.devices + rest;
      }
      LitAllKeeps(front, how, [d] + rest);
      LitDevices(front, how);
      var mid := Beside(Lit(front, how), [d] + rest);
      assert mid.devices == ks.devices + rest && mid.devices[n] == d;
      LitKeeps(mid, n, how);
    }
  }

  lemma LitDevices(ks: Keyboards, how: Lighting)
    ensures Lit(ks, how).devices == ks.devices
  {}

  lemma {:induction false} KeepKeeps(ks: Keyboards, which: Criterion, rest: seq<Device>)
    requires Inv(Beside(ks, rest))
    ensures Inv(Beside(Keep(ks, which), rest))
    decreases |ks.devices|
  {
    if ks.devices != [] {
      var n := |ks.devices| - 1;
      var front, d := ks.(devices := ks.devices[..n]), ks.devices[n];
      assert Beside(front, [d] + rest) == Beside(ks, rest) by {
        assert ks.devices[..n] + ([d] + rest) == ks.devices + rest;
      }
      KeepKeeps(front, which, [d] + rest);
      var kept := Keep(front, which);
      var mid := Beside(kept, [d] + rest);
      if Meets(d, which) {
        assert mid.devices == kept.devices + [d] + rest;
      } else {
        var m := |kept.devices|;
        ForgottenKeeps(mid, m);
        assert mid.devices[m] == d;
        assert Without(mid.devices, m) == kept.devices + rest;
      }
    }
  }

  lemma {:induction false} ReopenKeeps(ks: Keyboards, rest: seq<Device>)
    requires Inv(Beside(ks, rest))
    ensures Inv(Beside(Reopen(ks), rest))
    decreases |ks.devices|
  {
    if ks.devices != [] {
      var n := |ks.devices| - 1;
      var front, d := ks.(devices := ks.devices[..n]), ks.devices[n];
      assert Beside(front, [d] + rest) == Beside(ks, rest) by {
        assert ks.devices[..n] + ([d] + rest) == ks.devices + rest;
      }
      ReopenKeeps(front, [d] + rest);
      var done := Reopen(front);
      var mid := Beside(done, [d] + rest);
      var m := |done.devices|;
      assert mid.devices[m] == d;
      var (d', there) := Reopened(d, done.outside.kernel);
      if there {
        ReopenedKeeps(mid, m);
        assert mid.devices[m := d'] == done.devices + [d'] + rest;
      } else {
        ForgottenKeeps(mid, m);
        assert Without(mid.devices, m) == done.devices + rest;
      }
    }
  }

  lemma {:induction false} DiscoveredKeeps(ks: Keyboards, listing: seq<Path>, asleep: bool)
    requires Inv(ks)
    ensures Inv(Discovered(ks, listing, asleep)) && Discovered(ks, listing, asleep).outside == ks.outside
    decreases |listing|
  {
    if listing != [] {
      var n := |listing| - 1;
      DiscoveredKeeps(ks, listing[..n], asleep);
      var front := Discovered(ks, listing[..n], asleep);
      var k, path := ks.outside.kernel, listing[n];
      if path in k.at && k.at[path] in k.nodes && !HasPath(front.devices, path) {
        var d := OpenDevice(path, k);
        AddedKeeps(front, if asleep then d.(fd := None) else d);
      }
    }
  }

  // -- who is in the set -------------------------------------------------------

  /** What is kept is what was there and meets the criterion. */
  lemma {:induction false} KeptMeet(ks: Keyboards, which: Criterion)
    ensures forall d :: d in Keep(ks, which).devices ==> d in ks.devices && Meets(d, which)
    decreases |ks.devices|
  {
    if ks.devices != [] {
      KeptMeet(ks.(devices := ks.devices[..|ks.devices| - 1]), which);
    }
  }

  lemma {:induction false} KeepingHolds(ks: Keyboards, which: Criterion, d: Device)
    requires d in ks.devices && Meets(d, which)
    ensures d in Keep(ks, which).devices
    decreases |ks.devices|
  {
    var n := |ks.devices| - 1;
    var front := ks.(devices := ks.devices[..n]);
    if d != ks.devices[n] {
      assert d in front.devices;
      KeepingHolds(front, which, d);
    }
  }

  lemma {:induction false} DiscoveringHolds(ks: Keyboards, found: seq<Path>, asleep: bool)
    ensures forall d :: d in ks.devices ==> d in Discovered(ks, found, asleep).devices
    decreases |found|
  {
    if found != [] {
      DiscoveringHolds(ks, found[..|found| - 1], asleep);
    }
  }
}
