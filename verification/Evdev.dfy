/** The keyboards as objects: devices whose fields every method updates, and the set
    that takes and releases them.  Each method is proved to do exactly what the
    functions of Ledger say, about which the invariants are proved.  A pass over the
    set is one method for the loop and one for its step, so that each has one
    keyboard's worth of the heap to think about. */
module Evdev {
  import opened Wrappers
  import opened Ledger

  /** The kernel, as the ioctls reach it. */
  class Machine {
    var kernel: Kernel

    constructor (kernel: Kernel)
      ensures this.kernel == kernel
    {
      this.kernel := kernel;
    }
  }

  /** Our end of the pipe to the guardian. */
  class Keeper {
    var pipe: seq<Message>

    constructor ()
      ensures pipe == []
    {
      pipe := [];
    }

    method ForgetRepeat(path: Path)
      modifies this
      ensures pipe == old(pipe) + [Settle(path)]
    {
      pipe := pipe + [Settle(path)];
    }

    method RestoreRepeatOnDeath(path: Path, repeat: Repeat)
      modifies this
      ensures pipe == old(pipe) + [Owe(path, repeat)]
    {
      pipe := pipe + [Owe(path, repeat)];
    }
  }

  /** Why a grab was refused, which is only for telling: another program has the
      device, or it is not there. */
  datatype Refusal = Busy | NoDevice

  class InputDevice {
    const path: Path
    const hasRepeat: bool
    var fd: Option<Id>
    var grabbed: bool
    var refused: bool
    var wasHeld: bool
    var savedLeds: Option<nat>
    var savedRepeat: Option<Repeat>
    var grabError: Option<Refusal>

    function View(): Device
      reads this
    {
      Device(path, fd, hasRepeat, grabbed, refused, wasHeld, savedLeds, savedRepeat)
    }

    constructor (path: Path, machine: Machine)
      requires path in machine.kernel.at && machine.kernel.at[path] in machine.kernel.nodes
      ensures View() == OpenDevice(path, machine.kernel)
    {
      this.path := path;
      hasRepeat := machine.kernel.nodes[machine.kernel.at[path]].repeat.Some?;
      fd := Some(machine.kernel.at[path]);
      grabbed, refused, wasHeld := false, false, false;
      savedLeds, savedRepeat, grabError := None, None, None;
    }

    /** The grab belongs to the descriptor and goes with it. */
    method Close()
      modifies this
      ensures View() == old(View()).(fd := None, grabbed := false)
    {
      fd := None;
      grabbed := false;
    }

    method Reopen(machine: Machine) returns (there: bool)
      modifies this
      ensures (View(), there) == Reopened(old(View()), machine.kernel)
    {
      if fd.Some? {
        return true;
      }
      if path !in machine.kernel.at {
        return false;
      }
      fd := Some(machine.kernel.at[path]);
      return true;
    }

    method Grab(machine: Machine) returns (came: bool)
      modifies this
      ensures (View(), came) == Grabbed(old(View()), machine.kernel)
      ensures grabError == if old(grabbed) then old(grabError)
                           else if came then None
                           else Some(if Live(View(), machine.kernel) then Busy else NoDevice)
    {
      if grabbed {
        return true;
      }
      if fd.None? {
        grabError := Some(NoDevice);
        return false;
      }
      if fd.value !in machine.kernel.nodes {
        grabError := Some(NoDevice);
        return false;
      }
      if machine.kernel.nodes[fd.value].elsewhere {
        grabError := Some(Busy);
        return false;
      }
      grabError := None;
      grabbed := true;
      return true;
    }

    method SetLeds(machine: Machine, mask: nat)
      modifies machine
      ensures machine.kernel == WithLeds(View(), old(machine.kernel), mask)
    {
      if fd.None? || fd.value !in machine.kernel.nodes {
        return;
      }
      var node := machine.kernel.nodes[fd.value];
      machine.kernel := machine.kernel.(nodes := machine.kernel.nodes[fd.value := node.(leds := mask)]);
    }

    method SetRepeat(machine: Machine, repeat: Repeat)
      modifies machine
      ensures machine.kernel == WithRepeat(View(), old(machine.kernel), repeat)
    {
      if fd.None? || !hasRepeat {
        return;
      }
      if fd.value !in machine.kernel.nodes || machine.kernel.nodes[fd.value].repeat.None? {
        return;
      }
      var node := machine.kernel.nodes[fd.value];
      machine.kernel := machine.kernel.(nodes := machine.kernel.nodes[fd.value := node.(repeat := Some(repeat))]);
    }

    /** Repeat off, at most once; returns the old setting if this turned it off. */
    method HushRepeat(machine: Machine) returns (was: Option<Repeat>)
      modifies this, machine
      ensures was == if old(savedRepeat).Some? then None else RepeatOf(old(View()), old(machine.kernel))
      ensures View() == if was.Some? then old(View()).(savedRepeat := was) else old(View())
      ensures machine.kernel == if was.Some? then WithRepeat(old(View()), old(machine.kernel), HUSHED)
                                else old(machine.kernel)
    {
      if savedRepeat.Some? {
        return None;
      }
      savedRepeat := RepeatOf(View(), machine.kernel);
      if savedRepeat.None? {
        return None;
      }
      SetRepeat(machine, HUSHED);
      return savedRepeat;
    }

    method RestoreRepeat(machine: Machine) returns (was: Option<Repeat>)
      modifies this, machine
      ensures was == old(savedRepeat) && View() == old(View()).(savedRepeat := None)
      ensures machine.kernel == if was.Some? then WithRepeat(old(View()), old(machine.kernel), was.value)
                                else old(machine.kernel)
    {
      if savedRepeat.None? {
        return None;
      }
      was := savedRepeat;
      savedRepeat := None;
      SetRepeat(machine, was.value);
    }
  }

  class KeyboardSet {
    const machine: Machine
    const keeper: Keeper
    var devices: seq<InputDevice>

    ghost predicate Valid()
      reads this
    {
      forall i, j :: 0 <= i < j < |devices| ==> devices[i] != devices[j]
    }

    ghost function Outside(): Outside
      reads machine, keeper
    {
      Ledger.Outside(machine.kernel, keeper.pipe)
    }

    ghost function State(): Keyboards
      reads this, machine, keeper, devices
    {
      Keyboards(Views(devices), Outside())
    }

    constructor (machine: Machine, keeper: Keeper)
      ensures this.machine == machine && this.keeper == keeper && devices == [] && Valid()
    {
      this.machine, this.keeper, devices := machine, keeper, [];
    }

    /** After a grab that came: LEDs and repeat saved, the repeat off, the debt reported. */
    method Take(device: InputDevice)
      modifies device, machine, keeper
      ensures (device.View(), Outside()) == Taken(old(device.View()), old(Outside()))
    {
      device.wasHeld := true;
      if device.savedLeds.None? {
        device.savedLeds := Some(LedsOf(device.View(), machine.kernel));
      }
      var was := device.HushRepeat(machine);
      if was.Some? {
        keeper.RestoreRepeatOnDeath(device.path, was.value);
      }
    }

    /** Let one keyboard go: the LEDs and the repeat while there is a descriptor to
        write them through, and then the descriptor and the grab with it. */
    method Release(device: InputDevice)
      modifies device, machine, keeper
      ensures (device.View(), Outside()) == Released(old(device.View()), old(Outside()))
    {
      if device.savedLeds.Some? {
        device.SetLeds(machine, device.savedLeds.value);
        device.savedLeds := None;
      }
      var was := device.RestoreRepeat(machine);
      if was.Some? {
        keeper.ForgetRepeat(device.path);
      }
      device.Close();
    }

    method GrabDevice(device: InputDevice) returns (lost: bool)
      modifies device, machine, keeper
      ensures (device.View(), Outside()) == GrabOne(old(device.View()), old(Outside()))
      ensures lost == (!Grabbed(old(device.View()), old(machine.kernel)).1 && old(device.wasHeld))
    {
      lost := false;
      var came := device.Grab(machine);
      if came {
        Take(device);
        if device.refused {
          device.refused := false;
        }
      } else {
        lost := device.wasHeld;
        Release(device);
      }
      if !device.grabbed && !device.refused {
        device.refused := true;
      }
    }

    /** Part of the way through the set: the first `i` keyboards are as `done` says,
        and the others as they were at the start. */
    ghost predicate Midway(start: Keyboards, done: Keyboards, i: nat)
      reads this, machine, keeper, devices
    {
      && |devices| == |start.devices| && i <= |devices| && |done.devices| == i
      && (forall j :: i <= j < |devices| ==> devices[j].View() == start.devices[j])
      && (forall j :: 0 <= j < i ==> devices[j].View() == done.devices[j])
      && Outside() == done.outside
    }

    method GrabNext(ghost start: Keyboards, i: nat) returns (lost: bool)
      requires Valid() && i < |devices| && |start.devices| == |devices|
      requires Midway(start, Ledger.GrabAll(Prefix(start, i)), i)
      modifies machine, keeper, devices[i]
      ensures Midway(start, Ledger.GrabAll(Prefix(start, i + 1)), i + 1)
      ensures Lost(Prefix(start, i + 1)) == (Lost(Prefix(start, i)) || lost)
    {
      GrabAllNext(start, i);
      lost := GrabDevice(devices[i]);
    }

    /** Take every keyboard that will come; whether one that was ours is lost. */
    method GrabAll() returns (lost: bool)
      requires Valid()
      modifies machine, keeper, devices
      ensures State() == Ledger.GrabAll(old(State())) && Valid()
      ensures lost == Lost(old(State()))
    {
      lost := false;
      ghost var start := State();
      GrabAllStart(start);
      for i := 0 to |devices|
        invariant Midway(start, Ledger.GrabAll(Prefix(start, i)), i)
        invariant lost == Lost(Prefix(start, i))
      {
        var gone := GrabNext(start, i);
        lost := lost || gone;
      }
      assert Prefix(start, |devices|) == start;
      assert Views(devices) == Ledger.GrabAll(start).devices;
    }

    method LightNext(ghost start: Keyboards, how: Lighting, i: nat)
      requires i < |devices| && |start.devices| == |devices|
      requires State() == start.(outside := Lit(Prefix(start, i), how).outside)
      modifies machine
      ensures State() == start.(outside := Lit(Prefix(start, i + 1), how).outside)
    {
      LitNext(start, how, i);
      var device := devices[i];
      assert device.View() == start.devices[i];
      match how
      case OfPhone(mask) =>
        if device.grabbed {
          device.SetLeds(machine, mask);
        }
      case OfConsole =>
        if device.savedLeds.Some? {
          device.SetLeds(machine, device.savedLeds.value);
        }
    }

    method LightAll(how: Lighting)
      modifies machine
      ensures State() == Lit(old(State()), how)
    {
      ghost var start := State();
      LitStart(start, how);
      for i := 0 to |devices|
        invariant State() == start.(outside := Lit(Prefix(start, i), how).outside)
      {
        LightNext(start, how, i);
      }
      assert Prefix(start, |devices|) == start;
    }

    /** The phone's lock lights, onto the keyboards we hold. */
    method SetLeds(mask: nat)
      modifies machine
      ensures State() == Lit(old(State()), OfPhone(mask))
    {
      LightAll(OfPhone(mask));
    }

    /** The saved lights shown again while the keyboard is still held. */
    method RestoreLeds()
      modifies machine
      ensures State() == Lit(old(State()), OfConsole)
    {
      LightAll(OfConsole);
    }

    method ReleaseNext(ghost start: Keyboards, i: nat)
      requires Valid() && i < |devices| && |start.devices| == |devices|
      requires Midway(start, Ledger.ReleaseAll(Prefix(start, i)), i)
      modifies machine, keeper, devices[i]
      ensures Midway(start, Ledger.ReleaseAll(Prefix(start, i + 1)), i + 1)
    {
      ReleaseAllNext(start, i);
      Release(devices[i]);
    }

    method ReleaseAll()
      requires Valid()
      modifies machine, keeper, devices
      ensures State() == Ledger.ReleaseAll(old(State()))
    {
      ghost var start := State();
      GrabAllStart(start);
      for i := 0 to |devices|
        invariant Midway(start, Ledger.ReleaseAll(Prefix(start, i)), i)
      {
        ReleaseNext(start, i);
      }
      assert Prefix(start, |devices|) == start;
      assert Views(devices) == Ledger.ReleaseAll(start).devices;
    }

    /** Only what is held stays in the set. */
    method DiscardRefusals()
      requires Valid()
      modifies this`devices, machine, keeper, devices
      ensures State() == Ledger.DiscardRefusals(old(State())) && Valid()
      ensures forall d :: d in devices ==> d in old(devices)
    {
      KeepWhich(Grabs);
    }

    /** Drop the device at one path for good. */
    method Forget(path: Path)
      requires Valid()
      modifies this`devices, machine, keeper, devices
      ensures State() == Ledger.Forget(old(State()), path) && Valid()
    {
      KeepWhich(OtherThan(path));
    }

    /** Part of the way through a set that keeps some of its keyboards: `kept` are
        those of the first `i` that stay. */
    ghost predicate Sifted(start: Keyboards, done: Keyboards, all: seq<InputDevice>, kept: seq<InputDevice>, i: nat)
      reads machine, keeper, all, kept
    {
      && |all| == |start.devices| && i <= |all|
      && (forall j :: i <= j < |all| ==> all[j].View() == start.devices[j])
      && Matches(kept, done.devices)
      && Outside() == done.outside
      && (forall j :: 0 <= j < |kept| ==> kept[j] in all[..i])
      && (forall j, k :: 0 <= j < k < |kept| ==> kept[j] != kept[k])
    }

    method ReopenNext(ghost start: Keyboards, all: seq<InputDevice>, before: seq<InputDevice>, i: nat)
      returns (kept: seq<InputDevice>)
      requires i < |all| && |start.devices| == |all| && forall j, k :: 0 <= j < k < |all| ==> all[j] != all[k]
      requires Sifted(start, Ledger.Reopen(Prefix(start, i)), all, before, i)
      modifies machine, keeper, all[i]
      ensures Sifted(start, Ledger.Reopen(Prefix(start, i + 1)), all, kept, i + 1)
    {
      ReopenStep(start, i);
      assert all[i] !in before;
      var there := all[i].Reopen(machine);
      if there {
        kept := before + [all[i]];
      } else {
        Release(all[i]);
        kept := before;
      }
    }

    method ReopenEach(ghost start: Keyboards, all: seq<InputDevice>) returns (kept: seq<InputDevice>)
      requires forall j, k :: 0 <= j < k < |all| ==> all[j] != all[k]
      requires Matches(all, start.devices) && Outside() == start.outside
      modifies machine, keeper, all
      ensures Sifted(start, Ledger.Reopen(start), all, kept, |all|)
    {
      kept := [];
      ReopenStart(start);
      for i := 0 to |all|
        invariant Sifted(start, Ledger.Reopen(Prefix(start, i)), all, kept, i)
      {
        kept := ReopenNext(start, all, kept, i);
      }
      assert Prefix(start, |all|) == start;
    }

    /** Open again what was closed, and drop what is no longer there. */
    method OpenAll()
      requires Valid()
      modifies this`devices, machine, keeper, devices
      ensures State() == Ledger.Reopen(old(State())) && Valid()
      ensures forall d :: d in devices ==> d in old(devices)
    {
      ghost var start := State();
      devices := ReopenEach(start, devices);
      ViewsMatch(Ledger.Reopen(start).devices);
    }

    /** Rescan: open what is new, drop what has gone. */
    method Refresh(listing: Listing, asleep: bool)
      requires Valid()
      modifies this`devices, machine, keeper, devices
      ensures State() == Rescanned(old(State()), listing, asleep) && Valid()
      ensures forall d :: d in devices ==> d in old(devices) || fresh(d)
    {
      Discover(listing.found, asleep);
      assert forall i :: 0 <= i < |devices| ==> devices[i] in old(devices) || fresh(devices[i]);
      KeepWhich(Among(listing.present));
    }

    ghost predicate Found(start: Keyboards, done: Keyboards)
      reads this, machine, keeper, devices
    {
      Valid() && Matches(devices, done.devices) && Outside() == start.outside
    }

    method Discover(listing: seq<Path>, asleep: bool)
      requires Valid()
      modifies this`devices
      ensures State() == Discovered(old(State()), listing, asleep) && Valid()
      ensures forall d :: d in devices ==> d in old(devices) || fresh(d)
    {
      ghost var start := State();
      DiscoverStart(start, listing, asleep);
      for i := 0 to |listing|
        invariant Found(start, Discovered(start, listing[..i], asleep))
        invariant forall d :: d in devices ==> d in old(devices) || fresh(d)
      {
        DiscoverOne(start, listing, i, asleep);
      }
      DiscoveredOutside(start, listing, asleep);
      assert listing[..|listing|] == listing;
      assert Views(devices) == Discovered(start, listing, asleep).devices;
    }

    lemma SamePaths(views: seq<Device>, path: Path)
      requires Matches(devices, views)
      ensures HasPath(views, path) <==> exists j :: 0 <= j < |devices| && devices[j].path == path
    {
      assert forall j :: 0 <= j < |devices| ==> devices[j].View().path == views[j].path;
    }

    method DiscoverOne(ghost start: Keyboards, listing: seq<Path>, i: nat, asleep: bool)
      requires i < |listing| && Found(start, Discovered(start, listing[..i], asleep))
      modifies this`devices
      ensures Found(start, Discovered(start, listing[..i + 1], asleep))
      ensures forall d :: d in devices ==> d in old(devices) || fresh(d)
    {
      var path := listing[i];
      var known := Knows(path);
      SamePaths(Discovered(start, listing[..i], asleep).devices, path);
      if path in machine.kernel.at && machine.kernel.at[path] in machine.kernel.nodes && !known {
        DiscoverAdds(start, listing, asleep, i);
        var device := OpenNew(path, asleep);
        devices := devices + [device];
      } else {
        DiscoverSkips(start, listing, asleep, i);
      }
    }

    method OpenNew(path: Path, asleep: bool) returns (device: InputDevice)
      requires path in machine.kernel.at && machine.kernel.at[path] in machine.kernel.nodes
      ensures fresh(device)
      ensures device.View() == Opened(path, machine.kernel, asleep)
    {
      device := new InputDevice(path, machine);
      if asleep {
        device.Close();
      }
    }

    method Knows(path: Path) returns (known: bool)
      ensures known == exists j :: 0 <= j < |devices| && devices[j].path == path
    {
      for i := 0 to |devices|
        invariant forall j :: 0 <= j < i ==> devices[j].path != path
      {
        if devices[i].path == path {
          return true;
        }
      }
      return false;
    }

    method KeepNext(ghost start: Keyboards, which: Criterion, all: seq<InputDevice>, before: seq<InputDevice>, i: nat)
      returns (kept: seq<InputDevice>)
      requires i < |all| && |start.devices| == |all| && forall j, k :: 0 <= j < k < |all| ==> all[j] != all[k]
      requires Sifted(start, Keep(Prefix(start, i), which), all, before, i)
      modifies machine, keeper, all[i]
      ensures Sifted(start, Keep(Prefix(start, i + 1), which), all, kept, i + 1)
    {
      KeepStep(start, which, i);
      assert all[i] !in before;
      if Meets(all[i].View(), which) {
        kept := before + [all[i]];
      } else {
        Release(all[i]);
        kept := before;
      }
    }

    lemma ViewsMatch(views: seq<Device>)
      requires Matches(devices, views)
      ensures Views(devices) == views
    {}

    method KeepEach(ghost start: Keyboards, which: Criterion, all: seq<InputDevice>) returns (kept: seq<InputDevice>)
      requires forall j, k :: 0 <= j < k < |all| ==> all[j] != all[k]
      requires Matches(all, start.devices) && Outside() == start.outside
      modifies machine, keeper, all
      ensures Sifted(start, Keep(start, which), all, kept, |all|)
    {
      kept := [];
      KeepStart(start, which);
      for i := 0 to |all|
        invariant Sifted(start, Keep(Prefix(start, i), which), all, kept, i)
      {
        kept := KeepNext(start, which, all, kept, i);
      }
      assert Prefix(start, |all|) == start;
    }

    method KeepWhich(which: Criterion)
      requires Valid()
      modifies this`devices, machine, keeper, devices
      ensures State() == Keep(old(State()), which) && Valid()
      ensures forall d :: d in devices ==> d in old(devices)
    {
      ghost var start := State();
      devices := KeepEach(start, which, devices);
      ViewsMatch(Keep(start, which).devices);
    }
  }

  // -- one keyboard more -------------------------------------------------------

  function Prefix(ks: Keyboards, i: nat): Keyboards
    requires i <= |ks.devices|
  {
    ks.(devices := ks.devices[..i])
  }

  lemma GrabAllStart(ks: Keyboards)
    ensures Ledger.GrabAll(Prefix(ks, 0)) == Ledger.ReleaseAll(Prefix(ks, 0)) == Keyboards([], ks.outside)
    ensures !Lost(Prefix(ks, 0))
  {}

  lemma GrabAllNext(ks: Keyboards, i: nat)
    requires i < |ks.devices|
    ensures var front := Ledger.GrabAll(Prefix(ks, i));
            && Ledger.GrabAll(Prefix(ks, i + 1)).devices
               == front.devices + [GrabOne(ks.devices[i], front.outside).0]
            && Ledger.GrabAll(Prefix(ks, i + 1)).outside == GrabOne(ks.devices[i], front.outside).1
            && Lost(Prefix(ks, i + 1))
               == (Lost(Prefix(ks, i))
                   || (!Grabbed(ks.devices[i], front.outside.kernel).1 && ks.devices[i].wasHeld))
  {
    assert Prefix(Prefix(ks, i + 1), i) == Prefix(ks, i);
  }

  lemma LitStart(ks: Keyboards, how: Lighting)
    ensures Lit(Prefix(ks, 0), how).outside == ks.outside
  {}

  lemma LitNext(ks: Keyboards, how: Lighting, i: nat)
    requires i < |ks.devices|
    ensures var o := Lit(Prefix(ks, i), how).outside;
            Lit(Prefix(ks, i + 1), how).outside == o.(kernel := LitOne(ks.devices[i], o.kernel, how))
  {
    assert Prefix(Prefix(ks, i + 1), i) == Prefix(ks, i);
  }

  lemma ReleaseAllNext(ks: Keyboards, i: nat)
    requires i < |ks.devices|
    ensures var front := Ledger.ReleaseAll(Prefix(ks, i));
            && Ledger.ReleaseAll(Prefix(ks, i + 1)).devices
               == front.devices + [Released(ks.devices[i], front.outside).0]
            && Ledger.ReleaseAll(Prefix(ks, i + 1)).outside == Released(ks.devices[i], front.outside).1
  {
    assert Prefix(Prefix(ks, i + 1), i) == Prefix(ks, i);
  }

  ghost predicate Matches(devices: seq<InputDevice>, views: seq<Device>)
    reads devices
  {
    |devices| == |views| && forall i :: 0 <= i < |views| ==> devices[i].View() == views[i]
  }

  lemma ReopenStart(ks: Keyboards)
    ensures Ledger.Reopen(Prefix(ks, 0)) == Keyboards([], ks.outside)
  {}

  lemma ReopenStep(ks: Keyboards, i: nat)
    requires i < |ks.devices|
    ensures var front := Ledger.Reopen(Prefix(ks, i));
            var back := Reopened(ks.devices[i], front.outside.kernel);
            Ledger.Reopen(Prefix(ks, i + 1)) ==
              if back.1 then Keyboards(front.devices + [back.0], front.outside)
              else Keyboards(front.devices, Released(back.0, front.outside).1)
  {
    assert Prefix(Prefix(ks, i + 1), i) == Prefix(ks, i);
  }

  lemma DiscoverStart(ks: Keyboards, listing: seq<Path>, asleep: bool)
    ensures Discovered(ks, listing[..0], asleep) == ks
  {}

  lemma {:induction false} DiscoveredOutside(ks: Keyboards, listing: seq<Path>, asleep: bool)
    ensures Discovered(ks, listing, asleep).outside == ks.outside
  {
    if listing != [] {
      DiscoveredOutside(ks, listing[..|listing| - 1], asleep);
    }
  }

  predicate Wanted(k: Kernel, devices: seq<Device>, path: Path) {
    path in k.at && k.at[path] in k.nodes && !HasPath(devices, path)
  }

  function Opened(path: Path, k: Kernel, asleep: bool): Device
    requires path in k.at && k.at[path] in k.nodes
  {
    if asleep then OpenDevice(path, k).(fd := None) else OpenDevice(path, k)
  }

  lemma DiscoverAdds(ks: Keyboards, listing: seq<Path>, asleep: bool, i: nat)
    requires i < |listing|
    requires Wanted(ks.outside.kernel, Discovered(ks, listing[..i], asleep).devices, listing[i])
    ensures Discovered(ks, listing[..i + 1], asleep).devices
         == Discovered(ks, listing[..i], asleep).devices + [Opened(listing[i], ks.outside.kernel, asleep)]
  {
    assert listing[..i + 1][..i] == listing[..i];
  }

  lemma DiscoverSkips(ks: Keyboards, listing: seq<Path>, asleep: bool, i: nat)
    requires i < |listing|
    requires !Wanted(ks.outside.kernel, Discovered(ks, listing[..i], asleep).devices, listing[i])
    ensures Discovered(ks, listing[..i + 1], asleep).devices == Discovered(ks, listing[..i], asleep).devices
  {
    assert listing[..i + 1][..i] == listing[..i];
  }

  lemma KeepStart(ks: Keyboards, which: Criterion)
    ensures Keep(Prefix(ks, 0), which) == Keyboards([], ks.outside)
  {}

  lemma KeepStep(ks: Keyboards, which: Criterion, i: nat)
    requires i < |ks.devices|
    ensures var front := Keep(Prefix(ks, i), which);
            Keep(Prefix(ks, i + 1), which) ==
              if Meets(ks.devices[i], which) then Keyboards(front.devices + [ks.devices[i]], front.outside)
              else Keyboards(front.devices, Released(ks.devices[i], front.outside).1)
  {
    assert Prefix(Prefix(ks, i + 1), i) == Prefix(ks, i);
  }

  ghost function Views(devices: seq<InputDevice>): (r: seq<Device>)
    reads devices
    ensures |r| == |devices|
    ensures forall i :: 0 <= i < |r| ==> r[i] == devices[i].View()
  {
    if devices == [] then []
    else Views(devices[..|devices| - 1]) + [devices[|devices| - 1].View()]
  }
}
