/** The life of the grab, event by event, while the rest of the machine does as it
    likes; and what is owed to it whenever the program stops, however it stops. */
module Grabbing {
  import opened Wrappers
  import opened Keycodes
  import opened Ledger
  import opened LedgerInvariant

  // -- the rest of the machine -------------------------------------------------

  predicate GrabbedByUs(devices: seq<Device>, id: Id) {
    exists i :: 0 <= i < |devices| && devices[i].grabbed && devices[i].fd == Some(id)
  }

  ghost function NodeSet(k: Kernel, id: Id, node: Node): Kernel { k.(nodes := k.nodes[id := node]) }

  /** One happening.  A grab of ours keeps others out, nobody adjusts a keyboard we are
      holding hushed, and the console lights none that we hold. */
  ghost function Happened(ks: Keyboards, h: Happening): Keyboards {
    var k := ks.outside.kernel;
    match h
    case Plug(path, node) =>
      if path in k.at then ks
      else
        var anew := node.(repeat := node.original, leds := node.lights);
        ks.(outside := ks.outside.(kernel := Kernel(k.nodes[k.next := anew], k.at[path := k.next], k.next + 1)))
    case Unplug(path) =>
      if path !in k.at then ks
      else ks.(outside := ks.outside.(kernel := Kernel(k.nodes - {k.at[path]}, k.at - {path}, k.next)))
    case Claim(path) =>
      if path !in k.at || k.at[path] !in k.nodes || GrabbedByUs(ks.devices, k.at[path]) then ks
      else ks.(outside := ks.outside.(kernel := NodeSet(k, k.at[path], k.nodes[k.at[path]].(elsewhere := true))))
    case Yield(path) =>
      if path !in k.at || k.at[path] !in k.nodes then ks
      else ks.(outside := ks.outside.(kernel := NodeSet(k, k.at[path], k.nodes[k.at[path]].(elsewhere := false))))
    case Press(path, down) =>
      if path !in k.at || k.at[path] !in k.nodes then ks
      else ks.(outside := ks.outside.(kernel := NodeSet(k, k.at[path], k.nodes[k.at[path]].(down := down))))
    case Adjust(path, repeat) =>
      if path !in k.at || k.at[path] !in k.nodes || k.nodes[k.at[path]].repeat.None?
         || HushedByUs(ks.devices, k.at[path]) then ks
      else
        var node := k.nodes[k.at[path]].(repeat := Some(repeat), original := Some(repeat));
        ks.(outside := ks.outside.(kernel := NodeSet(k, k.at[path], node)))
    case Indicate(path, leds) =>
      if path !in k.at || k.at[path] !in k.nodes || LitByUs(ks.devices, k.at[path]) then ks
      else
        var node := k.nodes[k.at[path]].(leds := leds, lights := leds);
        ks.(outside := ks.outside.(kernel := NodeSet(k, k.at[path], node)))
  }

  ghost function AllHappened(ks: Keyboards, hs: seq<Happening>): Keyboards {
    if hs == [] then ks else Happened(AllHappened(ks, hs[..|hs| - 1]), hs[|hs| - 1])
  }

  lemma PlugKeeps(ks: Keyboards, path: Path, node: Node)
    requires Inv(ks)
    ensures Inv(Happened(ks, Plug(path, node)))
  {
    var k := ks.outside.kernel;
    var k' := Happened(ks, Plug(path, node)).outside.kernel;
    if path !in k.at {
      forall id | id in k'.nodes ensures exists p :: p in k'.at && k'.at[p] == id {
        if id == k.next {
          assert k'.at[path] == id;
        } else {
          var p :| p in k.at && k.at[p] == id;
          assert k'.at[p] == id;
        }
      }
      assert Consistent(k');
      assert forall i :: 0 <= i < |ks.devices| ==> Attached(ks.devices[i], k');
    }
  }

  lemma UnplugKeeps(ks: Keyboards, path: Path)
    requires Inv(ks)
    ensures Inv(Happened(ks, Unplug(path)))
  {
    var k := ks.outside.kernel;
    var k' := Happened(ks, Unplug(path)).outside.kernel;
    if path in k.at {
      forall id | id in k'.nodes ensures exists p :: p in k'.at && k'.at[p] == id {
        var p :| p in k.at && k.at[p] == id;
        assert k'.at[p] == id;
      }
      assert Consistent(k');
    }
  }

  /** A node changed in ways that no debt depends on. */
  lemma NodeKeeps(ks: Keyboards, id: Id, node: Node)
    requires Inv(ks) && id in ks.outside.kernel.nodes
    requires var was := ks.outside.kernel.nodes[id];
             && (node.repeat.Some? <==> node.original.Some?)
             && ((node.repeat == was.repeat && node.original == was.original)
                 || (!HushedByUs(ks.devices, id) && node.repeat == node.original))
             && ((node.leds == was.leds && node.lights == was.lights)
                 || (!LitByUs(ks.devices, id) && node.leds == node.lights))
    ensures Inv(ks.(outside := ks.outside.(kernel := NodeSet(ks.outside.kernel, id, node))))
  {
    var k, k' := ks.outside.kernel, NodeSet(ks.outside.kernel, id, node);
    assert Consistent(k');
    forall i | 0 <= i < |ks.devices| ensures Attached(ks.devices[i], k') {
      if ks.devices[i].fd == Some(id) && ks.devices[i].savedRepeat.Some? {
        assert Hushes(ks.devices[i], id);
      }
      if ks.devices[i].fd == Some(id) && ks.devices[i].savedLeds.Some? {
        assert Lights(ks.devices[i], id);
      }
    }
  }

  lemma ClaimKeeps(ks: Keyboards, path: Path)
    requires Inv(ks)
    ensures Inv(Happened(ks, Claim(path)))
  {
    var k := ks.outside.kernel;
    if path in k.at {
      NodeKeeps(ks, k.at[path], k.nodes[k.at[path]].(elsewhere := true));
    }
  }

  lemma YieldKeeps(ks: Keyboards, path: Path)
    requires Inv(ks)
    ensures Inv(Happened(ks, Yield(path)))
  {
    var k := ks.outside.kernel;
    if path in k.at {
      NodeKeeps(ks, k.at[path], k.nodes[k.at[path]].(elsewhere := false));
    }
  }

  lemma PressKeeps(ks: Keyboards, path: Path, down: set<Keycode>)
    requires Inv(ks)
    ensures Inv(Happened(ks, Press(path, down)))
  {
    var k := ks.outside.kernel;
    if path in k.at {
      NodeKeeps(ks, k.at[path], k.nodes[k.at[path]].(down := down));
    }
  }

  lemma AdjustKeeps(ks: Keyboards, path: Path, repeat: Repeat)
    requires Inv(ks)
    ensures Inv(Happened(ks, Adjust(path, repeat)))
  {
    var k := ks.outside.kernel;
    if path in k.at && k.nodes[k.at[path]].repeat.Some? && !HushedByUs(ks.devices, k.at[path]) {
      NodeKeeps(ks, k.at[path], k.nodes[k.at[path]].(repeat := Some(repeat), original := Some(repeat)));
    }
  }

  lemma IndicateKeeps(ks: Keyboards, path: Path, leds: nat)
    requires Inv(ks)
    ensures Inv(Happened(ks, Indicate(path, leds)))
  {
    var k := ks.outside.kernel;
    if path in k.at && !LitByUs(ks.devices, k.at[path]) {
      NodeKeeps(ks, k.at[path], k.nodes[k.at[path]].(leds := leds, lights := leds));
    }
  }

  /** The world touches neither our keyboards nor what was said of them. */
  lemma HappenedOutside(ks: Keyboards, h: Happening)
    ensures Happened(ks, h).devices == ks.devices && Happened(ks, h).outside.pipe == ks.outside.pipe
  {}

  lemma HappenedKeeps(ks: Keyboards, h: Happening)
    requires Inv(ks)
    ensures Inv(Happened(ks, h)) && Happened(ks, h).devices == ks.devices
    ensures Happened(ks, h).outside.pipe == ks.outside.pipe
  {
    HappenedOutside(ks, h);
    match h
    case Plug(path, node) => PlugKeeps(ks, path, node);
    case Unplug(path) => UnplugKeeps(ks, path);
    case Claim(path) => ClaimKeeps(ks, path);
    case Yield(path) => YieldKeeps(ks, path);
    case Press(path, down) => PressKeeps(ks, path, down);
    case Adjust(path, repeat) => AdjustKeeps(ks, path, repeat);
    case Indicate(path, leds) => IndicateKeeps(ks, path, leds);
  }

  lemma {:induction false} AllHappenedKeep(ks: Keyboards, hs: seq<Happening>)
    requires Inv(ks)
    ensures Inv(AllHappened(ks, hs)) && AllHappened(ks, hs).devices == ks.devices
    ensures AllHappened(ks, hs).outside.pipe == ks.outside.pipe
  {
    if hs != [] {
      AllHappenedKeep(ks, hs[..|hs| - 1]);
      HappenedKeeps(AllHappened(ks, hs[..|hs| - 1]), hs[|hs| - 1]);
    }
  }

  // -- the session's handlers --------------------------------------------------

  /** The keys down on any of the keyboards, as the kernel has them. */
  function HeldKeys(ks: Keyboards): set<Keycode>
    decreases |ks.devices|
  {
    if ks.devices == [] then {}
    else
      var d := ks.devices[|ks.devices| - 1];
      HeldKeys(ks.(devices := ks.devices[..|ks.devices| - 1]))
      + if Live(d, ks.outside.kernel) then ks.outside.kernel.nodes[d.fd.value].down else {}
  }

  datatype Session = Session(ks: Keyboards, asleep: bool, foreground: bool, waiting: bool, modifiers: Modifiers)

  /** What one handler finds when it looks: which keyboards a first and a second
      listing show, and what happens in between. */
  datatype Look = Look(
    listing: Listing,
    between: seq<Happening>, again: Listing, meanwhile: seq<Happening>)

  ghost function Synced(s: Session): Session {
    s.(modifiers := ModifiersOf(HeldKeys(s.ks)))
  }

  /** A rescan, after which the modifiers are asked for again if any keyboard went. */
  ghost function Looked(s: Session, listing: Listing): Session {
    var after := s.(ks := Rescanned(s.ks, listing, s.asleep));
    if Drops(s.ks, listing, s.asleep) then Synced(after) else after
  }

  /** The descriptors taken back, and the same if any keyboard did not come. */
  ghost function Woken(s: Session): Session {
    var after := s.(ks := Reopen(s.ks), asleep := false, foreground := true);
    if |Reopen(s.ks).devices| < |s.ks.devices| then Synced(after) else after
  }

  /** The keyboards as the second grab_all of take_keyboards finds them. */
  ghost function SecondLook(ks: Keyboards, asleep: bool, look: Look): Keyboards {
    var anew := AllHappened(DiscardRefusals(GrabAll(ks)), look.between);
    AllHappened(Rescanned(anew, look.again, asleep), look.meanwhile)
  }

  /** With no key down, one pass of grabbing, and a second after a fresh look if the
      first cost us a keyboard; with one down, nothing but the wish to. */
  ghost function TakeKeyboards(s: Session, look: Look): Session {
    if HeldKeys(s.ks) != {} then s.(waiting := true)
    else
      var after := if Lost(s.ks) then GrabAll(SecondLook(s.ks, s.asleep, look)) else GrabAll(s.ks);
      Synced(s.(ks := after, waiting := false))
  }

  ghost function SetForeground(s: Session, foreground: bool, look: Look): Session {
    if foreground == s.foreground then s
    else if foreground then TakeKeyboards(Looked(Woken(s), look.listing), look)
    else
      Session(ReleaseAll(s.ks), true, false, false, 0)
  }

  /** A read failed: that keyboard is let go of, and the modifiers are those the
      others hold. */
  ghost function Dropped(s: Session, path: Path): Session {
    Synced(s.(ks := Forget(s.ks, path)))
  }

  /** Something changed in the directory and the change has settled. */
  ghost function Settled(s: Session, look: Look): Session {
    var anew := Looked(s.(ks := DiscardRefusals(s.ks)), look.listing);
    if s.foreground then TakeKeyboards(anew, look) else anew
  }

  /** A key moved on a keyboard we are waiting to take. */
  ghost function Watched(s: Session, look: Look): Session {
    if s.foreground && s.waiting && HeldKeys(s.ks) == {} then TakeKeyboards(s, look) else s
  }

  ghost function Quit(s: Session): Session {
    var done := ReleaseAll(s.ks);
    s.(ks := done.(devices := []), asleep := true)
  }

  datatype Event =
    | Elsewhere(h: Happening)
    | Console(foreground: bool, look: Look)
    | ReadFails(path: Path)
    | DirectorySettles(look: Look)
    | KeyMoves(look: Look)
    | Rescan(listing: Listing)
    | Light(how: Lighting)

  ghost function Step(s: Session, e: Event): Session {
    match e
    case Elsewhere(h) => s.(ks := Happened(s.ks, h))
    case Console(foreground, look) => SetForeground(s, foreground, look)
    case ReadFails(path) => Dropped(s, path)
    case DirectorySettles(look) => Settled(s, look)
    case KeyMoves(look) => Watched(s, look)
    case Rescan(listing) => Looked(s, listing)
    case Light(how) => s.(ks := Lit(s.ks, how))
  }

  ghost function Run(s: Session, events: seq<Event>): Session {
    if events == [] then s else Step(Run(s, events[..|events| - 1]), events[|events| - 1])
  }

  // -- the invariant of every run ----------------------------------------------

  lemma RescannedKeeps(ks: Keyboards, listing: Listing, asleep: bool)
    requires Inv(ks)
    ensures Inv(Rescanned(ks, listing, asleep))
  {
    DiscoveredKeeps(ks, listing.found, asleep);
    KeepAlone(Discovered(ks, listing.found, asleep), Among(listing.present));
  }

  lemma KeepAlone(ks: Keyboards, which: Criterion)
    requires Inv(ks)
    ensures Inv(Keep(ks, which))
  {
    assert Beside(ks, []) == ks && Beside(Keep(ks, which), []) == Keep(ks, which);
    KeepKeeps(ks, which, []);
  }

  lemma GrabAllAlone(ks: Keyboards)
    requires Inv(ks)
    ensures Inv(GrabAll(ks))
  {
    assert Beside(ks, []) == ks && Beside(GrabAll(ks), []) == GrabAll(ks);
    GrabAllKeeps(ks, []);
  }

  lemma ReleaseAllAlone(ks: Keyboards)
    requires Inv(ks)
    ensures Inv(ReleaseAll(ks))
    ensures |ReleaseAll(ks).devices| == |ks.devices|
    ensures forall i :: 0 <= i < |ks.devices| ==>
      ReleaseAll(ks).devices[i].savedRepeat.None? && ReleaseAll(ks).devices[i].savedLeds.None?
  {
    assert Beside(ks, []) == ks && Beside(ReleaseAll(ks), []) == ReleaseAll(ks);
    ReleaseAllKeeps(ks, []);
  }

  lemma ReopenAlone(ks: Keyboards)
    requires Inv(ks)
    ensures Inv(Reopen(ks))
  {
    assert Beside(ks, []) == ks && Beside(Reopen(ks), []) == Reopen(ks);
    ReopenKeeps(ks, []);
  }

  lemma LitAlone(ks: Keyboards, how: Lighting)
    requires Inv(ks)
    ensures Inv(Lit(ks, how)) && Lit(ks, how).devices == ks.devices
  {
    LitDevices(ks, how);
    assert Beside(ks, []) == ks && Beside(Lit(ks, how), []) == Lit(ks, how);
    LitAllKeeps(ks, how, []);
  }

  lemma SecondLookKeeps(ks: Keyboards, asleep: bool, look: Look)
    requires Inv(ks)
    ensures Inv(SecondLook(ks, asleep, look))
  {
    GrabAllAlone(ks);
    KeepAlone(GrabAll(ks), Grabs);
    AllHappenedKeep(DiscardRefusals(GrabAll(ks)), look.between);
    var anew := AllHappened(DiscardRefusals(GrabAll(ks)), look.between);
    RescannedKeeps(anew, look.again, asleep);
    AllHappenedKeep(Rescanned(anew, look.again, asleep), look.meanwhile);
  }

  lemma TakeKeeps(s: Session, look: Look)
    requires Inv(s.ks)
    ensures Inv(TakeKeyboards(s, look).ks)
  {
    SecondLookKeeps(s.ks, s.asleep, look);
    GrabAllAlone(SecondLook(s.ks, s.asleep, look));
    GrabAllAlone(s.ks);
  }

  lemma ConsoleKeeps(s: Session, foreground: bool, look: Look)
    requires Inv(s.ks)
    ensures Inv(SetForeground(s, foreground, look).ks)
  {
    if foreground {
      ReopenAlone(s.ks);
      RescannedKeeps(Reopen(s.ks), look.listing, false);
      TakeKeeps(Looked(Woken(s), look.listing), look);
    } else {
      ReleaseAllAlone(s.ks);
    }
  }

  lemma SettledKeeps(s: Session, look: Look)
    requires Inv(s.ks)
    ensures Inv(Settled(s, look).ks)
  {
    KeepAlone(s.ks, Grabs);
    RescannedKeeps(DiscardRefusals(s.ks), look.listing, s.asleep);
    TakeKeeps(Looked(s.(ks := DiscardRefusals(s.ks)), look.listing), look);
  }

  lemma StepKeeps(s: Session, e: Event)
    requires Inv(s.ks)
    ensures Inv(Step(s, e).ks)
  {
    match e
    case Elsewhere(h) => HappenedKeeps(s.ks, h);
    case Console(foreground, look) => ConsoleKeeps(s, foreground, look);
    case ReadFails(path) => KeepAlone(s.ks, OtherThan(path));
    case DirectorySettles(look) => SettledKeeps(s, look);
    case KeyMoves(look) => TakeKeeps(s, look);
    case Rescan(listing) => RescannedKeeps(s.ks, listing, s.asleep);
    case Light(how) => LitAlone(s.ks, how);
  }

  /** Every device present repeats as it did before the program touched it. */
  ghost predicate AllRestored(k: Kernel) {
    forall id :: id in k.nodes ==> k.nodes[id].repeat == k.nodes[id].original
  }

  /** And shows the console's lights. */
  ghost predicate LightsRestored(k: Kernel) {
    forall id :: id in k.nodes ==> k.nodes[id].leds == k.nodes[id].lights
  }

  /** A program just started: nothing opened, nothing owed, and a machine that is as
      it should be. */
  ghost predicate Start(s: Session) {
    && s.ks.devices == [] && s.ks.outside.pipe == []
    && Consistent(s.ks.outside.kernel)
    && AllRestored(s.ks.outside.kernel) && LightsRestored(s.ks.outside.kernel)
  }

  /** At every boundary of every run the books are straight. */
  lemma {:induction false} RunKeeps(s: Session, events: seq<Event>)
    requires Inv(s.ks)
    ensures Inv(Run(s, events).ks)
  {
    if events != [] {
      RunKeeps(s, events[..|events| - 1]);
      StepKeeps(Run(s, events[..|events| - 1]), events[|events| - 1]);
    }
  }

  lemma StartIsSound(s: Session)
    requires Start(s)
    ensures Inv(s.ks)
  {}

  // -- however it ends ---------------------------------------------------------

  /** What the guardian does with what it was told: each path still there is opened
      and its repeat set; one that takes no repeat, or has gone, is passed over. */
  ghost function CleanedUp(k: Kernel, owed: map<Path, Repeat>): Kernel {
    k.(nodes := map id | id in k.nodes :: CleanedNode(k, owed, id))
  }

  ghost predicate Named(k: Kernel, owed: map<Path, Repeat>, id: Id, path: Path) {
    path in owed && path in k.at && k.at[path] == id
  }

  ghost function CleanedNode(k: Kernel, owed: map<Path, Repeat>, id: Id): Node
    requires id in k.nodes
  {
    if k.nodes[id].repeat.Some? && exists path :: Named(k, owed, id, path) then
      var path :| Named(k, owed, id, path);
      k.nodes[id].(repeat := Some(owed[path]))
    else k.nodes[id]
  }

  /** A path with an outstanding debt that now leads to another device, set otherwise
      than the debt says. */
  ghost predicate Misdirected(ks: Keyboards, path: Path) {
    var k := ks.outside.kernel;
    exists i :: 0 <= i < |ks.devices| && ks.devices[i].path == path && ks.devices[i].savedRepeat.Some?
      && path in k.at && k.at[path] in k.nodes && ks.devices[i].fd != Some(k.at[path])
      && k.nodes[k.at[path]].original.Some? && k.nodes[k.at[path]].original != ks.devices[i].savedRepeat
  }

  lemma CleanedNodeAt(k: Kernel, owed: map<Path, Repeat>, id: Id, path: Path)
    requires Consistent(k) && id in k.nodes && path in k.at && k.at[path] == id
    ensures CleanedNode(k, owed, id) == if path in owed && k.nodes[id].repeat.Some?
                                        then k.nodes[id].(repeat := Some(owed[path])) else k.nodes[id]
  {
    if path in owed {
      assert Named(k, owed, id, path);
    }
    assert forall q :: Named(k, owed, id, q) ==> q == path;
  }

  /** A path on file leads to a device of that repeat, and one that is not on file to no
      device left hushed. */
  ghost predicate SetRight(k: Kernel, owed: map<Path, Repeat>, path: Path) {
    path in k.at && k.at[path] in k.nodes ==>
      var node := k.nodes[k.at[path]];
      node.original == if path in owed && node.repeat.Some? then Some(owed[path]) else node.repeat
  }

  ghost predicate AllSetRight(k: Kernel, owed: map<Path, Repeat>) {
    forall path :: SetRight(k, owed, path)
  }

  /** Whatever debts are on file, the clean-up restores every device exactly then. */
  lemma RestoredExactly(k: Kernel, owed: map<Path, Repeat>)
    requires Consistent(k)
    ensures AllRestored(CleanedUp(k, owed)) <==> AllSetRight(k, owed)
  {
    var after := CleanedUp(k, owed);
    forall path | path in k.at
      ensures SetRight(k, owed, path) <==> after.nodes[k.at[path]].repeat == after.nodes[k.at[path]].original
    {
      CleanedNodeAt(k, owed, k.at[path], path);
    }
    forall id | id in k.nodes ensures exists path :: path in k.at && k.at[path] == id {}
  }

  /** One device after the guardian has done its work. */
  lemma CleanedRight(ks: Keyboards, id: Id, path: Path)
    requires Inv(ks) && id in ks.outside.kernel.nodes
    requires path in ks.outside.kernel.at && ks.outside.kernel.at[path] == id
    ensures var node := CleanedNode(ks.outside.kernel, Owed(ks.outside.pipe), id);
            node.repeat == ks.outside.kernel.nodes[id].original <==> !Misdirected(ks, path)
  {
    var k, owed := ks.outside.kernel, Owed(ks.outside.pipe);
    CleanedNodeAt(k, owed, id, path);
    forall j | 0 <= j < |ks.devices| && Hushes(ks.devices[j], id) ensures ks.devices[j].path == path {
      assert Live(ks.devices[j], k);
    }
    if path in owed {
      var i :| 0 <= i < |ks.devices| && ks.devices[i].path == path && ks.devices[i].savedRepeat == Some(owed[path]);
      assert forall j :: 0 <= j < |ks.devices| && ks.devices[j].path == path ==> j == i;
      if ks.devices[i].fd == Some(id) {
        assert Live(ks.devices[i], k);
      }
    }
  }

  /** Killed at any boundary of any run, the program leaves every device present with
      its own repeat once the guardian has cleaned up - exactly unless a keyboard
      went while its debt stood and another, set differently, took its path before
      the loss was noticed. */
  lemma DeathIsRepaired(start: Session, events: seq<Event>)
    requires Start(start)
    ensures var ks := Run(start, events).ks;
            AllRestored(CleanedUp(ks.outside.kernel, Owed(ks.outside.pipe)))
            <==> forall path :: !Misdirected(ks, path)
  {
    StartIsSound(start);
    RunKeeps(start, events);
    var ks := Run(start, events).ks;
    RepairedUnlessMisdirected(ks);
  }

  lemma RepairedUnlessMisdirected(ks: Keyboards)
    requires Inv(ks)
    ensures AllRestored(CleanedUp(ks.outside.kernel, Owed(ks.outside.pipe)))
       <==> forall path :: !Misdirected(ks, path)
  {
    var k, owed := ks.outside.kernel, Owed(ks.outside.pipe);
    var after := CleanedUp(k, owed);
    forall id | id in k.nodes
      ensures after.nodes[id].original == k.nodes[id].original
      ensures forall path :: path in k.at && k.at[path] == id ==>
        (after.nodes[id].repeat == after.nodes[id].original <==> !Misdirected(ks, path))
    {
      forall path | path in k.at && k.at[path] == id
        ensures after.nodes[id].repeat == after.nodes[id].original <==> !Misdirected(ks, path)
      {
        CleanedRight(ks, id, path);
      }
    }
  }

  // -- a run that goes wrong ---------------------------------------------------

  const FIRST: Repeat := Repeat(250, 33)
  const OTHER: Repeat := Repeat(500, 40)

  function Standard(repeat: Repeat): Node { Node(Some(repeat), Some(repeat), 0, 0, false, {}) }

  const SEEN: Listing := Listing(["e"], {"e"})

  /** One keyboard plugged in, and the program not yet in front. */
  const BEGIN: Session :=
    Session(Keyboards([], Outside(Kernel(map[0 := Standard(FIRST)], map["e" := 0], 1), [])), false, false, false, 0)

  /** In front, it takes that keyboard; which goes, and another takes its path. */
  const REPLUGGED: seq<Event> :=
    [Console(true, Look(SEEN, [], SEEN, [])), Elsewhere(Unplug("e")), Elsewhere(Plug("e", Standard(OTHER)))]

  const HELD: Device := Device("e", Some(0), true, true, false, true, Some(0), Some(FIRST))

  /** A session with no keyboards comes to the front and finds one, with no key down. */
  lemma TakesOne(s: Session, path: Path, look: Look)
    requires s.ks.devices == [] && !s.foreground && look.listing == Listing([path], {path})
    requires var k := s.ks.outside.kernel; path in k.at && k.at[path] in k.nodes && k.nodes[k.at[path]].down == {}
    requires !s.ks.outside.kernel.nodes[s.ks.outside.kernel.at[path]].elsewhere
    ensures var d := OpenDevice(path, s.ks.outside.kernel);
            SetForeground(s, true, look).ks
            == Keyboards([GrabOne(d, s.ks.outside).0], GrabOne(d, s.ks.outside).1)
  {
    var o := s.ks.outside;
    var d := OpenDevice(path, o.kernel);
    assert Reopen(s.ks) == s.ks && s.ks == Keyboards([], o);
    OneDiscovered(s.ks, path);
    OneKept(d, o, Among({path}));
    var looked := Looked(Woken(s), look.listing);
    assert looked.ks == Keyboards([d], o);
    OneHeldKeys(d, o);
    OneGrabbed(d, o);
  }

  lemma OneDiscovered(ks: Keyboards, path: Path)
    requires ks.devices == [] && path in ks.outside.kernel.at && ks.outside.kernel.at[path] in ks.outside.kernel.nodes
    ensures Discovered(ks, [path], false) == Keyboards([OpenDevice(path, ks.outside.kernel)], ks.outside)
  {
    assert [path][..0] == [] && Discovered(ks, [], false) == ks;
  }

  lemma OneHeldKeys(d: Device, o: Outside)
    requires Live(d, o.kernel)
    ensures HeldKeys(Keyboards([d], o)) == o.kernel.nodes[d.fd.value].down
  {
    assert Keyboards([d], o).(devices := [d][..0]) == Keyboards([], o);
    assert HeldKeys(Keyboards([], o)) == {};
  }

  /** The first keyboard as the console change takes it. */
  lemma TakenFirst()
    ensures Step(BEGIN, Console(true, Look(SEEN, [], SEEN, []))).ks == TOOK
  {
    TakesOne(BEGIN, "e", Look(SEEN, [], SEEN, []));
    TookIt();
  }

  const TOOK: Keyboards :=
    Keyboards([HELD], Outside(Kernel(map[0 := Standard(FIRST).(repeat := Some(HUSHED))], map["e" := 0], 1),
                              [Owe("e", FIRST)]))

  lemma TookIt()
    ensures var o := BEGIN.ks.outside;
            var d := OpenDevice("e", o.kernel);
            TOOK == Keyboards([GrabOne(d, o).0], GrabOne(d, o).1)
  {
    var o := BEGIN.ks.outside;
    var d := OpenDevice("e", o.kernel);
    assert GrabOne(d, o).0 == HELD;
    assert [] + [Owe("e", FIRST)] == [Owe("e", FIRST)];
    assert GrabOne(d, o).1.kernel.nodes == TOOK.outside.kernel.nodes;
  }

  lemma OneKept(d: Device, o: Outside, which: Criterion)
    requires Meets(d, which)
    ensures Keep(Keyboards([d], o), which) == Keyboards([d], o)
  {
    assert Keep(Keyboards([], o), which) == Keyboards([], o);
    assert Keyboards([d], o).(devices := [d][..0]) == Keyboards([], o);
  }

  lemma OneGrabbed(d: Device, o: Outside)
    ensures GrabAll(Keyboards([d], o)) == Keyboards([GrabOne(d, o).0], GrabOne(d, o).1)
    ensures Lost(Keyboards([d], o)) == (!Grabbed(d, o.kernel).1 && d.wasHeld)
  {
    assert GrabAll(Keyboards([], o)) == Keyboards([], o) && !Lost(Keyboards([], o));
    assert Keyboards([d], o).(devices := [d][..0]) == Keyboards([], o);
  }

  lemma RunOfThree(s: Session, a: Event, b: Event, c: Event)
    ensures Run(s, [a, b, c]) == Step(Step(Step(s, a), b), c)
  {
    assert [a, b, c][..2] == [a, b] && [a, b][..1] == [a] && [a][..0] == [];
    assert Run(s, [a]) == Step(Run(s, []), a) && Run(s, []) == s;
    assert Run(s, [a, b]) == Step(Run(s, [a]), b);
  }

  /** Where that run ends. */
  const MISLED: Keyboards :=
    Keyboards([HELD], Outside(Kernel(map[1 := Standard(OTHER)], map["e" := 1], 2), [Owe("e", FIRST)]))

  lemma Replugged()
    ensures Run(BEGIN, REPLUGGED).ks == MISLED
  {
    RunOfThree(BEGIN, REPLUGGED[0], REPLUGGED[1], REPLUGGED[2]);
    assert REPLUGGED == [REPLUGGED[0], REPLUGGED[1], REPLUGGED[2]];
    TakenFirst();
    ElsewhereTwice(Step(BEGIN, REPLUGGED[0]), Unplug("e"), Plug("e", Standard(OTHER)));
    SwappedUnderHeld();
  }

  lemma ElsewhereTwice(s: Session, a: Happening, b: Happening)
    ensures Step(Step(s, Elsewhere(a)), Elsewhere(b)).ks == Happened(Happened(s.ks, a), b)
  {}

  lemma SwappedUnderHeld()
    ensures Happened(Happened(TOOK, Unplug("e")), Plug("e", Standard(OTHER))) == MISLED
  {
    assert Happened(TOOK, Unplug("e")).outside.kernel == Kernel(map[], map[], 1);
  }

  lemma MisledIsMisdirected()
    ensures Misdirected(MISLED, "e")
  {
    assert MISLED.devices[0] == HELD;
  }

  lemma BeginIsStart()
    ensures Start(BEGIN)
  {
    assert BEGIN.ks.outside.kernel.at["e"] == 0;
  }

  /** The corner that condition excludes, as a run: killed at the end of it, the
      program leaves the second keyboard with the first one's repeat. */
  lemma ReusedPathIsMisdirected()
    ensures Start(BEGIN) && Misdirected(Run(BEGIN, REPLUGGED).ks, "e")
    ensures var ks := Run(BEGIN, REPLUGGED).ks;
            !AllRestored(CleanedUp(ks.outside.kernel, Owed(ks.outside.pipe)))
  {
    Replugged();
    BeginIsStart();
    MisledIsMisdirected();
    DeathIsRepaired(BEGIN, REPLUGGED);
  }

  /** The guardian is told nothing of the lights: killed, the program leaves them as
      the console had them exactly if every keyboard it holds shows those already. */
  lemma DeathKeepsLights(start: Session, events: seq<Event>)
    requires Start(start)
    ensures var ks := Run(start, events).ks;
            LightsRestored(CleanedUp(ks.outside.kernel, Owed(ks.outside.pipe))) <==>
            forall i :: 0 <= i < |ks.devices| && ks.devices[i].grabbed && Live(ks.devices[i], ks.outside.kernel) ==>
              Some(LedsOf(ks.devices[i], ks.outside.kernel)) == ks.devices[i].savedLeds
  {
    StartIsSound(start);
    RunKeeps(start, events);
    var ks := Run(start, events).ks;
    var k := ks.outside.kernel;
    var after := CleanedUp(k, Owed(ks.outside.pipe));
    assert forall id :: id in k.nodes ==>
      after.nodes[id].leds == k.nodes[id].leds && after.nodes[id].lights == k.nodes[id].lights;
    forall id | id in k.nodes && k.nodes[id].leds != k.nodes[id].lights
      ensures exists i :: 0 <= i < |ks.devices| && Lights(ks.devices[i], id)
    {
      assert LitByUs(ks.devices, id);
    }
  }

  /** In front, it takes a keyboard, and the phone turns a lock on. */
  const LIT: seq<Event> := [Console(true, Look(SEEN, [], SEEN, [])), Light(OfPhone(2))]

  lemma OneLit(d: Device, o: Outside, how: Lighting)
    ensures Lit(Keyboards([d], o), how) == Keyboards([d], o.(kernel := LitOne(d, o.kernel, how)))
  {
    assert Lit(Keyboards([], o), how) == Keyboards([], o);
    assert Keyboards([d], o).(devices := [d][..0]) == Keyboards([], o);
  }

  lemma RunOfTwo(s: Session, a: Event, b: Event)
    ensures Run(s, [a, b]) == Step(Step(s, a), b)
  {
    assert [a, b][..1] == [a] && [a][..0] == [];
    assert Run(s, [a]) == Step(Run(s, []), a) && Run(s, []) == s;
  }

  /** Lit by its second event, whatever the first was. */
  lemma LitSecond(s: Session, a: Event, how: Lighting, d: Device, o: Outside)
    requires Step(s, a).ks == Keyboards([d], o)
    ensures Run(s, [a, Light(how)]).ks == Keyboards([d], o.(kernel := LitOne(d, o.kernel, how)))
  {
    RunOfTwo(s, a, Light(how));
    OneLit(d, o, how);
  }

  lemma LitRun()
    ensures Run(BEGIN, LIT).ks
         == Keyboards([HELD], TOOK.outside.(kernel := LitOne(HELD, TOOK.outside.kernel, OfPhone(2))))
  {
    TakenFirst();
    LitSecond(BEGIN, Console(true, Look(SEEN, [], SEEN, [])), OfPhone(2), HELD, TOOK.outside);
  }

  /** The run it fails on: killed then, that light is left on. */
  lemma LightIsLeftOn()
    ensures Start(BEGIN)
    ensures var ks := Run(BEGIN, LIT).ks;
            !LightsRestored(CleanedUp(ks.outside.kernel, Owed(ks.outside.pipe)))
  {
    BeginIsStart();
    LitRun();
    DeathKeepsLights(BEGIN, LIT);
    var ks := Run(BEGIN, LIT).ks;
    assert ks.devices[0] == HELD && Live(HELD, ks.outside.kernel) && LedsOf(HELD, ks.outside.kernel) == 2;
  }

  /** Stopped in order, it leaves every device as it was with nobody's help, and the
      guardian with nothing to do. */
  lemma QuitRestores(start: Session, events: seq<Event>)
    requires Start(start)
    ensures var ks := Quit(Run(start, events)).ks;
            AllRestored(ks.outside.kernel) && LightsRestored(ks.outside.kernel) && Owed(ks.outside.pipe) == map[]
  {
    StartIsSound(start);
    RunKeeps(start, events);
    ReleaseAllAlone(Run(start, events).ks);
  }

  // -- in the background ---------------------------------------------------------

  ghost predicate NoneGrabbed(devices: seq<Device>) {
    forall i :: 0 <= i < |devices| ==> !devices[i].grabbed
  }

  /** While another console is in front, no keyboard is held. */
  ghost predicate HandsOff(s: Session) {
    s.foreground || NoneGrabbed(s.ks.devices)
  }

  lemma {:induction false} ReleaseAllReleases(ks: Keyboards)
    ensures NoneGrabbed(ReleaseAll(ks).devices)
    decreases |ks.devices|
  {
    if ks.devices != [] {
      ReleaseAllReleases(ks.(devices := ks.devices[..|ks.devices| - 1]));
    }
  }

  /** Looking around opens keyboards and takes none. */
  lemma {:induction false} DiscoveredAreNew(ks: Keyboards, listing: seq<Path>, asleep: bool)
    ensures forall d :: d in Discovered(ks, listing, asleep).devices ==>
      d in ks.devices || (!d.grabbed && !d.wasHeld)
    decreases |listing|
  {
    if listing != [] {
      DiscoveredAreNew(ks, listing[..|listing| - 1], asleep);
    }
  }

  lemma RescannedAreNew(ks: Keyboards, listing: Listing, asleep: bool)
    ensures forall d :: d in Rescanned(ks, listing, asleep).devices ==>
      d in ks.devices || (!d.grabbed && !d.wasHeld)
  {
    DiscoveredAreNew(ks, listing.found, asleep);
    KeptMeet(Discovered(ks, listing.found, asleep), Among(listing.present));
  }

  lemma NoneGrabbedAmong(devices: seq<Device>, after: seq<Device>)
    requires NoneGrabbed(devices)
    requires forall d :: d in after ==> d in devices || (!d.grabbed && !d.wasHeld)
    ensures NoneGrabbed(after)
  {
    forall i | 0 <= i < |after| ensures !after[i].grabbed {
      assert after[i] in after;
    }
  }

  lemma StepHandsOff(s: Session, e: Event)
    requires Inv(s.ks) && HandsOff(s)
    ensures HandsOff(Step(s, e))
  {
    match e
    case Elsewhere(h) => HappenedKeeps(s.ks, h);
    case Console(foreground, look) => ReleaseAllReleases(s.ks);
    case ReadFails(path) =>
      KeptMeet(s.ks, OtherThan(path));
      if !s.foreground { NoneGrabbedAmong(s.ks.devices, Forget(s.ks, path).devices); }
    case DirectorySettles(look) =>
      if !s.foreground {
        KeptMeet(s.ks, Grabs);
        NoneGrabbedAmong(s.ks.devices, DiscardRefusals(s.ks).devices);
        RescannedAreNew(DiscardRefusals(s.ks), look.listing, s.asleep);
        var kept := DiscardRefusals(s.ks);
        NoneGrabbedAmong(kept.devices, Rescanned(kept, look.listing, s.asleep).devices);
      }
    case KeyMoves(look) =>
    case Rescan(listing) =>
      if !s.foreground {
        RescannedAreNew(s.ks, listing, s.asleep);
        NoneGrabbedAmong(s.ks.devices, Rescanned(s.ks, listing, s.asleep).devices);
      }
    case Light(how) => LitAlone(s.ks, how);
  }

  lemma {:induction false} RunHandsOff(s: Session, events: seq<Event>)
    requires Inv(s.ks) && HandsOff(s)
    ensures HandsOff(Run(s, events))
  {
    if events != [] {
      RunHandsOff(s, events[..|events| - 1]);
      RunKeeps(s, events[..|events| - 1]);
      StepHandsOff(Run(s, events[..|events| - 1]), events[|events| - 1]);
    }
  }

  /** Whenever another console is in front, the machine is exactly as it would be
      without the program, and the guardian has nothing against its name. */
  lemma BackgroundOwesNothing(start: Session, events: seq<Event>)
    requires Start(start)
    requires !Run(start, events).foreground
    ensures var ks := Run(start, events).ks;
            AllRestored(ks.outside.kernel) && LightsRestored(ks.outside.kernel) && Owed(ks.outside.pipe) == map[]
  {
    StartIsSound(start);
    RunKeeps(start, events);
    RunHandsOff(start, events);
    var ks := Run(start, events).ks;
    NothingHeldNothingOwed(ks);
  }

  lemma NothingHeldNothingOwed(ks: Keyboards)
    requires Inv(ks) && NoneGrabbed(ks.devices)
    ensures AllRestored(ks.outside.kernel) && LightsRestored(ks.outside.kernel) && Owed(ks.outside.pipe) == map[]
  {
    var owed := Owed(ks.outside.pipe);
    assert forall i :: 0 <= i < |ks.devices| ==>
      Sound(ks.devices[i]) && ks.devices[i].savedRepeat.None? && ks.devices[i].savedLeds.None?;
    assert forall path :: path in owed ==> Owes(ks.devices, path, owed[path]);
    assert forall path, repeat :: !Owes(ks.devices, path, repeat);
  }

  // -- the second look ---------------------------------------------------------

  /** Held already, or never held: nothing here can be lost. */
  ghost predicate NothingToLose(devices: seq<Device>) {
    forall d :: d in devices ==> d.grabbed || !d.wasHeld
  }

  lemma {:induction false} NothingLost(ks: Keyboards)
    requires NothingToLose(ks.devices)
    ensures !Lost(ks)
    decreases |ks.devices|
  {
    if ks.devices != [] {
      var n := |ks.devices| - 1;
      assert ks.devices[n] in ks.devices;
      NothingLost(ks.(devices := ks.devices[..n]));
    }
  }

  /** A keyboard held is never let go of by grabbing. */
  lemma {:induction false} HeldStaysHeld(ks: Keyboards, i: nat)
    requires i < |ks.devices| && ks.devices[i].grabbed
    ensures i < |GrabAll(ks).devices|
    ensures var d := GrabAll(ks).devices[i]; d.grabbed && d.path == ks.devices[i].path && d.fd == ks.devices[i].fd
    decreases |ks.devices|
  {
    var n := |ks.devices| - 1;
    var front := ks.(devices := ks.devices[..n]);
    GrabAllLength(front);
    GrabAllNext(ks);
    if i < n {
      HeldStaysHeld(front, i);
    } else {
      HeldIsKept(ks.devices[n], GrabAll(front).outside);
    }
  }

  lemma HeldIsKept(d: Device, o: Outside)
    requires d.grabbed
    ensures var kept := GrabOne(d, o).0; kept.grabbed && kept.path == d.path && kept.fd == d.fd
  {}

  lemma GrabAllNext(ks: Keyboards)
    requires ks.devices != []
    ensures var front := GrabAll(ks.(devices := ks.devices[..|ks.devices| - 1]));
            GrabAll(ks).devices == front.devices + [GrabOne(ks.devices[|ks.devices| - 1], front.outside).0]
  {}

  lemma {:induction false} GrabAllLength(ks: Keyboards)
    ensures |GrabAll(ks).devices| == |ks.devices|
    decreases |ks.devices|
  {
    if ks.devices != [] {
      GrabAllLength(ks.(devices := ks.devices[..|ks.devices| - 1]));
    }
  }

  lemma SecondLookLosesNothing(ks: Keyboards, asleep: bool, look: Look)
    requires Inv(ks)
    ensures !Lost(SecondLook(ks, asleep, look))
  {
    var kept := DiscardRefusals(GrabAll(ks));
    GrabAllAlone(ks);
    KeepAlone(GrabAll(ks), Grabs);
    KeptMeet(GrabAll(ks), Grabs);
    AllHappenedKeep(kept, look.between);
    var anew := AllHappened(kept, look.between);
    RescannedAreNew(anew, look.again, asleep);
    RescannedKeeps(anew, look.again, asleep);
    AllHappenedKeep(Rescanned(anew, look.again, asleep), look.meanwhile);
    assert NothingToLose(SecondLook(ks, asleep, look).devices);
    NothingLost(SecondLook(ks, asleep, look));
  }

  /** A keyboard held, at this path and through this descriptor. */
  ghost predicate HeldAt(ks: Keyboards, path: Path, fd: Option<Id>) {
    exists i :: 0 <= i < |ks.devices| && ks.devices[i].grabbed && ks.devices[i].path == path && ks.devices[i].fd == fd
  }

  lemma GrabbingHolds(ks: Keyboards, path: Path, fd: Option<Id>)
    requires HeldAt(ks, path, fd)
    ensures HeldAt(GrabAll(ks), path, fd)
  {
    var i :| 0 <= i < |ks.devices| && ks.devices[i].grabbed && ks.devices[i].path == path && ks.devices[i].fd == fd;
    HeldStaysHeld(ks, i);
  }

  lemma RescanningHolds(ks: Keyboards, listing: Listing, asleep: bool, path: Path, fd: Option<Id>)
    requires HeldAt(ks, path, fd) && path in listing.present
    ensures HeldAt(Rescanned(ks, listing, asleep), path, fd)
  {
    var i :| 0 <= i < |ks.devices| && ks.devices[i].grabbed && ks.devices[i].path == path && ks.devices[i].fd == fd;
    DiscoveringHolds(ks, listing.found, asleep);
    KeepingHolds(Discovered(ks, listing.found, asleep), Among(listing.present), ks.devices[i]);
  }

  lemma DiscardingHolds(ks: Keyboards, path: Path, fd: Option<Id>)
    requires HeldAt(ks, path, fd)
    ensures HeldAt(DiscardRefusals(ks), path, fd)
  {
    var i :| 0 <= i < |ks.devices| && ks.devices[i].grabbed && ks.devices[i].path == path && ks.devices[i].fd == fd;
    KeepingHolds(ks, Grabs, ks.devices[i]);
  }

  lemma {:induction false} TheWorldHolds(ks: Keyboards, hs: seq<Happening>, path: Path, fd: Option<Id>)
    requires HeldAt(ks, path, fd)
    ensures HeldAt(AllHappened(ks, hs), path, fd)
    decreases |hs|
  {
    if hs != [] {
      TheWorldHolds(ks, hs[..|hs| - 1], path, fd);
      HappenedOutside(AllHappened(ks, hs[..|hs| - 1]), hs[|hs| - 1]);
    }
  }

  /** What the first pass holds and is still listed is held through the second look. */
  lemma SecondLookHolds(ks: Keyboards, asleep: bool, look: Look, path: Path, fd: Option<Id>)
    requires HeldAt(GrabAll(ks), path, fd) && path in look.again.present
    ensures HeldAt(SecondLook(ks, asleep, look), path, fd)
  {
    DiscardingHolds(GrabAll(ks), path, fd);
    TheWorldHolds(DiscardRefusals(GrabAll(ks)), look.between, path, fd);
    var anew := AllHappened(DiscardRefusals(GrabAll(ks)), look.between);
    RescanningHolds(anew, look.again, asleep, path, fd);
    TheWorldHolds(Rescanned(anew, look.again, asleep), look.meanwhile, path, fd);
  }

  // -- the modifiers adopted -----------------------------------------------------

  /** Down on some keyboard that is open and there. */
  ghost predicate DownSomewhere(ks: Keyboards, code: Keycode) {
    exists i :: 0 <= i < |ks.devices| && DownOn(ks.devices[i], ks.outside.kernel, code)
  }

  predicate DownOn(d: Device, k: Kernel, code: Keycode) {
    Live(d, k) && code in k.nodes[d.fd.value].down
  }

  lemma {:induction false} HeldKeysAreDown(ks: Keyboards, code: Keycode)
    ensures code in HeldKeys(ks) <==> DownSomewhere(ks, code)
    decreases |ks.devices|
  {
    if ks.devices != [] {
      var n := |ks.devices| - 1;
      var front := ks.(devices := ks.devices[..n]);
      HeldKeysAreDown(front, code);
      if DownSomewhere(front, code) {
        var i :| 0 <= i < n && DownOn(front.devices[i], ks.outside.kernel, code);
        assert ks.devices[i] == front.devices[i];
      }
      if DownSomewhere(ks, code) {
        var i :| 0 <= i < |ks.devices| && DownOn(ks.devices[i], ks.outside.kernel, code);
        if i < n {
          assert front.devices[i] == ks.devices[i];
        }
      }
    }
  }

  /** Each modifier's bit says whether it is physically held. */
  ghost predicate Adopted(s: Session) {
    forall m :: m in MODIFIERS ==> (s.modifiers & MODIFIERS[m] != 0 <==> DownSomewhere(s.ks, m))
  }

  lemma SyncedIsAdopted(s: Session)
    ensures Adopted(Synced(s))
  {
    forall m | m in MODIFIERS ensures Synced(s).modifiers & MODIFIERS[m] != 0 <==> DownSomewhere(s.ks, m) {
      ModifiersAreExact(HeldKeys(s.ks), m);
      HeldKeysAreDown(s.ks, m);
    }
  }

  /** Taking the keyboards with no key down: however much the world changes while we
      look around after a loss, the second look reports none, so there is never a
      third; what the first pass holds and is still listed stays held; and the modifiers
      are the ones held on the keyboards there are in the end. */
  lemma SecondLookIsLast(s: Session, look: Look)
    requires Inv(s.ks) && HeldKeys(s.ks) == {}
    ensures var after := TakeKeyboards(s, look);
            && !after.waiting && Adopted(after)
            && !Lost(if Lost(s.ks) then SecondLook(s.ks, s.asleep, look) else s.ks)
            && forall path, fd :: HeldAt(GrabAll(s.ks), path, fd) && (Lost(s.ks) ==> path in look.again.present) ==>
                 HeldAt(after.ks, path, fd)
  {
    var last := if Lost(s.ks) then SecondLook(s.ks, s.asleep, look) else s.ks;
    SecondLookLosesNothing(s.ks, s.asleep, look);
    SyncedIsAdopted(s.(ks := GrabAll(last), waiting := false));
    forall path, fd | HeldAt(GrabAll(s.ks), path, fd) && (Lost(s.ks) ==> path in look.again.present)
      ensures HeldAt(GrabAll(last), path, fd)
    {
      if Lost(s.ks) {
        SecondLookHolds(s.ks, s.asleep, look, path, fd);
        GrabbingHolds(last, path, fd);
      }
    }
  }

  /** A keyboard dropped, by a failed read or a rescan that lists it no longer, leaves
      the modifiers to those that remain; a rescan that drops none leaves them alone. */
  lemma DroppingIsAdopted(s: Session, path: Path, listing: Listing)
    ensures Adopted(Dropped(s, path))
    ensures Drops(s.ks, listing, s.asleep) ==> Adopted(Looked(s, listing))
    ensures !Drops(s.ks, listing, s.asleep) ==> Looked(s, listing).modifiers == s.modifiers
  {
    SyncedIsAdopted(s.(ks := Forget(s.ks, path)));
    SyncedIsAdopted(s.(ks := Rescanned(s.ks, listing, s.asleep)));
  }
}
