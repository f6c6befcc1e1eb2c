/** When the keyboards are taken and which of them come: never while a key is down, and
    then every one that nobody else has. */
module Taking {
  import opened Wrappers
  import opened Keycodes
  import opened Ledger
  import opened LedgerInvariant
  import opened Grabbing

  // -- what one pass of grabbing holds -----------------------------------------

  /** The same devices at the same paths, with the same keys down and the same of them in
      other hands. */
  ghost predicate Alike(k: Kernel, k': Kernel) {
    && k'.at == k.at && k'.nodes.Keys == k.nodes.Keys
    && forall id :: id in k.nodes ==>
         k'.nodes[id].elsewhere == k.nodes[id].elsewhere && k'.nodes[id].down == k.nodes[id].down
  }

  lemma GrabOneAlike(d: Device, o: Outside)
    ensures Alike(o.kernel, GrabOne(d, o).1.kernel)
  {}

  lemma {:induction false} GrabAllAlike(ks: Keyboards)
    ensures Alike(ks.outside.kernel, GrabAll(ks).outside.kernel)
    decreases |ks.devices|
  {
    if ks.devices != [] {
      var n := |ks.devices| - 1;
      var front := ks.(devices := ks.devices[..n]);
      GrabAllAlike(front);
      GrabOneAlike(ks.devices[n], GrabAll(front).outside);
    }
  }

  /** There, and in nobody else's hands. */
  predicate Free(d: Device, k: Kernel) {
    d.fd.Some? && d.fd.value in k.nodes && !k.nodes[d.fd.value].elsewhere
  }

  /** What a keyboard becomes: held through the same descriptor if it was, or is free, and
      closed otherwise. */
  ghost predicate Comes(d: Device, k: Kernel, d': Device) {
    && d'.path == d.path
    && if d.grabbed || Free(d, k) then d'.grabbed && d'.fd == d.fd else !d'.grabbed && d'.fd.None? && d'.refused
  }

  lemma OneComes(d: Device, o: Outside, k: Kernel)
    requires Alike(k, o.kernel)
    ensures Comes(d, k, GrabOne(d, o).0)
    ensures Grabbed(d, o.kernel).1 <==> d.grabbed || Free(d, k)
  {}

  /** One pass holds every keyboard that was held or is free, and no other. */
  lemma {:induction false} GrabAllHolds(ks: Keyboards, i: nat)
    requires i < |ks.devices|
    ensures i < |GrabAll(ks).devices| == |ks.devices|
    ensures Comes(ks.devices[i], ks.outside.kernel, GrabAll(ks).devices[i])
    decreases |ks.devices|
  {
    var n := |ks.devices| - 1;
    var front := ks.(devices := ks.devices[..n]);
    GrabAllAlike(front);
    GrabAllLength(ks);
    GrabAllLength(front);
    GrabAllNext(ks);
    if i < n {
      GrabAllHolds(front, i);
    } else {
      OneComes(ks.devices[n], GrabAll(front).outside, ks.outside.kernel);
    }
  }

  /** A keyboard that was ours once, is not now, and is not free. */
  predicate Gone(d: Device, k: Kernel) { d.wasHeld && !d.grabbed && !Free(d, k) }

  ghost predicate LosesOne(ks: Keyboards) {
    exists i :: 0 <= i < |ks.devices| && Gone(ks.devices[i], ks.outside.kernel)
  }

  lemma {:induction false} LostIsLosing(ks: Keyboards)
    ensures Lost(ks) <==> LosesOne(ks)
    decreases |ks.devices|
  {
    if ks.devices != [] {
      var n := |ks.devices| - 1;
      var front := ks.(devices := ks.devices[..n]);
      LostIsLosing(front);
      GrabAllAlike(front);
      OneComes(ks.devices[n], GrabAll(front).outside, ks.outside.kernel);
      assert forall i :: 0 <= i < n ==> front.devices[i] == ks.devices[i];
      if Gone(ks.devices[n], ks.outside.kernel) {
        assert LosesOne(ks);
      }
    }
  }

  // -- as an event finds them --------------------------------------------------

  /** The events that want the keyboards: coming to the front, a change in the directory
      while in front, and a key moving while they are waited for. */
  predicate Wants(s: Session, e: Event) {
    match e
    case Console(foreground, _) => foreground && !s.foreground
    case DirectorySettles(_) => s.foreground
    case KeyMoves(_) => s.foreground && s.waiting
    case _ => false
  }

  /** The keyboards as such an event finds them, before any is taken. */
  ghost function Found(s: Session, e: Event): Keyboards
    requires Wants(s, e)
  {
    match e
    case Console(_, look) => Rescanned(Reopen(s.ks), look.listing, false)
    case DirectorySettles(look) => Rescanned(DiscardRefusals(s.ks), look.listing, s.asleep)
    case _ => s.ks
  }

  function LookOf(e: Event): Look
    requires e.Console? || e.DirectorySettles? || e.KeyMoves?
  {
    e.look
  }

  ghost predicate NoneDown(ks: Keyboards) {
    forall code :: !DownSomewhere(ks, code)
  }

  lemma Member<T>(s: set<T>) returns (x: T)
    requires s != {}
    ensures x in s
  {
    x :| x in s;
  }

  lemma NoKeysHeld(ks: Keyboards)
    ensures HeldKeys(ks) == {} <==> NoneDown(ks)
  {
    if HeldKeys(ks) != {} {
      var code := Member(HeldKeys(ks));
      HeldKeysAreDown(ks, code);
    }
    if !NoneDown(ks) {
      var code :| DownSomewhere(ks, code);
      HeldKeysAreDown(ks, code);
    }
  }

  /** Held in the one and not in the other. */
  ghost predicate GrabsAnew(before: Keyboards, after: Keyboards) {
    exists path, fd :: HeldAt(after, path, fd) && !HeldAt(before, path, fd)
  }

  /** Every keyboard here is one of those, or not held. */
  ghost predicate NoMoreHeld(before: seq<Device>, after: seq<Device>) {
    forall d :: d in after && d.grabbed ==> d in before
  }

  lemma NothingAnew(before: Keyboards, after: Keyboards)
    requires NoMoreHeld(before.devices, after.devices)
    ensures !GrabsAnew(before, after)
  {
    forall path, fd | HeldAt(after, path, fd) ensures HeldAt(before, path, fd) {
      var i :| 0 <= i < |after.devices| && after.devices[i].grabbed
        && after.devices[i].path == path && after.devices[i].fd == fd;
      assert after.devices[i] in after.devices;
    }
  }

  lemma {:induction false} ReopenedHoldsNone(ks: Keyboards)
    requires forall i :: 0 <= i < |ks.devices| ==> Sound(ks.devices[i])
    ensures NoMoreHeld(ks.devices, Reopen(ks).devices)
    decreases |ks.devices|
  {
    if ks.devices != [] {
      ReopenedHoldsNone(ks.(devices := ks.devices[..|ks.devices| - 1]));
    }
  }

  lemma FoundHoldsNone(s: Session, e: Event)
    requires Inv(s.ks) && Wants(s, e)
    ensures NoMoreHeld(s.ks.devices, Found(s, e).devices)
  {
    match e
    case Console(_, look) =>
      ReopenedHoldsNone(s.ks);
      RescannedAreNew(Reopen(s.ks), look.listing, false);
    case DirectorySettles(look) =>
      KeptMeet(s.ks, Grabs);
      RescannedAreNew(DiscardRefusals(s.ks), look.listing, s.asleep);
    case _ =>
  }

  /** Such an event takes the keyboards as it finds them. */
  lemma WantsTakes(s: Session, e: Event) returns (begun: Session)
    requires Inv(s.ks) && Wants(s, e)
    ensures begun.ks == Found(s, e) && begun.foreground && Inv(begun.ks)
    ensures begun.asleep == (s.asleep && !e.Console?)
    ensures Step(s, e) == TakeKeyboards(begun, LookOf(e))
  {
    match e
    case Console(_, look) =>
      begun := Looked(Woken(s), look.listing);
      ReopenAlone(s.ks);
      RescannedKeeps(Reopen(s.ks), look.listing, false);
    case DirectorySettles(look) =>
      begun := Looked(s.(ks := DiscardRefusals(s.ks)), look.listing);
      KeepAlone(s.ks, Grabs);
      RescannedKeeps(DiscardRefusals(s.ks), look.listing, s.asleep);
    case KeyMoves(look) =>
      begun := s;
      assert HeldKeys(s.ks) != {} ==> s.(waiting := true) == s;
  }

  /** Any other grabs nothing. */
  lemma OthersTakeNothing(s: Session, e: Event)
    requires Inv(s.ks) && !Wants(s, e)
    ensures NoMoreHeld(s.ks.devices, Step(s, e).ks.devices)
    ensures !(e.Console? && !e.foreground) ==> Step(s, e).waiting == s.waiting && Step(s, e).foreground == s.foreground
  {
    match e
    case Elsewhere(h) => HappenedOutside(s.ks, h);
    case Console(foreground, look) => ReleaseAllReleases(s.ks);
    case ReadFails(path) => KeptMeet(s.ks, OtherThan(path));
    case DirectorySettles(look) =>
      KeptMeet(s.ks, Grabs);
      RescannedAreNew(DiscardRefusals(s.ks), look.listing, s.asleep);
    case KeyMoves(look) =>
    case Rescan(listing) => RescannedAreNew(s.ks, listing, s.asleep);
    case Light(how) => LitAlone(s.ks, how);
  }

  // -- never with a key down ---------------------------------------------------

  /** Whatever happens, a keyboard is grabbed only by an event that wants them, and only
      when no key is down on any of them as it finds them. */
  lemma GrabsWithKeysUp(start: Session, events: seq<Event>, e: Event)
    requires Start(start)
    ensures var s := Run(start, events);
            GrabsAnew(s.ks, Step(s, e).ks) ==> Wants(s, e) && NoneDown(Found(s, e))
  {
    StartIsSound(start);
    RunKeeps(start, events);
    var s := Run(start, events);
    if !Wants(s, e) {
      OthersTakeNothing(s, e);
      NothingAnew(s.ks, Step(s, e).ks);
    } else if !NoneDown(Found(s, e)) {
      KeyDownWaits(start, events, e);
    }
  }

  /** With a key down nothing is grabbed, the keyboards stay as found, and the session
      waits - holding none of them, if it has just come to the front. */
  lemma KeyDownWaits(start: Session, events: seq<Event>, e: Event)
    requires Start(start)
    requires var s := Run(start, events); Wants(s, e) && !NoneDown(Found(s, e))
    ensures var s := Run(start, events);
            var after := Step(s, e);
            && after.ks == Found(s, e) && after.foreground && after.waiting && !GrabsAnew(s.ks, after.ks)
            && (e.Console? ==> NoneGrabbed(after.ks.devices))
  {
    StartIsSound(start);
    RunKeeps(start, events);
    var s := Run(start, events);
    var begun := WantsTakes(s, e);
    NoKeysHeld(begun.ks);
    FoundHoldsNone(s, e);
    NothingAnew(s.ks, begun.ks);
    if e.Console? {
      RunHandsOff(start, events);
      forall i | 0 <= i < |begun.ks.devices| ensures !begun.ks.devices[i].grabbed {
        assert begun.ks.devices[i] in begun.ks.devices;
      }
    }
  }

  /** And it goes on waiting, in front, through anything but another console. */
  lemma WaitingLasts(start: Session, events: seq<Event>, e: Event)
    requires Start(start)
    requires var s := Run(start, events); s.foreground && s.waiting
    requires !(e.Console? && !e.foreground)
    ensures var s := Run(start, events);
            Step(s, e).foreground && (Step(s, e).waiting <==> (Wants(s, e) ==> !NoneDown(Found(s, e))))
  {
    StartIsSound(start);
    RunKeeps(start, events);
    var s := Run(start, events);
    if Wants(s, e) {
      var begun := WantsTakes(s, e);
      NoKeysHeld(begun.ks);
    } else {
      OthersTakeNothing(s, e);
    }
  }

  // -- and then every one that is free -----------------------------------------

  ghost predicate FreeAt(ks: Keyboards, path: Path, fd: Option<Id>) {
    exists i :: 0 <= i < |ks.devices| && ks.devices[i].path == path && ks.devices[i].fd == fd
      && Free(ks.devices[i], ks.outside.kernel)
  }

  /** Each is held, or closed and remembered as refused. */
  ghost predicate AllTried(devices: seq<Device>) {
    forall i :: 0 <= i < |devices| ==> devices[i].grabbed || (devices[i].fd.None? && devices[i].refused)
  }

  lemma PassHolds(ks: Keyboards, path: Path, fd: Option<Id>)
    ensures HeldAt(GrabAll(ks), path, fd) <==> HeldAt(ks, path, fd) || FreeAt(ks, path, fd)
  {
    var after := GrabAll(ks).devices;
    GrabAllLength(ks);
    forall i | 0 <= i < |ks.devices| ensures Comes(ks.devices[i], ks.outside.kernel, after[i]) {
      GrabAllHolds(ks, i);
    }
    if HeldAt(ks, path, fd) || FreeAt(ks, path, fd) {
      var i :| 0 <= i < |ks.devices| && ks.devices[i].path == path && ks.devices[i].fd == fd
        && (ks.devices[i].grabbed || Free(ks.devices[i], ks.outside.kernel));
      assert after[i].grabbed && after[i].path == path && after[i].fd == fd;
    }
    if HeldAt(GrabAll(ks), path, fd) {
      var i :| 0 <= i < |after| && after[i].grabbed && after[i].path == path && after[i].fd == fd;
      assert Comes(ks.devices[i], ks.outside.kernel, after[i]);
    }
  }

  lemma PassTriesAll(ks: Keyboards)
    ensures AllTried(GrabAll(ks).devices)
  {
    GrabAllLength(ks);
    forall i | 0 <= i < |ks.devices|
      ensures var d := GrabAll(ks).devices[i]; d.grabbed || (d.fd.None? && d.refused)
    {
      GrabAllHolds(ks, i);
    }
  }

  /** With none down, the wait is over, every keyboard is tried, and held are exactly those
      held before and those free; or, when one that was ours is somebody else's and there
      is a second look, at least as many of them as that still lists. */
  lemma KeysUpTake(start: Session, events: seq<Event>, e: Event)
    requires Start(start)
    requires var s := Run(start, events); Wants(s, e) && NoneDown(Found(s, e))
    ensures var s := Run(start, events);
            var ks, after := Found(s, e), Step(s, e);
            && after.foreground && !after.waiting && Adopted(after) && AllTried(after.ks.devices)
            && forall path, fd ::
                 && (!LosesOne(ks) || path in LookOf(e).again.present ==>
                       (HeldAt(ks, path, fd) || FreeAt(ks, path, fd) ==> HeldAt(after.ks, path, fd)))
                 && (!LosesOne(ks) ==>
                       (HeldAt(after.ks, path, fd) ==> HeldAt(ks, path, fd) || FreeAt(ks, path, fd)))
  {
    StartIsSound(start);
    RunKeeps(start, events);
    var s := Run(start, events);
    var begun := WantsTakes(s, e);
    var ks, after := begun.ks, Step(s, e);
    NoKeysHeld(ks);
    SecondLookIsLast(begun, LookOf(e));
    LostIsLosing(ks);
    PassTriesAll(if Lost(ks) then SecondLook(ks, begun.asleep, LookOf(e)) else ks);
    forall path, fd ensures HeldAt(GrabAll(ks), path, fd) <==> HeldAt(ks, path, fd) || FreeAt(ks, path, fd) {
      PassHolds(ks, path, fd);
    }
  }

  // -- the keyboards that are listed -------------------------------------------

  /** As the program begins: in the background, with no keyboard known. */
  ghost predicate Beginning(s: Session) {
    Start(s) && !s.foreground && !s.asleep && !s.waiting
  }

  /** In front the descriptors are open. */
  lemma {:induction false} AwakeInFront(start: Session, events: seq<Event>)
    requires Beginning(start)
    ensures Run(start, events).foreground ==> !Run(start, events).asleep
    decreases |events|
  {
    if events != [] {
      AwakeInFront(start, events[..|events| - 1]);
      StepAwake(Run(start, events[..|events| - 1]), events[|events| - 1]);
    }
  }

  lemma StepAwake(s: Session, e: Event)
    requires s.foreground ==> !s.asleep
    ensures Step(s, e).foreground ==> !Step(s, e).asleep
  {
    match e
    case Elsewhere(h) =>
    case Console(foreground, look) =>
    case ReadFails(path) =>
    case DirectorySettles(look) =>
    case KeyMoves(look) =>
    case Rescan(listing) =>
    case Light(how) =>
  }

  /** This path leads to a device that is there. */
  predicate Leads(k: Kernel, path: Path) { path in k.at && k.at[path] in k.nodes }

  lemma {:induction false} DiscoveredHasPath(ks: Keyboards, listing: seq<Path>, asleep: bool, path: Path)
    requires path in listing && Leads(ks.outside.kernel, path) && !HasPath(ks.devices, path) && !asleep
    ensures OpenDevice(path, ks.outside.kernel) in Discovered(ks, listing, asleep).devices
    decreases |listing|
  {
    var n := |listing| - 1;
    if path in listing[..n] {
      DiscoveredHasPath(ks, listing[..n], asleep, path);
    } else {
      assert listing[n] == path;
      NotDiscovered(ks, listing[..n], asleep, path);
    }
  }

  lemma {:induction false} NotDiscovered(ks: Keyboards, listing: seq<Path>, asleep: bool, path: Path)
    requires path !in listing && !HasPath(ks.devices, path)
    ensures !HasPath(Discovered(ks, listing, asleep).devices, path)
    decreases |listing|
  {
    if listing != [] {
      NotDiscovered(ks, listing[..|listing| - 1], asleep, path);
    }
  }

  lemma RescannedOpens(ks: Keyboards, listing: Listing, path: Path)
    requires path in listing.found && path in listing.present
    requires Leads(ks.outside.kernel, path) && !HasPath(ks.devices, path)
    ensures OpenDevice(path, ks.outside.kernel) in Rescanned(ks, listing, false).devices
  {
    DiscoveredHasPath(ks, listing.found, false, path);
    KeepingHolds(Discovered(ks, listing.found, false), Among(listing.present), OpenDevice(path, ks.outside.kernel));
  }

  lemma ReleasedAlike(d: Device, o: Outside)
    ensures Alike(o.kernel, Released(d, o).1.kernel)
  {}

  lemma {:induction false} KeepAlike(ks: Keyboards, which: Criterion)
    ensures Alike(ks.outside.kernel, Keep(ks, which).outside.kernel)
    decreases |ks.devices|
  {
    if ks.devices != [] {
      var n := |ks.devices| - 1;
      var front := ks.(devices := ks.devices[..n]);
      KeepAlike(front, which);
      ReleasedAlike(ks.devices[n], Keep(front, which).outside);
    }
  }

  lemma {:induction false} DiscoveredOutside(ks: Keyboards, listing: seq<Path>, asleep: bool)
    ensures Discovered(ks, listing, asleep).outside == ks.outside
    decreases |listing|
  {
    if listing != [] {
      DiscoveredOutside(ks, listing[..|listing| - 1], asleep);
    }
  }

  lemma RescannedAlike(ks: Keyboards, listing: Listing, asleep: bool)
    ensures Alike(ks.outside.kernel, Rescanned(ks, listing, asleep).outside.kernel)
  {
    DiscoveredOutside(ks, listing.found, asleep);
    KeepAlike(Discovered(ks, listing.found, asleep), Among(listing.present));
  }

  /** Descriptors taken back: each keyboard is opened at its path, if that leads anywhere
      and it was not open still, and the rest of the machine is as it was. */
  lemma {:induction false} ReopenOpens(ks: Keyboards, i: nat)
    requires i < |ks.devices|
    ensures Alike(ks.outside.kernel, Reopen(ks).outside.kernel)
    ensures var d, k := ks.devices[i], ks.outside.kernel;
            d.fd.Some? || d.path in k.at ==>
              d.(fd := if d.fd.Some? then d.fd else Some(k.at[d.path])) in Reopen(ks).devices
    ensures forall d :: d in Reopen(ks).devices ==> HasPath(ks.devices, d.path)
    decreases |ks.devices|
  {
    var n := |ks.devices| - 1;
    var front := ks.(devices := ks.devices[..n]);
    assert forall j :: 0 <= j < n ==> front.devices[j] == ks.devices[j];
    if n > 0 {
      ReopenOpens(front, if i < n then i else 0);
      forall d | d in Reopen(front).devices ensures HasPath(ks.devices, d.path) {
        var j :| 0 <= j < n && front.devices[j].path == d.path;
        assert ks.devices[j].path == d.path;
      }
    } else {
      assert Reopen(front) == front;
    }
    var last := Reopened(ks.devices[n], Reopen(front).outside.kernel);
    assert last.0.path == ks.devices[n].path;
    if last.1 {
      assert Reopen(ks).devices == Reopen(front).devices + [last.0];
    } else {
      ReleasedAlike(last.0, Reopen(front).outside);
    }
  }

  /** A keyboard of the set at this path has an older descriptor than the path's device. */
  ghost predicate Stale(ks: Keyboards, path: Path) {
    exists i :: 0 <= i < |ks.devices| && ks.devices[i].path == path && ks.devices[i].fd.Some?
      && (path !in ks.outside.kernel.at || ks.devices[i].fd.value != ks.outside.kernel.at[path])
  }

  lemma ReturnOpens(s: Session, look: Look, path: Path)
    requires Leads(s.ks.outside.kernel, path) && !Stale(s.ks, path)
    requires path in look.listing.present && (path in look.listing.found || HasPath(s.ks.devices, path))
    ensures exists d :: d in Rescanned(Reopen(s.ks), look.listing, false).devices && d.path == path
              && d.fd == Some(s.ks.outside.kernel.at[path])
  {
    var k, id := s.ks.outside.kernel, s.ks.outside.kernel.at[path];
    var awake := Reopen(s.ks);
    if i :| 0 <= i < |s.ks.devices| && s.ks.devices[i].path == path {
      ReopenOpens(s.ks, i);
      var d := s.ks.devices[i].(fd := Some(id));
      assert s.ks.devices[i].fd.Some? ==> s.ks.devices[i].fd.value == id;
      DiscoveringHolds(awake, look.listing.found, false);
      KeepingHolds(Discovered(awake, look.listing.found, false), Among(look.listing.present), d);
    } else {
      NoneThere(s.ks, path);
      RescannedOpens(awake, look.listing, path);
    }
  }

  lemma NoneThere(ks: Keyboards, path: Path)
    requires !HasPath(ks.devices, path)
    ensures Alike(ks.outside.kernel, Reopen(ks).outside.kernel) && !HasPath(Reopen(ks).devices, path)
  {
    if ks.devices == [] {
      assert Reopen(ks) == ks;
    } else {
      ReopenOpens(ks, 0);
      forall i | 0 <= i < |Reopen(ks).devices| ensures Reopen(ks).devices[i].path != path {
        assert Reopen(ks).devices[i] in Reopen(ks).devices;
      }
    }
  }

  lemma FreeThere(ks: Keyboards, d: Device)
    requires d in ks.devices && Free(d, ks.outside.kernel)
    ensures FreeAt(ks, d.path, d.fd)
  {}

  /** Back in front with no key down, it holds every keyboard there is that nobody else
      has: each that is listed, in the set or new to it, through its path's own device. */
  lemma ComingBackTakes(start: Session, events: seq<Event>, look: Look, path: Path)
    requires Start(start)
    requires var s := Run(start, events);
             && Wants(s, Console(true, look)) && NoneDown(Found(s, Console(true, look)))
             && Leads(s.ks.outside.kernel, path) && !Stale(s.ks, path)
             && !s.ks.outside.kernel.nodes[s.ks.outside.kernel.at[path]].elsewhere
             && path in look.listing.present && (path in look.listing.found || HasPath(s.ks.devices, path))
             && (LosesOne(Found(s, Console(true, look))) ==> path in look.again.present)
    ensures var s := Run(start, events);
            HeldAt(Step(s, Console(true, look)).ks, path, Some(s.ks.outside.kernel.at[path]))
  {
    var s, e := Run(start, events), Console(true, look);
    ReturnOpens(s, look, path);
    var d :| d in Found(s, e).devices && d.path == path && d.fd == Some(s.ks.outside.kernel.at[path]);
    ReopenAlike(s.ks);
    RescannedAlike(Reopen(s.ks), look.listing, false);
    FreeThere(Found(s, e), d);
    KeysUpTake(start, events, e);
  }

  lemma ReopenAlike(ks: Keyboards)
    ensures Alike(ks.outside.kernel, Reopen(ks).outside.kernel)
  {
    if ks.devices == [] {
      assert Reopen(ks) == ks;
    } else {
      ReopenOpens(ks, 0);
    }
  }

  /** When one that was ours is somebody else's, the second look takes in what has come
      meanwhile: a device that is there as it looks, is listed, is at no path held already,
      and is free in the end, is held in the end. */
  lemma SecondLookFinds(start: Session, events: seq<Event>, e: Event, path: Path)
    requires Beginning(start)
    requires var s := Run(start, events);
             && Wants(s, e) && NoneDown(Found(s, e)) && LosesOne(Found(s, e))
             && path in LookOf(e).again.found && path in LookOf(e).again.present
             && (forall fd :: !HeldAt(Found(s, e), path, fd) && !FreeAt(Found(s, e), path, fd))
             && Leads(Meantime(Found(s, e), LookOf(e)), path)
             && var id, k := Meantime(Found(s, e), LookOf(e)).at[path], Step(s, e).ks.outside.kernel;
                id in k.nodes && !k.nodes[id].elsewhere
    ensures var s := Run(start, events);
            HeldAt(Step(s, e).ks, path, Some(Meantime(Found(s, e), LookOf(e)).at[path]))
  {
    StartIsSound(start);
    RunKeeps(start, events);
    AwakeInFront(start, events);
    var s, look := Run(start, events), LookOf(e);
    var begun := WantsTakes(s, e);
    NoKeysHeld(begun.ks);
    LostIsLosing(begun.ks);
    forall fd ensures !HeldAt(GrabAll(begun.ks), path, fd) {
      PassHolds(begun.ks, path, fd);
    }
    SecondLookOpens(begun.ks, look, path);
    var last := SecondLook(begun.ks, false, look);
    GrabAllAlike(last);
    var d := OpenDevice(path, Meantime(begun.ks, look));
    FreeThere(last, d);
    PassHolds(last, path, d.fd);
  }

  /** The machine as the second look begins. */
  ghost function Meantime(ks: Keyboards, look: Look): Kernel {
    AllHappened(DiscardRefusals(GrabAll(ks)), look.between).outside.kernel
  }

  lemma SecondLookOpens(ks: Keyboards, look: Look, path: Path)
    requires path in look.again.found && path in look.again.present && Leads(Meantime(ks, look), path)
    requires forall fd :: !HeldAt(GrabAll(ks), path, fd)
    ensures OpenDevice(path, Meantime(ks, look)) in SecondLook(ks, false, look).devices
  {
    var kept := DiscardRefusals(GrabAll(ks));
    var anew := AllHappened(kept, look.between);
    WorldKeepsDevices(kept, look.between);
    KeptMeet(GrabAll(ks), Grabs);
    forall i | 0 <= i < |kept.devices| ensures kept.devices[i].path != path {
      var d := kept.devices[i];
      assert d in kept.devices;
      assert !HeldAt(GrabAll(ks), path, d.fd);
    }
    RescannedOpens(anew, look.again, path);
    WorldKeepsDevices(Rescanned(anew, look.again, false), look.meanwhile);
  }

  lemma {:induction false} WorldKeepsDevices(ks: Keyboards, hs: seq<Happening>)
    ensures AllHappened(ks, hs).devices == ks.devices
    decreases |hs|
  {
    if hs != [] {
      WorldKeepsDevices(ks, hs[..|hs| - 1]);
      HappenedOutside(AllHappened(ks, hs[..|hs| - 1]), hs[|hs| - 1]);
    }
  }

  // -- which stay in the set ---------------------------------------------------

  /** Forgetting one forgets every keyboard at that path and no other, discarding refusals
      those not held, and a rescan those not listed. */
  lemma KeptExactly(ks: Keyboards, path: Path, listing: Listing, asleep: bool, d: Device)
    ensures d in Forget(ks, path).devices <==> d in ks.devices && d.path != path
    ensures d in DiscardRefusals(ks).devices <==> d in ks.devices && d.grabbed
    ensures d in ks.devices ==> (d in Rescanned(ks, listing, asleep).devices <==> d.path in listing.present)
  {
    var all := Discovered(ks, listing.found, asleep);
    OneKeptExactly(ks, OtherThan(path), d);
    OneKeptExactly(ks, Grabs, d);
    OneKeptExactly(all, Among(listing.present), d);
    DiscoveringHolds(ks, listing.found, asleep);
  }

  lemma OneKeptExactly(ks: Keyboards, which: Criterion, d: Device)
    ensures d in Keep(ks, which).devices <==> d in ks.devices && Meets(d, which)
  {
    KeptMeet(ks, which);
    if d in ks.devices && Meets(d, which) {
      KeepingHolds(ks, which, d);
    }
  }

  /** A path of the set, or of a keyboard newly found, that is not listed. */
  ghost predicate Unlisted(ks: Keyboards, listing: Listing, path: Path) {
    path !in listing.present &&
    (HasPath(ks.devices, path) || (path in listing.found && Leads(ks.outside.kernel, path)))
  }

  lemma {:induction false} DiscoveredPaths(ks: Keyboards, found: seq<Path>, asleep: bool, path: Path)
    ensures HasPath(Discovered(ks, found, asleep).devices, path) <==>
      HasPath(ks.devices, path) || (path in found && Leads(ks.outside.kernel, path))
    decreases |found|
  {
    if found != [] {
      var n := |found| - 1;
      DiscoveredPaths(ks, found[..n], asleep, path);
      var front := Discovered(ks, found[..n], asleep).devices;
      var after := Discovered(ks, found, asleep).devices;
      assert path in found <==> path in found[..n] || path == found[n];
      if after != front {
        assert after[..|front|] == front && after[|front|].path == found[n];
        PathNext(front, after[|front|], path);
        assert after == front + [after[|front|]];
      }
    }
  }

  lemma PathNext(devices: seq<Device>, d: Device, path: Path)
    ensures HasPath(devices + [d], path) <==> HasPath(devices, path) || d.path == path
  {
    var longer := devices + [d];
    if HasPath(devices, path) {
      var i :| 0 <= i < |devices| && devices[i].path == path;
      assert longer[i].path == path;
    }
    assert longer[|devices|] == d;
  }

  /** A rescan drops one exactly if one is not listed; the modifiers are then asked for
      again, and else left alone. */
  lemma RescanAdopts(s: Session, listing: Listing)
    ensures if exists path :: Unlisted(s.ks, listing, path) then Adopted(Looked(s, listing))
            else Looked(s, listing).modifiers == s.modifiers
  {
    var all := Discovered(s.ks, listing.found, s.asleep).devices;
    DroppingIsAdopted(s, [], listing);
    forall path ensures HasPath(all, path) && path !in listing.present <==> Unlisted(s.ks, listing, path) {
      DiscoveredPaths(s.ks, listing.found, s.asleep, path);
    }
    if Drops(s.ks, listing, s.asleep) {
      var i :| 0 <= i < |all| && all[i].path !in listing.present;
      assert HasPath(all, all[i].path);
    }
  }

  // -- another console ---------------------------------------------------------

  ghost predicate AllClosed(devices: seq<Device>) {
    forall i :: 0 <= i < |devices| ==> !devices[i].grabbed && devices[i].fd.None?
  }

  lemma {:induction false} ReleaseAllCloses(ks: Keyboards)
    ensures AllClosed(ReleaseAll(ks).devices)
    decreases |ks.devices|
  {
    if ks.devices != [] {
      ReleaseAllCloses(ks.(devices := ks.devices[..|ks.devices| - 1]));
    }
  }

  /** Another console in front: every keyboard is let go of and closed, no modifier is
      held, and the wait is off.  Told so again, nothing happens. */
  lemma LeavingLetsGo(s: Session, foreground: bool, look: Look)
    ensures foreground == s.foreground ==> Step(s, Console(foreground, look)) == s
    ensures !foreground && s.foreground ==>
      var after := Step(s, Console(foreground, look));
      AllClosed(after.ks.devices) && !after.foreground && after.asleep && !after.waiting && after.modifiers == 0
  {
    ReleaseAllCloses(s.ks);
  }

  // -- the keyboards that have gone --------------------------------------------

  /** Closed, and its path leads nowhere. */
  predicate Missing(d: Device, k: Kernel) { d.fd.None? && d.path !in k.at }

  ghost predicate MissesOne(ks: Keyboards) {
    exists i :: 0 <= i < |ks.devices| && Missing(ks.devices[i], ks.outside.kernel)
  }

  lemma {:induction false} MissingAreForgotten(ks: Keyboards)
    ensures Reopen(ks).outside.kernel.at == ks.outside.kernel.at
    ensures |Reopen(ks).devices| <= |ks.devices| && (|Reopen(ks).devices| < |ks.devices| <==> MissesOne(ks))
    decreases |ks.devices|
  {
    if ks.devices != [] {
      var n := |ks.devices| - 1;
      var front := ks.(devices := ks.devices[..n]);
      MissingAreForgotten(front);
      assert forall i :: 0 <= i < n ==> front.devices[i] == ks.devices[i];
      if Missing(ks.devices[n], ks.outside.kernel) {
        assert MissesOne(ks);
      }
    }
  }

  /** On coming back the same: the modifiers are asked for again exactly if a keyboard has
      gone meanwhile. */
  lemma WakingIsAdopted(s: Session)
    ensures MissesOne(s.ks) ==> Adopted(Woken(s))
    ensures !MissesOne(s.ks) ==> Woken(s).modifiers == s.modifiers
  {
    MissingAreForgotten(s.ks);
    SyncedIsAdopted(s.(ks := Reopen(s.ks), asleep := false, foreground := true));
  }
}
