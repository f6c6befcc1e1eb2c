/** The lights a killed program leaves, by the events that lit them. */
module Lights {
  import opened Wrappers
  import opened Ledger
  import opened LedgerInvariant
  import opened Grabbing

  // -- one keyboard ------------------------------------------------------------

  lemma ReleasedDark(d: Device, o: Outside)
    requires Attached(d, o.kernel) && LightsRestored(o.kernel)
    ensures LightsRestored(Released(d, o).1.kernel)
  {}

  lemma GrabOneDark(d: Device, o: Outside)
    requires Attached(d, o.kernel) && LightsRestored(o.kernel)
    ensures LightsRestored(GrabOne(d, o).1.kernel)
  {
    ReleasedDark(d, o);
  }

  // -- over the whole set ------------------------------------------------------

  /** The last keyboard of some, beside the rest. */
  lemma Split(ks: Keyboards, rest: seq<Device>)
    requires ks.devices != []
    ensures var n := |ks.devices| - 1;
            Beside(ks.(devices := ks.devices[..n]), [ks.devices[n]] + rest) == Beside(ks, rest)
  {
    var n := |ks.devices| - 1;
    assert ks.devices[..n] + ([ks.devices[n]] + rest) == ks.devices + rest;
  }

  lemma AttachedAt(ks: Keyboards, d: Device, rest: seq<Device>)
    requires Inv(Beside(ks, [d] + rest))
    ensures Attached(d, ks.outside.kernel)
  {
    assert (ks.devices + ([d] + rest))[|ks.devices|] == d;
  }

  lemma {:induction false} GrabAllDark(ks: Keyboards, rest: seq<Device>)
    requires Inv(Beside(ks, rest)) && LightsRestored(ks.outside.kernel)
    ensures LightsRestored(GrabAll(ks).outside.kernel)
    decreases |ks.devices|
  {
    if ks.devices != [] {
      var n := |ks.devices| - 1;
      var front, d := ks.(devices := ks.devices[..n]), ks.devices[n];
      Split(ks, rest);
      GrabAllDark(front, [d] + rest);
      GrabAllKeeps(front, [d] + rest);
      AttachedAt(GrabAll(front), d, rest);
      GrabOneDark(d, GrabAll(front).outside);
    }
  }

  lemma {:induction false} ReleaseAllDark(ks: Keyboards, rest: seq<Device>)
    requires Inv(Beside(ks, rest)) && LightsRestored(ks.outside.kernel)
    ensures LightsRestored(ReleaseAll(ks).outside.kernel)
    decreases |ks.devices|
  {
    if ks.devices != [] {
      var n := |ks.devices| - 1;
      var front, d := ks.(devices := ks.devices[..n]), ks.devices[n];
      Split(ks, rest);
      ReleaseAllDark(front, [d] + rest);
      ReleaseAllKeeps(front, [d] + rest);
      AttachedAt(ReleaseAll(front), d, rest);
      ReleasedDark(d, ReleaseAll(front).outside);
    }
  }

  lemma {:induction false} KeepDark(ks: Keyboards, which: Criterion, rest: seq<Device>)
    requires Inv(Beside(ks, rest)) && LightsRestored(ks.outside.kernel)
    ensures LightsRestored(Keep(ks, which).outside.kernel)
    decreases |ks.devices|
  {
    if ks.devices != [] {
      var n := |ks.devices| - 1;
      var front, d := ks.(devices := ks.devices[..n]), ks.devices[n];
      Split(ks, rest);
      KeepDark(front, which, [d] + rest);
      KeepKeeps(front, which, [d] + rest);
      AttachedAt(Keep(front, which), d, rest);
      ReleasedDark(d, Keep(front, which).outside);
    }
  }

  lemma {:induction false} ReopenDark(ks: Keyboards, rest: seq<Device>)
    requires Inv(Beside(ks, rest)) && LightsRestored(ks.outside.kernel)
    ensures LightsRestored(Reopen(ks).outside.kernel)
    decreases |ks.devices|
  {
    if ks.devices != [] {
      var n := |ks.devices| - 1;
      var front, d := ks.(devices := ks.devices[..n]), ks.devices[n];
      Split(ks, rest);
      ReopenDark(front, [d] + rest);
      ReopenKeeps(front, [d] + rest);
      AttachedAt(Reopen(front), d, rest);
      var back := Reopened(d, Reopen(front).outside.kernel);
      if !back.1 {
        assert back.0 == d;
        ReleasedDark(d, Reopen(front).outside);
      }
    }
  }

  /** The console's lights put back on the first keyboards: only the others can still
      show anything else. */
  lemma {:induction false} ConsoleLights(ks: Keyboards, rest: seq<Device>)
    requires Inv(Beside(ks, rest))
    ensures Candid(rest, Lit(ks, OfConsole).outside.kernel)
    decreases |ks.devices|
  {
    if ks.devices == [] {
      assert ks.devices + rest == rest;
    } else {
      var n := |ks.devices| - 1;
      var front, d := ks.(devices := ks.devices[..n]), ks.devices[n];
      Split(ks, rest);
      ConsoleLights(front, [d] + rest);
      LitAllKeeps(front, OfConsole, [d] + rest);
      LitDevices(front, OfConsole);
      var lit := Lit(front, OfConsole);
      AttachedAt(lit, d, rest);
      OneDarker(d, lit.outside.kernel, rest);
    }
  }

  lemma OneDarker(d: Device, k: Kernel, rest: seq<Device>)
    requires Attached(d, k) && Candid([d] + rest, k)
    ensures Candid(rest, LitOne(d, k, OfConsole))
  {
    var after := LitOne(d, k, OfConsole);
    forall id | id in after.nodes ensures after.nodes[id].leds == after.nodes[id].lights || LitByUs(rest, id) {
      assert id in k.nodes;
      if k.nodes[id].leds != k.nodes[id].lights {
        var i :| 0 <= i < |[d] + rest| && LedgerInvariant.Lights(([d] + rest)[i], id);
        if i > 0 {
          assert rest[i - 1] == ([d] + rest)[i];
        }
      }
    }
  }

  ghost predicate Shows(d: Device, k: Kernel, mask: nat) {
    d.grabbed && Live(d, k) ==> LedsOf(d, k) == mask
  }

  lemma OneLit(d: Device, other: Device, k: Kernel, mask: nat)
    ensures Shows(d, LitOne(d, k, OfPhone(mask)), mask)
    ensures Shows(other, k, mask) ==> Shows(other, LitOne(d, k, OfPhone(mask)), mask)
  {}

  /** And the phone's: all that are held show them. */
  lemma {:induction false} PhoneLights(ks: Keyboards, mask: nat, i: nat)
    requires i < |ks.devices|
    ensures Shows(ks.devices[i], Lit(ks, OfPhone(mask)).outside.kernel, mask)
    decreases |ks.devices|
  {
    var n := |ks.devices| - 1;
    var front := ks.(devices := ks.devices[..n]);
    if i < n {
      PhoneLights(front, mask, i);
      assert front.devices[i] == ks.devices[i];
    }
    OneLit(ks.devices[n], ks.devices[i], Lit(front, OfPhone(mask)).outside.kernel, mask);
  }

  // -- the session -------------------------------------------------------------

  lemma HappenedDark(ks: Keyboards, h: Happening)
    requires Inv(ks) && LightsRestored(ks.outside.kernel)
    ensures LightsRestored(Happened(ks, h).outside.kernel)
  {
    match h
    case Plug(path, node) =>
    case Unplug(path) =>
    case Claim(path) =>
    case Yield(path) =>
    case Press(path, down) =>
    case Adjust(path, repeat) =>
    case Indicate(path, leds) =>
  }

  lemma {:induction false} AllHappenedDark(ks: Keyboards, hs: seq<Happening>)
    requires Inv(ks) && LightsRestored(ks.outside.kernel)
    ensures LightsRestored(AllHappened(ks, hs).outside.kernel)
  {
    if hs != [] {
      AllHappenedDark(ks, hs[..|hs| - 1]);
      AllHappenedKeep(ks, hs[..|hs| - 1]);
      HappenedDark(AllHappened(ks, hs[..|hs| - 1]), hs[|hs| - 1]);
    }
  }

  lemma KeepDarkAlone(ks: Keyboards, which: Criterion)
    requires Inv(ks) && LightsRestored(ks.outside.kernel)
    ensures Inv(Keep(ks, which)) && LightsRestored(Keep(ks, which).outside.kernel)
  {
    assert Beside(ks, []) == ks;
    KeepDark(ks, which, []);
    KeepAlone(ks, which);
  }

  lemma GrabAllDarkAlone(ks: Keyboards)
    requires Inv(ks) && LightsRestored(ks.outside.kernel)
    ensures Inv(GrabAll(ks)) && LightsRestored(GrabAll(ks).outside.kernel)
  {
    assert Beside(ks, []) == ks;
    GrabAllDark(ks, []);
    GrabAllAlone(ks);
  }

  lemma RescannedDark(ks: Keyboards, listing: Listing, asleep: bool)
    requires Inv(ks) && LightsRestored(ks.outside.kernel)
    ensures Inv(Rescanned(ks, listing, asleep)) && LightsRestored(Rescanned(ks, listing, asleep).outside.kernel)
  {
    DiscoveredKeeps(ks, listing.found, asleep);
    KeepDarkAlone(Discovered(ks, listing.found, asleep), Among(listing.present));
  }

  lemma SecondLookDark(ks: Keyboards, asleep: bool, look: Look)
    requires Inv(ks) && LightsRestored(ks.outside.kernel)
    ensures Inv(SecondLook(ks, asleep, look)) && LightsRestored(SecondLook(ks, asleep, look).outside.kernel)
  {
    GrabAllDarkAlone(ks);
    KeepDarkAlone(GrabAll(ks), Grabs);
    var kept := DiscardRefusals(GrabAll(ks));
    AllHappenedDark(kept, look.between);
    AllHappenedKeep(kept, look.between);
    var anew := AllHappened(kept, look.between);
    RescannedDark(anew, look.again, asleep);
    AllHappenedDark(Rescanned(anew, look.again, asleep), look.meanwhile);
    AllHappenedKeep(Rescanned(anew, look.again, asleep), look.meanwhile);
  }

  lemma TakeDark(s: Session, look: Look)
    requires Inv(s.ks) && LightsRestored(s.ks.outside.kernel)
    ensures LightsRestored(TakeKeyboards(s, look).ks.outside.kernel)
  {
    SecondLookDark(s.ks, s.asleep, look);
    GrabAllDarkAlone(SecondLook(s.ks, s.asleep, look));
    GrabAllDarkAlone(s.ks);
  }

  lemma ConsoleDark(s: Session, foreground: bool, look: Look)
    requires Inv(s.ks) && LightsRestored(s.ks.outside.kernel)
    ensures LightsRestored(SetForeground(s, foreground, look).ks.outside.kernel)
  {
    assert Beside(s.ks, []) == s.ks;
    if foreground {
      ReopenDark(s.ks, []);
      ReopenAlone(s.ks);
      RescannedDark(Reopen(s.ks), look.listing, false);
      TakeDark(Looked(Woken(s), look.listing), look);
    } else {
      ReleaseAllDark(s.ks, []);
    }
  }

  lemma SettledDark(s: Session, look: Look)
    requires Inv(s.ks) && LightsRestored(s.ks.outside.kernel)
    ensures LightsRestored(Settled(s, look).ks.outside.kernel)
  {
    KeepDarkAlone(s.ks, Grabs);
    RescannedDark(DiscardRefusals(s.ks), look.listing, s.asleep);
    TakeDark(Looked(s.(ks := DiscardRefusals(s.ks)), look.listing), look);
  }

  /** Nothing but the phone's own lights changes what shows. */
  lemma StepDark(s: Session, e: Event)
    requires Inv(s.ks) && LightsRestored(s.ks.outside.kernel) && !e.Light?
    ensures LightsRestored(Step(s, e).ks.outside.kernel)
  {
    match e
    case Elsewhere(h) => HappenedDark(s.ks, h);
    case Console(foreground, look) => ConsoleDark(s, foreground, look);
    case ReadFails(path) => KeepDarkAlone(s.ks, OtherThan(path));
    case DirectorySettles(look) => SettledDark(s, look);
    case KeyMoves(look) => TakeDark(s, look);
    case Rescan(listing) => RescannedDark(s.ks, listing, s.asleep);
  }

  // -- however it ends ---------------------------------------------------------

  /** The last lights the session put on were the console's, or it put on none. */
  predicate Dark(events: seq<Event>) {
    events == [] ||
    var last := events[|events| - 1];
    if last.Light? then last.how.OfConsole? else Dark(events[..|events| - 1])
  }

  lemma {:induction false} DarkShowsConsole(start: Session, events: seq<Event>)
    requires Start(start) && Dark(events)
    ensures LightsRestored(Run(start, events).ks.outside.kernel)
    decreases |events|
  {
    StartIsSound(start);
    if events != [] {
      var front, last := events[..|events| - 1], events[|events| - 1];
      RunKeeps(start, front);
      var before := Run(start, front);
      if last.Light? {
        assert Beside(before.ks, []) == before.ks;
        ConsoleLights(before.ks, []);
      } else {
        DarkShowsConsole(start, front);
        StepDark(before, last);
      }
    }
  }

  /** Killed while the last lights put on were the console's, the program leaves every
      device with those. */
  lemma DeathInTheDark(start: Session, events: seq<Event>)
    requires Start(start) && Dark(events)
    ensures var ks := Run(start, events).ks;
            LightsRestored(CleanedUp(ks.outside.kernel, Owed(ks.outside.pipe)))
  {
    DarkShowsConsole(start, events);
  }

  /** Killed as the phone's are put on, exactly if every keyboard held had the same. */
  lemma DeathInTheLight(start: Session, events: seq<Event>, mask: nat)
    requires Start(start)
    ensures var ks := Run(start, events + [Light(OfPhone(mask))]).ks;
            LightsRestored(CleanedUp(ks.outside.kernel, Owed(ks.outside.pipe))) <==>
            forall i :: 0 <= i < |ks.devices| && ks.devices[i].grabbed && Live(ks.devices[i], ks.outside.kernel) ==>
              ks.devices[i].savedLeds == Some(mask)
  {
    var all := events + [Light(OfPhone(mask))];
    assert all[..|all| - 1] == events;
    var before := Run(start, events).ks;
    LitDevices(before, OfPhone(mask));
    forall i | 0 <= i < |before.devices|
      ensures Shows(before.devices[i], Lit(before, OfPhone(mask)).outside.kernel, mask)
    {
      PhoneLights(before, mask, i);
    }
    DeathKeepsLights(start, all);
  }
}
