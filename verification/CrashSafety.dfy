/** The two ends of the pipe together: whenever the program dies, the guardian reads
    what was sent, and puts every keyboard's repeat back. */
module CrashSafety {
  import opened Wrappers
  import opened Ledger
  import opened Grabbing
  import opened GuardianWire
  import opened Guardian
  import opened Filing
  import opened Evdev

  /** One repeat set, at whatever device the path leads to now. */
  ghost function WithPutBack(k: Kernel, path: Path, repeat: Repeat): Kernel
    requires path in k.at ==> k.at[path] in k.nodes
  {
    if path in k.at && k.nodes[k.at[path]].repeat.Some?
    then k.(nodes := k.nodes[k.at[path] := k.nodes[k.at[path]].(repeat := Some(repeat))])
    else k
  }

  method PutBack(path: Path, repeat: Repeat, machine: Machine)
    requires path in machine.kernel.at ==> machine.kernel.at[path] in machine.kernel.nodes
    modifies machine
    ensures machine.kernel == WithPutBack(old(machine.kernel), path, repeat)
  {
    if path in machine.kernel.at {
      var id := machine.kernel.at[path];
      var node := machine.kernel.nodes[id];
      if node.repeat.Some? {
        machine.kernel := machine.kernel.(nodes := machine.kernel.nodes[id := node.(repeat := Some(repeat))]);
      }
    }
  }

  /** The repeats on file, put back one after another in whatever order they come: a
      path that does not open is passed over, and so is a device that takes no
      repeat. */
  method CleanUpRepeats(repeats: map<Path, Repeat>, machine: Machine)
    requires Consistent(machine.kernel)
    modifies machine
    ensures machine.kernel == CleanedUp(old(machine.kernel), repeats)
  {
    ghost var k := machine.kernel;
    ghost var paid: map<Path, Repeat> := map[];
    var left := repeats.Keys;
    NothingPaid(k);
    while left != {}
      invariant left <= repeats.Keys && paid == map path | path in repeats && path !in left :: repeats[path]
      invariant machine.kernel == CleanedUp(k, paid)
      decreases |left|
    {
      var path :| path in left;
      left := left - {path};
      OnePaid(k, paid, path, repeats[path]);
      PutBack(path, repeats[path], machine);
      paid := paid[path := repeats[path]];
    }
    assert paid == repeats;
  }

  lemma NothingPaid(k: Kernel)
    ensures CleanedUp(k, map[]) == k
  {
    assert CleanedUp(k, map[]).nodes == k.nodes;
  }

  lemma OnePaid(k: Kernel, paid: map<Path, Repeat>, path: Path, repeat: Repeat)
    requires Consistent(k) && path !in paid
    ensures CleanedUp(k, paid[path := repeat]) == WithPutBack(CleanedUp(k, paid), path, repeat)
  {
    var before, after := CleanedUp(k, paid), CleanedUp(k, paid[path := repeat]);
    var expected := WithPutBack(before, path, repeat);
    forall id | id in k.nodes ensures after.nodes[id] == expected.nodes[id] {
      OnePaidNode(k, paid, path, repeat, id);
    }
    assert after.nodes == expected.nodes;
  }

  lemma OnePaidNode(k: Kernel, paid: map<Path, Repeat>, path: Path, repeat: Repeat, id: Id)
    requires Consistent(k) && path !in paid && id in k.nodes
    ensures CleanedUp(k, paid[path := repeat]).nodes[id] == WithPutBack(CleanedUp(k, paid), path, repeat).nodes[id]
  {
    var own :| own in k.at && k.at[own] == id;
    CleanedNodeAt(k, paid, id, own);
    CleanedNodeAt(k, paid[path := repeat], id, own);
  }

  /** However the program ends - its end of the pipe closed, or the pipe silent past a
      deadline it had set - and at whatever character of its last request, the guardian
      comes to its clean-up with the debts that arrived whole, among whatever else was
      asked and however the pipe cut it.  Every device present is then restored exactly
      if each path with a debt that arrived leads to a device of that repeat, and no
      other to one left hushed; and if those are the debts of the run, exactly unless a
      keyboard's path has been taken over meanwhile. */
  lemma DeathIsRepairedOverTheWire(
      start: Session, events: seq<Event>, requests: seq<Request>, n: nat, arrivals: seq<Arrival>, last: Arrival)
    requires Start(start)
    requires AllProper(requests) && forall i :: 0 <= i < |requests| ==> !requests[i].Done?
    requires n <= |Stream(requests)| && AllText(arrivals) == Stream(requests)[..n]
    requires forall i :: 0 <= i < |arrivals| ==> arrivals[i].Chunk?
    requires last.Closed? || (last.Silence? && Deadline(requests[..Whole(requests, n)]).Some?)
    ensures var k := Whole(requests, n);
            var ks, end := Run(start, events).ks, Guarded(arrivals + [last]);
            && Stream(requests)[..n] == Stream(requests[..k]) + Torn(Stream(requests)[..n])
            && end.Cleaning? && end.killed == last.Silence?
            && end.standing == FileOf(requests[..k])
            && (AllRestored(CleanedUp(ks.outside.kernel, end.standing.repeats)) <==>
                  AllSetRight(ks.outside.kernel, Owed(AboutRepeats(requests[..k]))))
            && (AboutRepeats(requests[..k]) == ks.outside.pipe ==>
                  (AllRestored(CleanedUp(ks.outside.kernel, end.standing.repeats))
                   <==> forall path :: !Misdirected(ks, path)))
  {
    CutsDoNotMatter(arrivals);
    DeathAtAnyByte(requests, n);
    SilenceEndsIt(requests, n, arrivals);
    assert (arrivals + [last])[..|arrivals|] == arrivals;
    StartIsSound(start);
    RunKeeps(start, events);
    RestoredExactly(Run(start, events).ks.outside.kernel, Guarded(arrivals + [last]).standing.repeats);
    DeathIsRepaired(start, events);
  }

  /** Whatever the pipe brought, every path on file is one that can be sent. */
  lemma {:induction false} FileIsSendable(arrivals: seq<Arrival>, path: Path)
    requires Guarded(arrivals).Cleaning? && path in Guarded(arrivals).standing.repeats
    ensures Sendable(path)
    decreases |arrivals|
  {
    var before := Guarded(arrivals[..|arrivals| - 1]);
    if before.Cleaning? {
      FileIsSendable(arrivals[..|arrivals| - 1], path);
    } else {
      WholeLinesAreLines(before.received);
      OnlySendableOnFile(WholeLines(before.received));
    }
  }

  /** So a keyboard whose repeat is off, at a path the pipe cannot carry, stays that
      way when the program dies, whatever was sent of it. */
  lemma UnsendableDebtIsLost(start: Session, events: seq<Event>, arrivals: seq<Arrival>, i: nat)
    requires Start(start) && Guarded(arrivals).Cleaning?
    requires var ks := Run(start, events).ks;
             && i < |ks.devices| && ks.devices[i].savedRepeat.Some? && !Sendable(ks.devices[i].path)
             && Live(ks.devices[i], ks.outside.kernel)
             && ks.outside.kernel.nodes[ks.devices[i].fd.value].repeat != ks.devices[i].savedRepeat
    ensures var ks := Run(start, events).ks;
            !AllRestored(CleanedUp(ks.outside.kernel, Guarded(arrivals).standing.repeats))
  {
    StartIsSound(start);
    RunKeeps(start, events);
    var ks, owed := Run(start, events).ks, Guarded(arrivals).standing.repeats;
    var d := ks.devices[i];
    if d.path in owed {
      FileIsSendable(arrivals, d.path);
    }
    CleanedNodeAt(ks.outside.kernel, owed, d.fd.value, d.path);
    assert d.fd.value in CleanedUp(ks.outside.kernel, owed).nodes;
  }
}
