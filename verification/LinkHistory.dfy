/** The link told without a socket in it, from the events alone, and that it is that:
    which channels are up and to whom, which host is known, and who is being dialled. */
module LinkHistory {
  import opened Wrappers
  import opened HostLink

  /** A connect on its way: to whom, the number of it, and whether it is for the second
      channel. */
  datatype Leg = Leg(to: Address, i: nat, second: bool)

  datatype Story = Story(
    control: bool, interrupt: bool, peer: Option<Address>, known: Option<Address>,
    dialling: Option<Leg>, dials: nat)

  function Raised(t: Story, kind: Kind, addr: Address): Story {
    if kind == Control then t.(control := true, peer := Some(addr))
    else t.(interrupt := true, peer := Some(addr), known := Some(addr))
  }

  function Fallen(t: Story): Story { t.(control := false, interrupt := false, peer := None) }

  /** Not both channels are up, nobody is being dialled, and there is a host to dial. */
  predicate Wanted(t: Story) { !(t.control && t.interrupt) && t.dialling.None? && t.known.Some? }

  function DialBegun(t: Story, to: Address, second: bool): Story {
    t.(dialling := Some(Leg(to, t.dials, second)), dials := t.dials + 1)
  }

  /** A connect answered: the first channel is dialled on to the second, and the second
      brings both up. */
  function DialAnswered(t: Story, leg: Leg, failed: bool, refused: bool): Story {
    if failed || (!leg.second && refused) then t.(dialling := None)
    else if !leg.second then DialBegun(t, leg.to, true)
    else Story(true, true, Some(leg.to), Some(leg.to), None, t.dials)
  }

  function Next(t: Story, e: Event): Story {
    match e
    case Accepts(kind, addr) => if t.peer in [None, Some(addr)] then Raised(t, kind, addr) else t
    case Ends(kind) => if (if kind == Control then t.control else t.interrupt) then Fallen(t) else t
    case Unplugs => if t.control then Fallen(t).(known := None) else t
    case Wakes(early, refused) =>
      if Wanted(t) && !early && !refused then DialBegun(t, t.known.value, false) else t
    case Settles(i, failed, refused) =>
      if t.dialling.None? || t.dialling.value.i != i then t
      else DialAnswered(t, t.dialling.value, failed, refused)
  }

  function Told(known: Option<Address>, events: seq<Event>): Story {
    if events == [] then Story(false, false, None, known, None, 0)
    else Next(Told(known, events[..|events| - 1]), events[|events| - 1])
  }

  // -- the link is that --------------------------------------------------------

  ghost predicate DialIs(s: State, t: Story) {
    && |s.dials| == t.dials && (s.connecting <==> t.dialling.Some?)
    && (t.dialling.Some? ==>
          var leg := t.dialling.value;
          && leg.i < |s.dials| && s.dials[leg.i].outcome == Pending
          && s.dials[leg.i].addr == leg.to && (s.dials[leg.i].first.Some? <==> leg.second))
    && forall i :: 0 <= i < |s.dials| && s.dials[i].outcome == Pending ==> t.dialling.Some? && t.dialling.value.i == i
  }

  ghost predicate Is(s: State, t: Story) {
    && (s.control.Some? <==> t.control) && (s.interrupt.Some? <==> t.interrupt)
    && s.peer == t.peer && s.known == t.known && DialIs(s, t)
  }

  lemma StepIs(s: State, t: Story, e: Event)
    requires Is(s, t)
    ensures Is(Step(s, e), Next(t, e))
  {
    match e
    case Accepts(kind, addr) => AdoptedIs(SocketOpened(s, addr).(peer := Some(addr)), kind, s.next);
    case Ends(kind) => DisconnectedIs(s);
    case Unplugs => DisconnectedIs(s.(known := None));
    case Wakes(early, refused) =>
    case Settles(i, failed, refused) => SettledIs(s, t, i, failed, refused);
  }

  lemma SettledIs(s: State, t: Story, i: nat, failed: bool, refused: bool)
    requires Is(s, t)
    ensures Is(Settled(s, i, failed, refused), Next(t, Settles(i, failed, refused)))
  {
    if i < |s.dials| && s.dials[i].outcome == Pending && !failed && s.dials[i].first.Some? {
      var d := s.dials[i];
      var begun := SetOutcome(s, i, Handed).(peer := Some(d.addr));
      AdoptedIs(begun, Control, d.first.value);
      AdoptedIs(Adopted(begun, Control, d.first.value), Interrupt, d.socket);
    }
  }

  /** Over every run: which channels are up and to whom, which host is known, and which
      connect is on its way, are what the events say. */
  lemma {:induction false} LinkIsAsTold(known: Option<Address>, events: seq<Event>)
    ensures Is(Run(Started(known), events), Told(known, events))
    decreases |events|
  {
    if events != [] {
      LinkIsAsTold(known, events[..|events| - 1]);
      StepIs(Run(Started(known), events[..|events| - 1]), Told(known, events[..|events| - 1]), events[|events| - 1]);
    }
  }

  lemma RunNext(known: Option<Address>, events: seq<Event>, e: Event)
    ensures Run(Started(known), events + [e]) == Step(Run(Started(known), events), e)
  {
    assert (events + [e])[..|events|] == events;
  }

  /** A key dials the host that is known - one connect, for the first channel, on a socket
      of its own - exactly if not both channels are up, none is on its way, and the dial is
      neither too early nor refused; else it changes nothing. */
  lemma KeysDial(known: Option<Address>, events: seq<Event>, early: bool, refused: bool)
    ensures var s, after := Run(Started(known), events), Run(Started(known), events + [Wakes(early, refused)]);
            if Wanted(Told(known, events)) && !early && !refused then
              var host := Told(known, events).known.value;
              && s.next !in s.open
              && after == s.(dials := s.dials + [Dial(host, s.next, None, Pending)], connecting := true,
                             open := s.open + {s.next}, host := s.host[s.next := host], next := s.next + 1)
            else after == s
  {
    LinkIsAsTold(known, events);
    RunSound(known, events);
    RunNext(known, events, Wakes(early, refused));
  }

  /** A dial answered on both its channels, whatever happened between: the control channel
      is what the first connect brought, the interrupt channel what the second did, and the
      host dialled is the peer and the one known. */
  lemma DialComesUp(known: Option<Address>, events: seq<Event>, between: seq<Event>, i: nat, refused: bool)
    requires var s := Run(Started(known), events);
             i < |s.dials| && s.dials[i].outcome == Pending && s.dials[i].first.None?
    ensures var s, begun := Run(Started(known), events), events + [Settles(i, false, false)];
            var d, j := s.dials[i], |s.dials|;
            && Run(Started(known), begun).dials == s.dials[i := d.(outcome := Handed)]
                 + [Dial(d.addr, s.next, Some(d.socket), Pending)]
            && (OnItsWay(known, begun + between, j) ==>
                  IsUp(Run(Started(known), begun + between + [Settles(j, false, refused)]), d.addr, d.socket, s.next))
  {
    var s := Run(Started(known), events);
    var begun := events + [Settles(i, false, false)];
    RunNext(known, events, Settles(i, false, false));
    RunConcat(Started(known), begun, between);
    RunFollows(Run(Started(known), begun), between);
    if OnItsWay(known, begun + between, |s.dials|) {
      RunNext(known, begun + between, Settles(|s.dials|, false, refused));
      SecondLeg(known, begun + between, |s.dials|, refused);
    }
  }

  /** This connect is still on its way. */
  predicate OnItsWay(known: Option<Address>, events: seq<Event>, i: nat) {
    i < |Run(Started(known), events).dials| && Run(Started(known), events).dials[i].outcome == Pending
  }

  /** Both channels are up, these two sockets, open to this host. */
  predicate IsUp(s: State, addr: Address, control: Socket, interrupt: Socket) {
    && s.control == Some(control) && s.interrupt == Some(interrupt) && OpenTo(s, control, addr)
    && OpenTo(s, interrupt, addr) && s.peer == Some(addr) && s.known == Some(addr) && !s.connecting
  }

  lemma SecondLeg(known: Option<Address>, events: seq<Event>, i: nat, refused: bool)
    requires OnItsWay(known, events, i) && Run(Started(known), events).dials[i].first.Some?
    ensures var d := Run(Started(known), events).dials[i];
            IsUp(Step(Run(Started(known), events), Settles(i, false, refused)), d.addr, d.first.value, d.socket)
  {
    var s := Run(Started(known), events);
    var d := s.dials[i];
    RunSound(known, events);
    assert DialSound(s, d);
    var begun := SetOutcome(s, i, Handed).(peer := Some(d.addr));
    AdoptedIs(begun, Control, d.first.value);
    AdoptedIs(Adopted(begun, Control, d.first.value), Interrupt, d.socket);
  }
}
