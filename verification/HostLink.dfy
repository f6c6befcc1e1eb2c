/** The two channels to the one host: accepted, dialled, dropped and replaced in any
    order, without a socket lost or two hosts at once. */
module HostLink {
  import opened Wrappers

  type Address = string
  type Socket = nat

  // -- what there is -----------------------------------------------------------

  datatype Kind = Control | Interrupt

  datatype Outcome = Pending | Handed | Failed

  /** One outbound connect: whom to, its socket, and, for the second leg, the control
      channel that the first one brought. */
  datatype Dial = Dial(addr: Address, socket: Socket, first: Option<Socket>, outcome: Outcome)

  /** The link, and the sockets the process has open, each with who is at the other
      end; a socket's number is never used again. */
  datatype State = State(
    control: Option<Socket>, interrupt: Option<Socket>, peer: Option<Address>,
    connecting: bool, known: Option<Address>, dials: seq<Dial>,
    open: set<Socket>, host: map<Socket, Address>, next: Socket)

  /** Nothing open; perhaps a host on record to dial. */
  function Started(known: Option<Address>): State {
    State(None, None, None, false, known, [], {}, map[], 0)
  }

  // -- what happens to it ------------------------------------------------------

  function Closed(s: State, socket: Socket): State { s.(open := s.open - {socket}) }

  function ChannelOf(s: State, kind: Kind): Option<Socket> {
    if kind == Control then s.control else s.interrupt
  }

  function WithChannel(s: State, kind: Kind, socket: Option<Socket>): State {
    if kind == Control then s.(control := socket) else s.(interrupt := socket)
  }

  function ChannelClosed(s: State, kind: Kind): State {
    if ChannelOf(s, kind).None? then s
    else WithChannel(Closed(s, ChannelOf(s, kind).value), kind, None)
  }

  function Adopted(s: State, kind: Kind, socket: Socket): State {
    var adopted := WithChannel(ChannelClosed(s, kind), kind, Some(socket));
    if kind == Interrupt then adopted.(known := s.peer) else adopted
  }

  /** A socket opened, to whoever is at its other end. */
  function SocketOpened(s: State, addr: Address): State {
    s.(open := s.open + {s.next}, host := s.host[s.next := addr], next := s.next + 1)
  }

  /** A host connects to us; a second host is refused. */
  function Incoming(s: State, kind: Kind, addr: Address): State {
    var o := SocketOpened(s, addr);
    if s.peer.Some? && s.peer.value != addr then Closed(o, s.next)
    else Adopted(o.(peer := Some(addr)), kind, s.next)
  }

  function Disconnected(s: State): State {
    ChannelClosed(ChannelClosed(s, Interrupt), Control).(peer := None)
  }

  /** A channel's host has gone, or reading or writing it failed. */
  function ChannelGone(s: State, kind: Kind): State {
    if ChannelOf(s, kind).None? then s else Disconnected(s)
  }

  /** The host unplugs its virtual cable: it is forgotten as well. */
  function Unplugged(s: State): State {
    if s.control.None? then s else Disconnected(s.(known := None))
  }

  /** One connect started; refused on the spot, it takes the first leg with it. */
  function Dialled(s: State, addr: Address, first: Option<Socket>, refused: bool): State {
    if refused then (if first.Some? then Closed(s, first.value) else s).(connecting := false)
    else
      var o := SocketOpened(s, addr);
      o.(dials := s.dials + [Dial(addr, s.next, first, Pending)])
  }

  function Connected(s: State): bool { s.control.Some? && s.interrupt.Some? }

  /** A key wants the host; `early` is the rate limit. */
  function Reconnected(s: State, early: bool, refused: bool): State {
    if Connected(s) || s.connecting || s.known.None? || early then s
    else Dialled(s.(connecting := true), s.known.value, None, refused)
  }

  function SetOutcome(s: State, i: nat, outcome: Outcome): State
    requires i < |s.dials|
  {
    s.(dials := s.dials[i := s.dials[i].(outcome := outcome)])
  }

  /** A dial is over, whichever of its two sources says so first; later ones say
      nothing.  A first leg goes on to the second; a second hands both over. */
  function Settled(s: State, i: nat, failed: bool, refused: bool): State {
    if i >= |s.dials| || s.dials[i].outcome != Pending then s
    else
      var d := s.dials[i];
      if failed then
        var o := Closed(SetOutcome(s, i, Failed), d.socket);
        (if d.first.Some? then Closed(o, d.first.value) else o).(connecting := false)
      else if d.first.None? then Dialled(SetOutcome(s, i, Handed), d.addr, Some(d.socket), refused)
      else BothUp(SetOutcome(s, i, Handed), d.addr, d.first.value, d.socket)
  }

  function BothUp(s: State, addr: Address, control: Socket, interrupt: Socket): State {
    Adopted(Adopted(s.(peer := Some(addr)), Control, control), Interrupt, interrupt).(connecting := false)
  }

  datatype Event =
    | Accepts(kind: Kind, addr: Address)
    | Ends(kind: Kind)
    | Unplugs
    | Wakes(early: bool, refused: bool)
    | Settles(i: nat, failed: bool, refused: bool)

  function Step(s: State, e: Event): State {
    match e
    case Accepts(kind, addr) => Incoming(s, kind, addr)
    case Ends(kind) => ChannelGone(s, kind)
    case Unplugs => Unplugged(s)
    case Wakes(early, refused) => Reconnected(s, early, refused)
    case Settles(i, failed, refused) => Settled(s, i, failed, refused)
  }

  function Run(s: State, events: seq<Event>): State {
    if events == [] then s else Step(Run(s, events[..|events| - 1]), events[|events| - 1])
  }

  // -- what is always so -------------------------------------------------------

  /** A socket something still answers for. */
  ghost predicate Referenced(s: State, socket: Socket) {
    || s.control == Some(socket) || s.interrupt == Some(socket)
    || exists i :: 0 <= i < |s.dials| && Holds(s.dials[i], socket)
  }

  predicate Holds(d: Dial, socket: Socket) {
    d.outcome == Pending && (d.socket == socket || d.first == Some(socket))
  }

  /** An open socket, with this host at the other end. */
  predicate OpenTo(s: State, socket: Socket, addr: Address) {
    socket in s.open && socket in s.host && s.host[socket] == addr
  }

  /** Open channels are the peer's, and there is a peer while there is a channel. */
  ghost predicate OneHost(s: State) {
    && (s.peer.None? <==> s.control.None? && s.interrupt.None?)
    && (s.control.Some? ==> OpenTo(s, s.control.value, s.peer.value))
    && (s.interrupt.Some? ==> OpenTo(s, s.interrupt.value, s.peer.value))
    && (s.control.Some? ==> s.control != s.interrupt)
  }

  /** Connecting means one dial pending, and never are there two. */
  ghost predicate OneDial(s: State) {
    && (forall i, j :: 0 <= i < j < |s.dials| ==> s.dials[i].outcome != Pending || s.dials[j].outcome != Pending)
    && (s.connecting <==> exists i :: 0 <= i < |s.dials| && s.dials[i].outcome == Pending)
  }

  /** What a dial holds is open, its host's, and nobody else's; what a failed one held
      is closed. */
  ghost predicate DialSound(s: State, d: Dial) {
    && d.socket < s.next && (d.first.Some? ==> d.first.value < s.next && d.first.value != d.socket)
    && (d.outcome == Pending ==>
          && OpenTo(s, d.socket, d.addr)
          && (d.first.Some? ==> OpenTo(s, d.first.value, d.addr))
          && Some(d.socket) != s.control && Some(d.socket) != s.interrupt
          && (d.first.Some? ==> d.first != s.control && d.first != s.interrupt))
    && (d.outcome == Failed ==> d.socket !in s.open && (d.first.Some? ==> d.first.value !in s.open))
  }

  ghost predicate NothingLost(s: State) {
    forall socket :: socket in s.open ==> socket < s.next && Referenced(s, socket)
  }

  ghost predicate Sound(s: State) {
    && OneHost(s) && OneDial(s) && NothingLost(s)
    && (forall i :: 0 <= i < |s.dials| ==> DialSound(s, s.dials[i]))
  }

  /** A socket that was referenced, and still is after a change that kept its holder. */
  lemma StillReferenced(s: State, after: State, socket: Socket)
    requires Referenced(s, socket)
    requires s.control == Some(socket) ==> after.control == s.control
    requires s.interrupt == Some(socket) ==> after.interrupt == s.interrupt
    requires |s.dials| <= |after.dials|
    requires forall i :: 0 <= i < |s.dials| && Holds(s.dials[i], socket) ==> after.dials[i] == s.dials[i]
    ensures Referenced(after, socket)
  {
    if i :| 0 <= i < |s.dials| && Holds(s.dials[i], socket) {
      assert Holds(after.dials[i], socket);
    }
  }

  /** Taking a channel over touches that channel, what it replaces, and no more. */
  lemma AdoptedIs(s: State, kind: Kind, socket: Socket)
    ensures var after := Adopted(s, kind, socket);
            && after.control == (if kind == Control then Some(socket) else s.control)
            && after.interrupt == (if kind == Interrupt then Some(socket) else s.interrupt)
            && after.open == s.open - (if ChannelOf(s, kind).Some? then {ChannelOf(s, kind).value} else {})
            && after.peer == s.peer && after.dials == s.dials && after.connecting == s.connecting
            && after.host == s.host && after.next == s.next
  {}

  lemma IncomingSound(s: State, kind: Kind, addr: Address)
    requires Sound(s)
    ensures Sound(Incoming(s, kind, addr))
  {
    if s.peer.Some? && s.peer.value != addr {
      SecondHostIsRefused(s, kind, addr);
      RefusedSound(s, kind, addr);
    } else {
      AdoptedIs(SocketOpened(s, addr).(peer := Some(addr)), kind, s.next);
      TakenSound(s, Incoming(s, kind, addr), kind, addr);
    }
  }

  /** A refused host changes nothing: its socket is closed and the link is as it was. */
  lemma SecondHostIsRefused(s: State, kind: Kind, addr: Address)
    requires Sound(s) && s.peer.Some? && s.peer.value != addr
    ensures Incoming(s, kind, addr) == s.(host := s.host[s.next := addr], next := s.next + 1)
  {
    assert s.next !in s.open;
    assert s.open + {s.next} - {s.next} == s.open;
  }

  lemma RefusedSound(s: State, kind: Kind, addr: Address)
    requires Sound(s)
    ensures Sound(s.(host := s.host[s.next := addr], next := s.next + 1))
  {
    var after := s.(host := s.host[s.next := addr], next := s.next + 1);
    forall socket | socket in after.open ensures Referenced(after, socket) {
      StillReferenced(s, after, socket);
    }
    forall i | 0 <= i < |after.dials| ensures DialSound(after, after.dials[i]) {
      assert DialSound(s, s.dials[i]);
    }
  }

  lemma TakenSound(s: State, after: State, kind: Kind, addr: Address)
    requires Sound(s) && (s.peer == None || s.peer == Some(addr))
    requires after.control == (if kind == Control then Some(s.next) else s.control)
    requires after.interrupt == (if kind == Interrupt then Some(s.next) else s.interrupt)
    requires after.open == s.open + {s.next} - (if ChannelOf(s, kind).Some? then {ChannelOf(s, kind).value} else {})
    requires after.peer == Some(addr) && after.dials == s.dials && after.connecting == s.connecting
    requires after.host == s.host[s.next := addr] && after.next == s.next + 1
    ensures Sound(after)
  {
    forall socket | socket in after.open ensures socket < after.next && Referenced(after, socket) {
      if socket != s.next {
        StillReferenced(s, after, socket);
      }
    }
    forall i | 0 <= i < |after.dials| ensures DialSound(after, after.dials[i]) {
      TakenDial(s, after, kind, addr, i);
    }
  }

  lemma TakenDial(s: State, after: State, kind: Kind, addr: Address, i: nat)
    requires Sound(s) && i < |s.dials|
    requires after.control == (if kind == Control then Some(s.next) else s.control)
    requires after.interrupt == (if kind == Interrupt then Some(s.next) else s.interrupt)
    requires after.open == s.open + {s.next} - (if ChannelOf(s, kind).Some? then {ChannelOf(s, kind).value} else {})
    requires after.host == s.host[s.next := addr] && after.next == s.next + 1
    ensures DialSound(after, s.dials[i])
  {
    assert DialSound(s, s.dials[i]);
  }

  lemma DisconnectedIs(s: State)
    ensures Disconnected(s) == s.(control := None, interrupt := None, peer := None,
              open := s.open - (if s.interrupt.Some? then {s.interrupt.value} else {})
                             - (if s.control.Some? then {s.control.value} else {}))
  {}

  lemma DisconnectedSound(s: State)
    requires Sound(s)
    ensures Sound(Disconnected(s))
    ensures Disconnected(s).peer == None && Disconnected(s).control == None && Disconnected(s).interrupt == None
  {
    DisconnectedIs(s);
    ChannelsDropped(s, Disconnected(s));
  }

  lemma ChannelsDropped(s: State, after: State)
    requires Sound(s)
    requires after == s.(control := None, interrupt := None, peer := None,
               open := s.open - (if s.interrupt.Some? then {s.interrupt.value} else {})
                              - (if s.control.Some? then {s.control.value} else {}))
    ensures Sound(after)
  {
    forall socket | socket in after.open ensures socket < after.next && Referenced(after, socket) {
      StillReferenced(s, after, socket);
    }
    forall i | 0 <= i < |after.dials| ensures DialSound(after, after.dials[i]) {
      assert DialSound(s, s.dials[i]);
    }
  }

  lemma KnownChanges(s: State, known: Option<Address>)
    requires Sound(s)
    ensures Sound(s.(known := known))
  {
    var after := s.(known := known);
    forall socket | socket in after.open ensures Referenced(after, socket) {
      StillReferenced(s, after, socket);
    }
    forall i | 0 <= i < |after.dials| ensures DialSound(after, after.dials[i]) {
      assert DialSound(s, s.dials[i]);
    }
  }

  /** The link as it is just before a dial: nothing pending, but one socket, it may be,
      in nobody's hands until the dial takes it. */
  ghost predicate Between(s: State, loose: Option<Socket>, addr: Address) {
    && OneHost(s)
    && (forall i :: 0 <= i < |s.dials| ==> s.dials[i].outcome != Pending && DialSound(s, s.dials[i]))
    && (forall socket :: socket in s.open ==> socket < s.next && (Referenced(s, socket) || loose == Some(socket)))
    && (loose.Some? ==> OpenTo(s, loose.value, addr) && loose != s.control && loose != s.interrupt)
  }

  lemma DialledSound(s: State, addr: Address, first: Option<Socket>, refused: bool)
    requires Between(s, first, addr) && s.connecting
    ensures Sound(Dialled(s, addr, first, refused))
  {
    var after := Dialled(s, addr, first, refused);
    if !refused {
      var n := |s.dials|;
      assert after.dials[n].outcome == Pending && Holds(after.dials[n], s.next);
      assert first.Some? ==> Holds(after.dials[n], first.value);
    }
    forall socket | socket in after.open ensures socket < after.next && Referenced(after, socket) {
      if socket in s.open && first != Some(socket) {
        StillReferenced(s, after, socket);
      }
    }
    forall i | 0 <= i < |s.dials| ensures DialSound(after, after.dials[i]) {
      assert DialSound(s, s.dials[i]) && after.dials[i] == s.dials[i];
    }
  }

  lemma ReconnectedSound(s: State, early: bool, refused: bool)
    requires Sound(s)
    ensures Sound(Reconnected(s, early, refused))
  {
    if !(Connected(s) || s.connecting || s.known.None? || early) {
      var started := s.(connecting := true);
      forall socket | socket in s.open ensures Referenced(started, socket) {
        StillReferenced(s, started, socket);
      }
      forall i | 0 <= i < |s.dials| ensures DialSound(started, s.dials[i]) {
        assert DialSound(s, s.dials[i]);
      }
      DialledSound(started, s.known.value, None, refused);
    }
  }

  lemma SettledFailed(s: State, i: nat)
    requires Sound(s) && i < |s.dials| && s.dials[i].outcome == Pending
    ensures Sound(Settled(s, i, true, false))
  {
    var d, after := s.dials[i], Settled(s, i, true, false);
    assert DialSound(s, d);
    forall socket | socket in after.open ensures socket < after.next && Referenced(after, socket) {
      assert !Holds(d, socket);
      StillReferenced(s, after, socket);
    }
    forall j | 0 <= j < |after.dials| ensures DialSound(after, after.dials[j]) && after.dials[j].outcome != Pending {
      assert DialSound(s, s.dials[j]);
    }
  }

  lemma HandedBetween(s: State, i: nat)
    requires Sound(s) && i < |s.dials| && s.dials[i].outcome == Pending && s.dials[i].first == None
    ensures Between(SetOutcome(s, i, Handed), Some(s.dials[i].socket), s.dials[i].addr)
  {
    var d, after := s.dials[i], SetOutcome(s, i, Handed);
    assert DialSound(s, d);
    forall socket | socket in after.open && socket != d.socket ensures Referenced(after, socket) {
      assert !Holds(d, socket);
      StillReferenced(s, after, socket);
    }
    forall j | 0 <= j < |after.dials| ensures DialSound(after, after.dials[j]) && after.dials[j].outcome != Pending {
      assert DialSound(s, s.dials[j]);
    }
  }

  lemma BothUpSound(s: State, i: nat)
    requires Sound(s) && i < |s.dials| && s.dials[i].outcome == Pending && s.dials[i].first.Some?
    ensures Sound(Settled(s, i, false, false))
  {
    var d := s.dials[i];
    var begun := SetOutcome(s, i, Handed).(peer := Some(d.addr));
    AdoptedIs(begun, Control, d.first.value);
    AdoptedIs(Adopted(begun, Control, d.first.value), Interrupt, d.socket);
    HandedOverSound(s, i, Settled(s, i, false, false));
  }

  /** Both channels replaced by what the dial brought. */
  lemma HandedOverSound(s: State, i: nat, after: State)
    requires Sound(s) && i < |s.dials| && s.dials[i].outcome == Pending && s.dials[i].first.Some?
    requires after.control == s.dials[i].first && after.interrupt == Some(s.dials[i].socket)
    requires after.open == s.open - (if s.control.Some? then {s.control.value} else {})
                                  - (if s.interrupt.Some? then {s.interrupt.value} else {})
    requires after.peer == Some(s.dials[i].addr) && !after.connecting
    requires after.dials == s.dials[i := s.dials[i].(outcome := Handed)]
    requires after.host == s.host && after.next == s.next
    ensures Sound(after)
  {
    var d := s.dials[i];
    assert DialSound(s, d);
    forall socket | socket in after.open ensures socket < after.next && Referenced(after, socket) {
      assert Referenced(s, socket);
    }
    forall j | 0 <= j < |after.dials| ensures DialSound(after, after.dials[j]) && after.dials[j].outcome != Pending {
      assert DialSound(s, s.dials[j]);
    }
  }

  lemma StepSound(s: State, e: Event)
    requires Sound(s)
    ensures Sound(Step(s, e))
  {
    match e
    case Accepts(kind, addr) => IncomingSound(s, kind, addr);
    case Ends(kind) => DisconnectedSound(s);
    case Unplugs => KnownChanges(s, None); DisconnectedSound(s.(known := None));
    case Wakes(early, refused) => ReconnectedSound(s, early, refused);
    case Settles(i, failed, refused) =>
      if i < |s.dials| && s.dials[i].outcome == Pending {
        if failed {
          SettledFailed(s, i);
        } else if s.dials[i].first.None? {
          HandedBetween(s, i);
          assert s.connecting;
          DialledSound(SetOutcome(s, i, Handed), s.dials[i].addr, Some(s.dials[i].socket), refused);
        } else {
          BothUpSound(s, i);
        }
      }
  }

  /** At every boundary of every run: one host at a time, one dial at a time, and no
      socket open that nothing answers for. */
  lemma {:induction false} RunSound(known: Option<Address>, events: seq<Event>)
    ensures Sound(Run(Started(known), events))
  {
    if events != [] {
      RunSound(known, events[..|events| - 1]);
      StepSound(Run(Started(known), events[..|events| - 1]), events[|events| - 1]);
    }
  }

  // -- what is settled stays settled -------------------------------------------

  /** Later dials come after, and one that is over is over. */
  predicate Follows(s: State, after: State) {
    && |s.dials| <= |after.dials|
    && (forall i :: 0 <= i < |s.dials| ==>
          && after.dials[i].(outcome := s.dials[i].outcome) == s.dials[i]
          && (s.dials[i].outcome != Pending ==> after.dials[i] == s.dials[i]))
  }

  lemma SettledFollows(s: State, i: nat, failed: bool, refused: bool)
    ensures Follows(s, Settled(s, i, failed, refused))
  {
    if i < |s.dials| && s.dials[i].outcome == Pending && !failed && s.dials[i].first.Some? {
      var d := s.dials[i];
      var begun := SetOutcome(s, i, Handed).(peer := Some(d.addr));
      AdoptedIs(begun, Control, d.first.value);
      AdoptedIs(Adopted(begun, Control, d.first.value), Interrupt, d.socket);
    }
  }

  lemma StepFollows(s: State, e: Event)
    ensures Follows(s, Step(s, e))
  {
    match e
    case Accepts(kind, addr) => AdoptedIs(SocketOpened(s, addr).(peer := Some(addr)), kind, s.next);
    case Settles(i, failed, refused) => SettledFollows(s, i, failed, refused);
    case _ =>
  }

  lemma {:induction false} RunFollows(s: State, events: seq<Event>)
    ensures Follows(s, Run(s, events))
  {
    if events != [] {
      var front := events[..|events| - 1];
      RunFollows(s, front);
      StepFollows(Run(s, front), events[|events| - 1]);
    }
  }

  lemma {:induction false} RunConcat(s: State, a: seq<Event>, b: seq<Event>)
    ensures Run(s, a + b) == Run(Run(s, a), b)
    decreases |b|
  {
    if b == [] {
      assert a + b == a;
    } else {
      assert (a + b)[..|a + b| - 1] == a + b[..|b| - 1];
      RunConcat(s, a, b[..|b| - 1]);
    }
  }

  /** A dial settles once, whatever fires afterwards; one that failed has closed its
      socket, and the control channel that came before it, for good. */
  lemma DialsSettleOnce(known: Option<Address>, before: seq<Event>, later: seq<Event>, i: nat)
    requires i < |Run(Started(known), before).dials| && Run(Started(known), before).dials[i].outcome != Pending
    ensures var d, s := Run(Started(known), before).dials[i], Run(Started(known), before + later);
            && i < |s.dials| && s.dials[i] == d
            && (d.outcome == Failed ==> d.socket !in s.open && (d.first.Some? ==> d.first.value !in s.open))
  {
    RunConcat(Started(known), before, later);
    RunFollows(Run(Started(known), before), later);
    RunSound(known, before + later);
    assert DialSound(Run(Started(known), before + later), Run(Started(known), before + later).dials[i]);
  }

  // -- the object --------------------------------------------------------------

  /** The process's own sockets, and who is at the other end of each. */
  class Sockets {
    var open: set<Socket>
    var host: map<Socket, Address>
    var next: Socket

    constructor ()
      ensures open == {} && host == map[] && next == 0
    {
      open, host, next := {}, map[], 0;
    }

    method Open(addr: Address) returns (socket: Socket)
      modifies this
      ensures socket == old(next) && next == old(next) + 1
      ensures open == old(open) + {socket} && host == old(host)[socket := addr]
    {
      socket := next;
      open, host, next := open + {socket}, host[socket := addr], next + 1;
    }

    method Close(socket: Socket)
      modifies this`open
      ensures open == old(open) - {socket}
    {
      open := open - {socket};
    }
  }

  class BluetoothHid {
    const sockets: Sockets
    var control: Option<Socket>
    var interrupt: Option<Socket>
    var peer: Option<Address>
    var connecting: bool
    var known: Option<Address>
    var dials: seq<Dial>            // what the sources of each dial remember of it

    function View(): State
      reads this, sockets
    {
      State(control, interrupt, peer, connecting, known, dials, sockets.open, sockets.host, sockets.next)
    }

    constructor (sockets: Sockets, known: Option<Address>)
      ensures this.sockets == sockets
      ensures control == None && interrupt == None && peer == None && !connecting && this.known == known && dials == []
    {
      this.sockets, this.known := sockets, known;
      control, interrupt, peer, connecting, dials := None, None, None, false, [];
    }

    method CloseChannel(kind: Kind)
      modifies this`control, this`interrupt, sockets`open
      ensures View() == ChannelClosed(old(View()), kind)
    {
      if kind == Control {
        if control.Some? {
          sockets.Close(control.value);
          control := None;
        }
      } else if interrupt.Some? {
        sockets.Close(interrupt.value);
        interrupt := None;
      }
    }

    method Adopt(kind: Kind, socket: Socket)
      modifies this`control, this`interrupt, this`known, sockets`open
      ensures View() == Adopted(old(View()), kind, socket)
    {
      CloseChannel(kind);
      if kind == Control {
        control := Some(socket);
      } else {
        interrupt := Some(socket);
        known := peer;
      }
    }

    method OnIncoming(kind: Kind, addr: Address)
      modifies this, sockets
      ensures View() == Incoming(old(View()), kind, addr)
    {
      var socket := sockets.Open(addr);
      if peer.Some? && addr != peer.value {
        sockets.Close(socket);
        return;
      }
      peer := Some(addr);
      Adopt(kind, socket);
    }

    method Disconnect()
      modifies this`control, this`interrupt, this`peer, sockets`open
      ensures View() == Disconnected(old(View()))
    {
      CloseChannel(Interrupt);
      CloseChannel(Control);
      peer := None;
    }

    /** Reading or writing this channel failed, or its host closed it. */
    method ChannelFails(kind: Kind)
      modifies this`control, this`interrupt, this`peer, sockets`open
      ensures View() == ChannelGone(old(View()), kind)
    {
      if (kind == Control && control.None?) || (kind == Interrupt && interrupt.None?) {
        return;
      }
      Disconnect();
    }

    method VirtualCableUnplug()
      modifies this, sockets`open
      ensures View() == Unplugged(old(View()))
    {
      if control.Some? {
        known := None;
        Disconnect();
      }
    }

    method DialFailed()
      modifies this`connecting
      ensures !connecting
    {
      connecting := false;
    }

    method StartDial(addr: Address, first: Option<Socket>, refused: bool)
      modifies this`connecting, this`dials, sockets
      ensures View() == Dialled(old(View()), addr, first, refused)
    {
      if refused {
        if first.Some? {
          sockets.Close(first.value);
        }
        DialFailed();
        return;
      }
      var socket := sockets.Open(addr);
      dials := dials + [Dial(addr, socket, first, Pending)];
    }

    method Reconnect(early: bool, refused: bool)
      modifies this`connecting, this`dials, sockets
      ensures View() == Reconnected(old(View()), early, refused)
    {
      if (control.Some? && interrupt.Some?) || connecting || known.None? || early {
        return;
      }
      connecting := true;
      StartDial(known.value, None, refused);
    }

    method InterruptUp(addr: Address, first: Socket, socket: Socket)
      modifies this, sockets`open
      ensures View() == BothUp(old(View()), addr, first, socket)
    {
      peer := Some(addr);
      Adopt(Control, first);
      Adopt(Interrupt, socket);
      connecting := false;
    }

    /** Whichever of a dial's two sources fires first; the other is dropped. */
    method Settle(i: nat, failed: bool, refused: bool)
      modifies this, sockets
      ensures View() == Settled(old(View()), i, failed, refused)
    {
      if i >= |dials| || dials[i].outcome != Pending {
        return;
      }
      var d := dials[i];
      if failed {
        dials := dials[i := d.(outcome := Failed)];
        sockets.Close(d.socket);
        if d.first.Some? {
          sockets.Close(d.first.value);
        }
        DialFailed();
      } else {
        dials := dials[i := d.(outcome := Handed)];
        if d.first.None? {
          StartDial(d.addr, Some(d.socket), refused);
        } else {
          InterruptUp(d.addr, d.first.value, d.socket);
        }
      }
    }
  }
}
