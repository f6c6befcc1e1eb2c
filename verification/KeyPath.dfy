/** From keys to reports: what a key does to the state the session keeps, with the
    console's own chords taken out. */
module KeyPath {
  import opened Keycodes
  import Numerals
  import Passkeys
  import opened Seqs

  const ERROR_ROLLOVER: Usage := 0x01

  /** The light each lock key has in the host's LED report. */
  const LOCK_KEYS: map<Keycode, Modifiers> := map[58 := 0x02, 69 := 0x01, 70 := 0x04]

  datatype Output = KeyboardReport(mods: Modifiers, slots: seq<Usage>) | ConsumerReport(usage: Usage)

  datatype KeyEvent = KeyEvent(keycode: Keycode, isPress: bool)

  /** What a key meets when it comes: the tables of the media keys and of the function
      keys, the top row as this phone wants it, the console the program is on, whether
      the link is up, and whether a passkey is being entered. */
  datatype Setting = Setting(
    consumer: map<Keycode, Usage>, functions: map<Keycode, nat>, topRow: map<Keycode, Keycode>,
    console: nat, up: bool, entering: bool)

  /** What the session keeps: the keys down in press order, the modifiers, whether its
      console is in front, the consoles it asked for, the lock lights and whether the
      phone has reported them, and what was sent since the link came up. */
  datatype Hands = Hands(
    pressed: seq<Keycode>, modifiers: Modifiers, foreground: bool, asked: seq<nat>,
    leds: Modifiers, fromHost: bool, sent: seq<Output>)

  /** As a session begins. */
  const START: Hands := Hands([], 0, false, [], 0, false, [])

  /** What happens to it: a key; the link lost or raised; its console gone from the
      front or come back; the keyboards taken, or one of them gone, with what the rest
      hold; the phone's own report of its locks. */
  datatype Moment =
    | Key(at: Setting, e: KeyEvent)
    | Lost
    | Raised
    | Left(up: bool)
    | Front
    | Taken(held: seq<Keycode>)
    | Gone(up: bool, held: seq<Keycode>)
    | HostLeds(mask: Modifiers)

  // -- reports -----------------------------------------------------------------

  predicate InTable(kb: Keyboard, pressed: seq<Keycode>) {
    forall i :: 0 <= i < |pressed| ==> pressed[i] in kb
  }

  function Usages(kb: Keyboard, pressed: seq<Keycode>): (r: seq<Usage>)
    requires InTable(kb, pressed)
    ensures |r| == |pressed| && forall i :: 0 <= i < |r| ==> r[i] == kb[pressed[i]]
  {
    seq(|pressed|, i requires 0 <= i < |pressed| => kb[pressed[i]])
  }

  /** Six slots, or all of them the error that says there are more keys down. */
  function Slots(kb: Keyboard, pressed: seq<Keycode>): seq<Usage>
    requires InTable(kb, pressed)
  {
    if |pressed| > 6 then Repeated(ERROR_ROLLOVER, 6) else Usages(kb, pressed)
  }

  /** A short list is padded with zeros, and a long one cut. */
  function SixSlots(keys: seq<Usage>): (r: seq<Usage>)
    ensures |r| == 6
  {
    var kept := if |keys| > 6 then keys[..6] else keys;
    kept + Repeated(0, 6 - |kept|)
  }

  function Report(kb: Keyboard, pressed: seq<Keycode>, modifiers: Modifiers): Output
    requires InTable(kb, pressed)
  {
    KeyboardReport(modifiers, SixSlots(Slots(kb, pressed)))
  }

  const EMPTY: Output := KeyboardReport(0, SixSlots([]))

  // -- one key -----------------------------------------------------------------

  predicate AltHeld(modifiers: Modifiers) { modifiers & (MOD_LEFTALT | MOD_RIGHTALT) != 0 }

  predicate CtrlHeld(modifiers: Modifiers) { modifiers & (MOD_LEFTCTRL | MOD_RIGHTCTRL) != 0 }

  /** Where a key that is no modifier goes. */
  datatype Route = SwitchTo(vt: nat) | Quits | Passkey | Consumer(usage: Usage) | Nowhere | Phone(code: Keycode)

  /** Where a key goes that is no console chord: to passkey entry while there is one,
      or to the phone by way of its top row. */
  function PlainRoute(kb: Keyboard, at: Setting, e: KeyEvent): (r: Route)
    ensures r.Phone? ==> r.code in kb
    ensures !r.SwitchTo? && !r.Quits?
  {
    if at.entering then Passkey
    else
      var code := if e.keycode in at.topRow then at.topRow[e.keycode] else e.keycode;
      if code in at.consumer then Consumer(if e.isPress then at.consumer[code] else 0)
      else if code !in kb then Nowhere
      else Phone(code)
  }

  /** The console's chords come first. */
  function RouteOf(kb: Keyboard, at: Setting, alt: bool, ctrl: bool, e: KeyEvent): (r: Route)
    ensures r.Phone? ==> r.code in kb
  {
    if e.isPress && alt && e.keycode in at.functions then SwitchTo(at.functions[e.keycode])
    else if e.isPress && alt && !ctrl && e.keycode == KEY_ESC then Quits
    else PlainRoute(kb, at, e)
  }

  /** Where any key goes; a modifier only changes the modifiers. */
  function Meant(kb: Keyboard, at: Setting, modifiers: Modifiers, e: KeyEvent): Route {
    if e.keycode in MODIFIERS then Nowhere else RouteOf(kb, at, AltHeld(modifiers), CtrlHeld(modifiers), e)
  }

  function WithModifier(modifiers: Modifiers, keycode: Keycode, isPress: bool): Modifiers
    requires keycode in MODIFIERS
  {
    if isPress then modifiers | MODIFIERS[keycode] else modifiers & !MODIFIERS[keycode]
  }

  function Without(pressed: seq<Keycode>, code: Keycode): seq<Keycode> {
    if pressed == [] then []
    else if pressed[0] == code then pressed[1..]
    else [pressed[0]] + Without(pressed[1..], code)
  }

  function WithKey(pressed: seq<Keycode>, code: Keycode, isPress: bool): seq<Keycode> {
    if isPress then (if code in pressed then pressed else pressed + [code]) else Without(pressed, code)
  }

  lemma WithKeyInTable(kb: Keyboard, pressed: seq<Keycode>, code: Keycode, isPress: bool)
    requires InTable(kb, pressed) && code in kb
    ensures InTable(kb, WithKey(pressed, code, isPress))
  {
    if !isPress {
      WithoutInTable(kb, pressed, code);
    }
  }

  lemma {:induction false} WithoutInTable(kb: Keyboard, pressed: seq<Keycode>, code: Keycode)
    requires InTable(kb, pressed)
    ensures InTable(kb, Without(pressed, code))
  {
    if pressed != [] && pressed[0] != code {
      WithoutInTable(kb, pressed[1..], code);
    }
  }

  lemma {:induction false} WithoutNothing(pressed: seq<Keycode>, code: Keycode)
    requires code !in pressed
    ensures Without(pressed, code) == pressed
  {
    if pressed != [] {
      WithoutNothing(pressed[1..], code);
    }
  }

  /** Reports go nowhere while the link is down. */
  function Say(up: bool, s: Hands, outputs: seq<Output>): Hands {
    if up then s.(sent := s.sent + outputs) else s
  }

  /** Everything lifted, and the phone told so. */
  function LetGo(up: bool, s: Hands): Hands {
    Say(up, s.(pressed := [], modifiers := 0), [EMPTY, ConsumerReport(0)])
  }

  /** Its console gone from the front. */
  function Leave(up: bool, s: Hands): Hands {
    if s.foreground then LetGo(up, s.(foreground := false)) else s
  }

  /** A lock key toggles its light, until the phone has reported its own. */
  function Lights(leds: Modifiers, fromHost: bool, code: Keycode): Modifiers {
    if fromHost || code !in LOCK_KEYS then leds else leds ^ LOCK_KEYS[code]
  }

  /** A key for the phone. */
  function Forwarded(kb: Keyboard, up: bool, s: Hands, code: Keycode, isPress: bool): (r: Hands)
    requires InTable(kb, s.pressed) && code in kb
    ensures InTable(kb, r.pressed)
  {
    WithKeyInTable(kb, s.pressed, code, isPress);
    var pressed := WithKey(s.pressed, code, isPress);
    var after := Say(up, s.(pressed := pressed), [Report(kb, pressed, s.modifiers)]);
    if isPress && up then after.(leds := Lights(s.leds, s.fromHost, code)) else after
  }

  /** A key taken where it goes. */
  function Routed(kb: Keyboard, at: Setting, s: Hands, route: Route, isPress: bool): (r: Hands)
    requires InTable(kb, s.pressed) && (route.Phone? ==> route.code in kb)
    ensures InTable(kb, r.pressed)
  {
    match route
    case SwitchTo(vt) => if vt == at.console then s else Leave(at.up, s).(asked := s.asked + [vt])
    case Quits => s
    case Passkey => s
    case Consumer(usage) => Say(at.up, s, [ConsumerReport(usage)])
    case Nowhere => s
    case Phone(code) => Forwarded(kb, at.up, s, code, isPress)
  }

  /** A modifier is kept track of in every mode, but the phone is not told while a
      passkey is being entered. */
  function ModifierMovedIn(kb: Keyboard, at: Setting, s: Hands, e: KeyEvent): (r: Hands)
    requires InTable(kb, s.pressed) && e.keycode in MODIFIERS
    ensures r.pressed == s.pressed
  {
    var modifiers := WithModifier(s.modifiers, e.keycode, e.isPress);
    if at.entering then s.(modifiers := modifiers)
    else Say(at.up, s.(modifiers := modifiers), [Report(kb, s.pressed, modifiers)])
  }

  /** One key event. */
  function Step(kb: Keyboard, at: Setting, s: Hands, e: KeyEvent): (r: Hands)
    requires InTable(kb, s.pressed)
    ensures InTable(kb, r.pressed)
  {
    if e.keycode in MODIFIERS then ModifierMovedIn(kb, at, s, e)
    else Routed(kb, at, s, RouteOf(kb, at, AltHeld(s.modifiers), CtrlHeld(s.modifiers), e), e.isPress)
  }

  // -- what else happens -------------------------------------------------------

  function Members(held: seq<Keycode>): set<Keycode> { set code | code in held }

  /** The keys among these that are still held, in the order they were. */
  function Still(pressed: seq<Keycode>, held: seq<Keycode>): seq<Keycode> {
    if pressed == [] then []
    else
      var front, last := Still(pressed[..|pressed| - 1], held), pressed[|pressed| - 1];
      if last in held then front + [last] else front
  }

  /** Exactly those pressed and held remain. */
  lemma {:induction false} StillMembers(pressed: seq<Keycode>, held: seq<Keycode>, code: Keycode)
    ensures code in Still(pressed, held) <==> code in pressed && code in held
    decreases |pressed|
  {
    if pressed != [] {
      StillMembers(pressed[..|pressed| - 1], held, code);
      assert pressed == pressed[..|pressed| - 1] + [pressed[|pressed| - 1]];
    }
  }

  lemma StillInTable(kb: Keyboard, pressed: seq<Keycode>, held: seq<Keycode>)
    requires InTable(kb, pressed)
    ensures InTable(kb, Still(pressed, held))
  {
    var still := Still(pressed, held);
    forall i | 0 <= i < |still| ensures still[i] in kb {
      StillMembers(pressed, held, still[i]);
      assert still[i] in pressed;
    }
  }

  /** A keyboard gone: what is still down is what the others hold. */
  function Remaining(kb: Keyboard, up: bool, s: Hands, held: seq<Keycode>): (r: Hands)
    requires InTable(kb, s.pressed)
    ensures InTable(kb, r.pressed)
  {
    StillInTable(kb, s.pressed, held);
    var pressed, modifiers := Still(s.pressed, held), ModifiersOf(Members(held));
    Say(up, s.(pressed := pressed, modifiers := modifiers), [Report(kb, pressed, modifiers), ConsumerReport(0)])
  }

  function Happen(kb: Keyboard, s: Hands, moment: Moment): (r: Hands)
    requires InTable(kb, s.pressed)
    ensures InTable(kb, r.pressed)
  {
    match moment
    case Key(at, e) => Step(kb, at, s, e)
    case Lost => s.(pressed := [], modifiers := 0, leds := 0, sent := [])
    case Raised => s.(leds := 0)
    case Left(up) => Leave(up, s)
    case Front => s.(foreground := true)
    case Taken(held) => s.(modifiers := ModifiersOf(Members(held)))
    case Gone(up, held) => Remaining(kb, up, s, held)
    case HostLeds(mask) => s.(leds := mask, fromHost := true)
  }

  /** All that has happened since the session began. */
  function Run(kb: Keyboard, moments: seq<Moment>): (r: Hands)
    ensures InTable(kb, r.pressed)
  {
    if moments == [] then START
    else Happen(kb, Run(kb, moments[..|moments| - 1]), moments[|moments| - 1])
  }

  // -- the session -------------------------------------------------------------

  /** The link as the keyboard sees it: up or not, and what was sent; while it is
      down a report only asks for a new connection. */
  class HidLink {
    var connected: bool
    var sent: seq<Output>
    var calls: nat

    constructor ()
      ensures !connected && sent == [] && calls == 0
    {
      connected, sent, calls := false, [], 0;
    }

    method SendKeyboard(modifiers: Modifiers, keys: seq<Usage>)
      modifies this`sent
      ensures sent == old(sent) + [KeyboardReport(modifiers, SixSlots(keys))]
    {
      sent := sent + [KeyboardReport(modifiers, SixSlots(keys))];
    }

    method SendConsumer(usage: Usage)
      modifies this`sent
      ensures sent == old(sent) + [ConsumerReport(usage)]
    {
      sent := sent + [ConsumerReport(usage)];
    }

    /** The link lost: what the phone was told is forgotten with it. */
    method Drop()
      modifies this`connected, this`sent
      ensures !connected && sent == []
    {
      connected, sent := false, [];
    }

    method Reconnect()
      modifies this`calls
      ensures calls == old(calls) + 1
    {
      calls := calls + 1;
    }
  }

  class Session {
    const kb: Keyboard
    const console: nat
    const noReconnect: bool
    const link: HidLink
    const pairing: Passkeys.Pairing
    var pressed: seq<Keycode>       // in the order they went down
    var modifiers: Modifiers
    var topRow: map<Keycode, Keycode>
    var foreground: bool
    var asked: seq<nat>             // the consoles asked for
    var leds: Modifiers
    var ledsFromHost: bool
    var quitting: bool

    predicate Valid()
      reads this, pairing
    {
      InTable(kb, pressed) && (pairing.digits.Some? ==> Numerals.AllDigits(pairing.digits.value))
    }

    function Now(): Setting
      reads this, link, pairing
    {
      Setting(CONSUMER, FUNCTION_KEYS, topRow, console, link.connected, pairing.digits.Some?)
    }

    function Holding(): Hands
      reads this, link
    {
      Hands(pressed, modifiers, foreground, asked, leds, ledsFromHost, link.sent)
    }

    constructor (kb: Keyboard, console: nat, noReconnect: bool, link: HidLink, pairing: Passkeys.Pairing)
      ensures this.kb == kb && this.console == console && this.link == link && this.pairing == pairing
      ensures link.sent == [] ==> Holding() == START
      ensures !quitting
    {
      this.kb, this.console, this.noReconnect, this.link, this.pairing := kb, console, noReconnect, link, pairing;
      pressed, modifiers, topRow, foreground, asked := [], 0, map[], false, [];
      leds, ledsFromHost, quitting := 0, false, false;
    }

    method MaybeReconnect()
      modifies link`calls
    {
      if !noReconnect {
        link.Reconnect();
      }
    }

    method SendKeyboard()
      requires InTable(kb, pressed)
      modifies link`sent, link`calls
      ensures Holding() == Say(link.connected, old(Holding()), [Report(kb, pressed, modifiers)])
    {
      if !link.connected {
        MaybeReconnect();
        return;
      }
      if |pressed| > 6 {
        link.SendKeyboard(modifiers, Repeated(ERROR_ROLLOVER, 6));
      } else {
        var slots: seq<Usage> := [];
        for i := 0 to |pressed|
          invariant |slots| == i && forall j :: 0 <= j < i ==> slots[j] == kb[pressed[j]]
        {
          slots := slots + [kb[pressed[i]]];
        }
        assert slots == Usages(kb, pressed);
        link.SendKeyboard(modifiers, slots);
      }
    }

    method SendConsumer(usage: Usage)
      modifies link`sent, link`calls
      ensures Holding() == Say(link.connected, old(Holding()), [ConsumerReport(usage)])
    {
      if !link.connected {
        MaybeReconnect();
        return;
      }
      link.SendConsumer(usage);
    }

    /** Everything up, here and, with the link up, on the phone. */
    method ReleaseAll()
      modifies this`pressed, this`modifiers, link`sent
      ensures Holding() == LetGo(link.connected, old(Holding()))
    {
      pressed, modifiers := [], 0;
      if link.connected {
        link.SendKeyboard(0, []);
        link.SendConsumer(0);
      }
    }

    /** The console no longer in front, as far as keys go. */
    method LeaveFront()
      requires InTable(kb, pressed)
      modifies this`pressed, this`modifiers, this`foreground, link`sent
      ensures Holding() == Happen(kb, old(Holding()), Left(link.connected))
    {
      if foreground {
        foreground := false;
        ReleaseAll();
      }
    }

    method SwitchVt(target: nat)
      requires InTable(kb, pressed)
      modifies this`pressed, this`modifiers, this`foreground, this`asked, link`sent
      ensures Holding() == Routed(kb, old(Now()), old(Holding()), SwitchTo(target), true)
    {
      if target == console {
        return;
      }
      LeaveFront();
      asked := asked + [target];
    }

    method PressOrRelease(code: Keycode, isPress: bool)
      requires InTable(kb, pressed) && code in kb
      modifies this`pressed
      ensures pressed == WithKey(old(pressed), code, isPress) && InTable(kb, pressed)
    {
      WithKeyInTable(kb, pressed, code, isPress);
      if isPress {
        if code !in pressed {
          pressed := pressed + [code];
        }
      } else if code in pressed {
        pressed := Without(pressed, code);
      } else {
        WithoutNothing(pressed, code);
      }
    }

    /** Follow a lock key just forwarded, as long as nothing else tells. */
    method NoteLockKey(keycode: Keycode)
      modifies this`leds
      ensures leds == Lights(old(leds), ledsFromHost, keycode)
    {
      if ledsFromHost || keycode !in LOCK_KEYS {
        return;
      }
      leds := leds ^ LOCK_KEYS[keycode];
    }

    method OnHostLeds(mask: Modifiers)
      requires InTable(kb, pressed)
      modifies this`leds, this`ledsFromHost
      ensures Holding() == Happen(kb, old(Holding()), HostLeds(mask))
    {
      ledsFromHost := true;
      leds := mask;
    }

    /** The link up, with the top row this phone wants. */
    method OnConnected(wanted: map<Keycode, Keycode>)
      requires InTable(kb, pressed)
      modifies this`leds, this`topRow
      ensures Holding() == Happen(kb, old(Holding()), Raised) && topRow == wanted
    {
      leds := 0;
      topRow := wanted;
    }

    /** The link gone, after its `Drop`. */
    method OnDisconnected()
      requires InTable(kb, pressed) && !link.connected && link.sent == []
      modifies this`pressed, this`modifiers, this`leds, link`sent
      ensures Holding() == Happen(kb, old(Holding()), Lost)
    {
      ReleaseAll();
      leds := 0;
    }

    /** On taking the keyboards: what is physically held is adopted, the phone not told. */
    method SyncHeld(held: seq<Keycode>)
      requires InTable(kb, pressed)
      modifies this`modifiers
      ensures Holding() == Happen(kb, old(Holding()), Taken(held))
    {
      modifiers := SyncModifiers(held);
    }

    method HandleModifier(keycode: Keycode, isPress: bool)
      requires Valid() && keycode in MODIFIERS
      modifies this`modifiers, link`sent, link`calls
      ensures Holding() == ModifierMovedIn(kb, Now(), old(Holding()), KeyEvent(keycode, isPress))
    {
      modifiers := WithModifier(modifiers, keycode, isPress);
      if pairing.digits.None? {
        SendKeyboard();
      }
    }

    /** One key event: held to the same as the specification, with what is left of it
        during passkey entry given to the pairing. */
    method HandleKey(keycode: Keycode, isPress: bool)
      requires Valid()
      modifies this`pressed, this`modifiers, this`foreground, this`asked, this`leds, this`quitting
      modifies link`sent, link`calls
      modifies pairing, pairing.agent, pairing.agent.bus
      ensures Holding() == Step(kb, old(Now()), old(Holding()), KeyEvent(keycode, isPress))
      ensures pairing.View() ==
        if Meant(kb, old(Now()), old(modifiers), KeyEvent(keycode, isPress)) == Passkey
        then Passkeys.Keyed(old(pairing.View()), keycode, isPress) else old(pairing.View())
      ensures quitting == (old(quitting) || Meant(kb, old(Now()), old(modifiers), KeyEvent(keycode, isPress)) == Quits)
    {
      if keycode in MODIFIERS {
        HandleModifier(keycode, isPress);
        return;
      }
      HandleOtherKey(keycode, isPress);
    }

    /** A key that is no modifier. */
    method HandleOtherKey(keycode: Keycode, isPress: bool)
      requires Valid()
      modifies this`pressed, this`modifiers, this`foreground, this`asked, this`leds, this`quitting
      modifies link`sent, link`calls
      modifies pairing, pairing.agent, pairing.agent.bus
      ensures var route := RouteOf(kb, old(Now()), AltHeld(old(modifiers)), CtrlHeld(old(modifiers)),
                                   KeyEvent(keycode, isPress));
              && Holding() == Routed(kb, old(Now()), old(Holding()), route, isPress)
              && pairing.View() == (if route == Passkey then Passkeys.Keyed(old(pairing.View()), keycode, isPress)
                                    else old(pairing.View()))
              && quitting == (old(quitting) || route == Quits)
    {
      var taken := HandleChord(keycode, isPress);
      if !taken {
        HandlePlainKey(keycode, isPress);
      }
    }

    /** The console's chords, whatever mode the rest of the program is in. */
    method HandleChord(keycode: Keycode, isPress: bool) returns (taken: bool)
      requires Valid()
      modifies this`pressed, this`modifiers, this`foreground, this`asked, this`quitting, link`sent
      ensures var route := RouteOf(kb, old(Now()), AltHeld(old(modifiers)), CtrlHeld(old(modifiers)),
                                   KeyEvent(keycode, isPress));
              && taken == (route.SwitchTo? || route.Quits?)
              && (taken ==> Holding() == Routed(kb, old(Now()), old(Holding()), route, isPress))
              && (!taken ==> Holding() == old(Holding()))
              && (!taken ==> route == PlainRoute(kb, old(Now()), KeyEvent(keycode, isPress)))
              && quitting == (old(quitting) || route.Quits?)
    {
      if isPress && AltHeld(modifiers) {
        if keycode in FUNCTION_KEYS {
          SwitchVt(FUNCTION_KEYS[keycode]);
          return true;
        }
        if keycode == KEY_ESC && !CtrlHeld(modifiers) {
          quitting := true;
          return true;
        }
      }
      return false;
    }

    /** A key that is no chord. */
    method HandlePlainKey(keycode: Keycode, isPress: bool)
      requires Valid()
      modifies this`pressed, this`leds, link`sent, link`calls, pairing, pairing.agent, pairing.agent.bus
      ensures Holding() == Routed(kb, old(Now()), old(Holding()), PlainRoute(kb, old(Now()), KeyEvent(keycode,
          isPress)), isPress)
      ensures pairing.View() == if old(pairing.digits).Some? then Passkeys.Keyed(old(pairing.View()), keycode, isPress)
                                else old(pairing.View())
    {
      if pairing.digits.Some? {
        pairing.HandleKey(keycode, isPress);
        return;
      }
      var code := if keycode in topRow then topRow[keycode] else keycode;
      if code in CONSUMER {
        SendConsumer(if isPress then CONSUMER[code] else 0);
        return;
      }
      if code !in kb {
        return;
      }
      ForwardKey(code, isPress);
    }

    /** A key for the phone. */
    method ForwardKey(code: Keycode, isPress: bool)
      requires InTable(kb, pressed) && code in kb
      modifies this`pressed, this`leds, link`sent, link`calls
      ensures Holding() == Forwarded(kb, link.connected, old(Holding()), code, isPress)
    {
      PressOrRelease(code, isPress);
      SendKeyboard();
      if isPress && link.connected {
        NoteLockKey(code);
      }
    }

    /** A keyboard has gone: what is still down is asked of those that remain; `held` is
        the set of what they hold, in whatever order it comes. */
    method KeyboardGone(held: seq<Keycode>)
      requires Valid()
      modifies this`pressed, this`modifiers, link`sent, link`calls
      ensures Holding() == Happen(kb, old(Holding()), Gone(link.connected, held))
      ensures InTable(kb, pressed)
    {
      pressed := StillHeld(held);
      modifiers := SyncModifiers(held);
      SendHeld();
    }

    /** What is held, and no media key. */
    method SendHeld()
      requires InTable(kb, pressed)
      modifies link`sent, link`calls
      ensures Holding() == Say(link.connected, old(Holding()), [Report(kb, pressed, modifiers), ConsumerReport(0)])
    {
      ghost var sent := link.sent;
      SendKeyboard();
      SendConsumer(0);
      Regroup(sent, [Report(kb, pressed, modifiers)], [ConsumerReport(0)]);
    }

    method StillHeld(held: seq<Keycode>) returns (still: seq<Keycode>)
      requires InTable(kb, pressed)
      ensures still == Still(pressed, held) && InTable(kb, still)
    {
      still := [];
      for i := 0 to |pressed|
        invariant still == Still(pressed[..i], held) && InTable(kb, still)
      {
        assert pressed[..i + 1][..i] == pressed[..i];
        if pressed[i] in held {
          still := still + [pressed[i]];
        }
      }
      assert pressed[..|pressed|] == pressed;
    }

    /** The OR of the modifiers among these keys. */
    method SyncModifiers(held: seq<Keycode>) returns (mods: Modifiers)
      ensures mods == ModifiersOf(Members(held))
    {
      mods := 0;
      NoneHeld();
      for i := 0 to |held|
        invariant ExactlyHeld(mods, held[..i])
      {
        assert held[..i + 1] == held[..i] + [held[i]];
        if held[i] in MODIFIERS {
          OneMoreHeld(mods, held[..i], held[i]);
          mods := mods | MODIFIERS[held[i]];
        } else {
          OneOtherHeld(mods, held[..i], held[i]);
        }
      }
      assert held[..|held|] == held;
      ExactlyHeldIsExact(mods, held);
    }
  }

  /** Setting or clearing one mask's bit leaves every other mask's as it was. */
  lemma MaskBits(x: Modifiers, a: Modifiers, b: Modifiers, isPress: bool)
    requires a != 0 && (a == b || a & b == 0)
    ensures (if isPress then x | a else x & !a) & b != 0 <==> if a == b then isPress else x & b != 0
  {}

  lemma MasksApart(m: Keycode, n: Keycode)
    requires m in MODIFIERS && n in MODIFIERS
    ensures MODIFIERS[m] != 0 && (m == n <==> MODIFIERS[m] == MODIFIERS[n])
    ensures m != n ==> MODIFIERS[m] & MODIFIERS[n] == 0
  {}

  lemma ModifierBits(modifiers: Modifiers, m: Keycode, isPress: bool, n: Keycode)
    requires m in MODIFIERS && n in MODIFIERS
    ensures WithModifier(modifiers, m, isPress) & MODIFIERS[n] != 0
       <==> if n == m then isPress else modifiers & MODIFIERS[n] != 0
  {
    MasksApart(m, n);
    MaskBits(modifiers, MODIFIERS[m], MODIFIERS[n], isPress);
  }

  /** Each modifier's own bit, and no other, says whether it is held. */
  ghost predicate ExactlyHeld(modifiers: Modifiers, held: seq<Keycode>) {
    forall m :: m in MODIFIERS ==> (modifiers & MODIFIERS[m] != 0 <==> m in held)
  }

  lemma NoneHeld()
    ensures ExactlyHeld(0, [])
  {
    assert forall m :: m in MODIFIERS ==> 0 & MODIFIERS[m] == 0;
  }

  lemma OneMoreHeld(modifiers: Modifiers, held: seq<Keycode>, keycode: Keycode)
    requires keycode in MODIFIERS && ExactlyHeld(modifiers, held)
    ensures ExactlyHeld(modifiers | MODIFIERS[keycode], held + [keycode])
  {
    forall m | m in MODIFIERS
      ensures (modifiers | MODIFIERS[keycode]) & MODIFIERS[m] != 0 <==> m in held + [keycode]
    {
      ModifierBits(modifiers, keycode, true, m);
    }
  }

  lemma OneOtherHeld(modifiers: Modifiers, held: seq<Keycode>, keycode: Keycode)
    requires keycode !in MODIFIERS && ExactlyHeld(modifiers, held)
    ensures ExactlyHeld(modifiers, held + [keycode])
  {}

  lemma ExactlyHeldIsExact(modifiers: Modifiers, held: seq<Keycode>)
    requires ExactlyHeld(modifiers, held)
    ensures modifiers == ModifiersOf(Members(held))
  {
    forall m | m in MODIFIERS
      ensures modifiers & MODIFIERS[m] != 0 <==> ModifiersOf(Members(held)) & MODIFIERS[m] != 0
    {
      ModifiersAreExact(Members(held), m);
    }
    SameBits(modifiers, ModifiersOf(Members(held)));
  }

  /** Eight modifiers, eight bits. */
  lemma SameBits(a: Modifiers, b: Modifiers)
    requires forall m :: m in MODIFIERS ==> (a & MODIFIERS[m] != 0 <==> b & MODIFIERS[m] != 0)
    ensures a == b
  {
    assert 29 in MODIFIERS && 42 in MODIFIERS && 56 in MODIFIERS && 125 in MODIFIERS;
    assert 97 in MODIFIERS && 54 in MODIFIERS && 100 in MODIFIERS && 126 in MODIFIERS;
    ByteBits(a, b);
  }

  lemma ByteBits(a: Modifiers, b: Modifiers)
    requires a & 0x01 != 0 <==> b & 0x01 != 0
    requires a & 0x02 != 0 <==> b & 0x02 != 0
    requires a & 0x04 != 0 <==> b & 0x04 != 0
    requires a & 0x08 != 0 <==> b & 0x08 != 0
    requires a & 0x10 != 0 <==> b & 0x10 != 0
    requires a & 0x20 != 0 <==> b & 0x20 != 0
    requires a & 0x40 != 0 <==> b & 0x40 != 0
    requires a & 0x80 != 0 <==> b & 0x80 != 0
    ensures a == b
  {}
}
