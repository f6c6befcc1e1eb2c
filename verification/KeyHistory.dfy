/** What ought to be down, from the keys and the other events alone, and that the
    session's state and its reports are that after every run. */
module KeyHistory {
  import opened Keycodes
  import opened KeyPath
  import opened Seqs

  // -- the console's own keys --------------------------------------------------

  function Before(moments: seq<Moment>): (r: seq<Moment>)
    requires moments != []
    ensures |r| == |moments| - 1
  {
    moments[..|moments| - 1]
  }

  function Last(moments: seq<Moment>): Moment
    requires moments != []
  {
    moments[|moments| - 1]
  }

  /** The latest event of this modifier key is a press, or it was held when the
      keyboards were last asked, and nothing has lifted it since. */
  predicate ModifierDown(moments: seq<Moment>, keycode: Keycode)
    decreases |moments|, 3
  {
    if moments == [] || Lifts(moments) then false
    else if Last(moments).Taken? || Last(moments).Gone? then keycode in Last(moments).held
    else if Last(moments).Key? && Last(moments).e.keycode == keycode then Last(moments).e.isPress
    else ModifierDown(Before(moments), keycode)
  }

  predicate AltDown(moments: seq<Moment>)
    decreases |moments|, 4
  {
    ModifierDown(moments, 56) || ModifierDown(moments, 100)
  }

  predicate CtrlDown(moments: seq<Moment>) {
    ModifierDown(moments, 29) || ModifierDown(moments, 97)
  }

  /** Everything goes up: the link is lost, or another console comes to the front. */
  predicate Lifts(moments: seq<Moment>)
    requires moments != []
    decreases |moments|, 2
  {
    Last(moments).Lost? || Leaves(moments)
  }

  predicate Leaves(moments: seq<Moment>)
    requires moments != []
    decreases |moments|, 1
  {
    (Last(moments).Left? || Chord(moments)) && !Away(Before(moments))
  }

  /** A function key pressed with Alt down, naming another console. */
  predicate Chord(moments: seq<Moment>)
    requires moments != []
    decreases |moments|, 0
  {
    && Last(moments).Key? && Last(moments).e.keycode !in MODIFIERS && Last(moments).e.isPress
    && AltDown(Before(moments))
    && Last(moments).e.keycode in Last(moments).at.functions
    && Last(moments).at.functions[Last(moments).e.keycode] != Last(moments).at.console
  }

  /** Another console is in front, as it is when a session begins. */
  predicate Away(moments: seq<Moment>)
    decreases |moments|, 3
  {
    moments == [] || (!Last(moments).Front? && (Away(Before(moments)) || Leaves(moments)))
  }

  /** The consoles the chords named, in order. */
  function Asked(moments: seq<Moment>): seq<nat> {
    if moments == [] then []
    else if Chord(moments) then Asked(Before(moments)) + [Last(moments).at.functions[Last(moments).e.keycode]]
    else Asked(Before(moments))
  }

  // -- the phone's keys --------------------------------------------------------

  /** The last event is a press the console keeps for itself: a function key with Alt
      down, or Escape with Alt and without Ctrl. */
  predicate Kept(moments: seq<Moment>)
    requires moments != []
  {
    && Last(moments).Key? && Last(moments).e.isPress && AltDown(Before(moments))
    && (|| Last(moments).e.keycode in Last(moments).at.functions
        || (Last(moments).e.keycode == KEY_ESC && !CtrlDown(Before(moments))))
  }

  /** The last event is a key's, no modifier's, kept neither by the console nor for a
      passkey. */
  predicate Given(moments: seq<Moment>)
    requires moments != []
  {
    Last(moments).Key? && Last(moments).e.keycode !in MODIFIERS && !Kept(moments) && !Last(moments).at.entering
  }

  /** A key by way of the top row. */
  function Image(topRow: map<Keycode, Keycode>, code: Keycode): Keycode {
    if code in topRow then topRow[code] else code
  }

  /** What the last key is by way of the top row. */
  function Code(moments: seq<Moment>): Keycode
    requires moments != [] && Last(moments).Key?
  {
    Image(Last(moments).at.topRow, Last(moments).e.keycode)
  }

  /** The last event is a key's that is meant for the phone. */
  predicate ToPhone(kb: Keyboard, moments: seq<Moment>)
    requires moments != []
  {
    Given(moments) && Code(moments) !in Last(moments).at.consumer && Code(moments) in kb
  }

  /** And meant as this key. */
  predicate Moves(kb: Keyboard, moments: seq<Moment>, code: Keycode)
    requires moments != []
  {
    ToPhone(kb, moments) && Code(moments) == code
  }

  /** The latest event meant for the phone as this key is a press, it is held by the
      keyboards there are, and nothing has lifted it since. */
  predicate KeyDown(kb: Keyboard, moments: seq<Moment>, code: Keycode) {
    if moments == [] || Lifts(moments) then false
    else if Moves(kb, moments, code) then Last(moments).e.isPress
    else KeyDown(kb, Before(moments), code) && (Last(moments).Gone? ==> code in Last(moments).held)
  }

  /** Which event put it down. */
  function DownSince(kb: Keyboard, moments: seq<Moment>, code: Keycode): (n: nat)
    requires KeyDown(kb, moments, code)
    ensures n < |moments|
  {
    if KeyDown(kb, Before(moments), code) then DownSince(kb, Before(moments), code) else |moments| - 1
  }

  // -- the media keys ----------------------------------------------------------

  /** The last event is a media key's, or one the top row sends as one. */
  predicate ToMedia(moments: seq<Moment>)
    requires moments != []
  {
    Given(moments) && Code(moments) in Last(moments).at.consumer
  }

  /** The usage of the media key struck last; 0 once one is let go of, or a keyboard
      goes, or everything is lifted.  There is one at a time. */
  function MediaDown(moments: seq<Moment>): Usage {
    if moments == [] || Lifts(moments) || Last(moments).Gone? then 0
    else if ToMedia(moments) then if Last(moments).e.isPress then Last(moments).at.consumer[Code(moments)] else 0
    else MediaDown(Before(moments))
  }

  // -- the locks ---------------------------------------------------------------

  predicate HostSpoke(moments: seq<Moment>) {
    moments != [] && (Last(moments).HostLeds? || HostSpoke(Before(moments)))
  }

  /** A lock's light as it can be told here: what the phone last said of it, or else
      whether its key has been pressed an odd number of times on this link. */
  predicate Lit(kb: Keyboard, moments: seq<Moment>, code: Keycode)
    requires code in LOCK_KEYS
  {
    if moments == [] || Last(moments).Lost? || Last(moments).Raised? then false
    else if Last(moments).HostLeds? then Last(moments).mask & LOCK_KEYS[code] != 0
    else if Toggles(kb, moments, code) then !Lit(kb, Before(moments), code)
    else Lit(kb, Before(moments), code)
  }

  predicate Toggles(kb: Keyboard, moments: seq<Moment>, code: Keycode)
    requires moments != []
  {
    && Moves(kb, moments, code) && Last(moments).e.isPress && Last(moments).at.up
    && !HostSpoke(Before(moments))
  }

  // -- what the phone has been told --------------------------------------------

  /** The last keyboard report of those sent since the link came up, and before any
      the empty one; a consumer report is another matter. */
  function LastKeyboard(sent: seq<Output>): Output {
    if sent == [] then EMPTY
    else if sent[|sent| - 1].KeyboardReport? then sent[|sent| - 1]
    else LastKeyboard(sent[..|sent| - 1])
  }

  /** The last event makes the phone hold what the session holds: a report goes out,
      or the link is lost and with it all either of them held. */
  predicate Tells(kb: Keyboard, moments: seq<Moment>)
    requires moments != []
  {
    match Last(moments)
    case Key(at, e) =>
      at.up && if e.keycode in MODIFIERS then !at.entering else ToPhone(kb, moments) || Leaves(moments)
    case Lost => true
    case Left(up) => up && Leaves(moments)
    case Gone(up, _) => up
    case _ => false
  }

  /** The run as far as the last event that told the phone. */
  function Told(kb: Keyboard, moments: seq<Moment>): (r: seq<Moment>)
    ensures r <= moments && (r == [] || Tells(kb, r))
  {
    if moments == [] || Tells(kb, moments) then moments else Told(kb, Before(moments))
  }

  /** The usage of the last consumer report since the link came up. */
  function LastConsumer(sent: seq<Output>): Usage {
    if sent == [] then 0
    else if sent[|sent| - 1].ConsumerReport? then sent[|sent| - 1].usage
    else LastConsumer(sent[..|sent| - 1])
  }

  /** The last event makes the phone hold the media key that is down, or none. */
  predicate TellsMedia(kb: Keyboard, moments: seq<Moment>)
    requires moments != []
  {
    match Last(moments)
    case Key(at, e) => at.up && (ToMedia(moments) || Leaves(moments))
    case Lost => true
    case Left(up) => up && Leaves(moments)
    case Gone(up, _) => up
    case _ => false
  }

  function MediaTold(kb: Keyboard, moments: seq<Moment>): (r: seq<Moment>)
    ensures r <= moments && (r == [] || TellsMedia(kb, r))
  {
    if moments == [] || TellsMedia(kb, moments) then moments else MediaTold(kb, Before(moments))
  }

  /** And the same for the media key. */
  predicate MediaInStep(kb: Keyboard, moments: seq<Moment>) {
    LastConsumer(Run(kb, moments).sent) == MediaDown(moments)
  }

  /** The phone holds no key, no modifier and no media key. */
  predicate PhoneIdle(s: Hands) {
    LastKeyboard(s.sent) == EMPTY && LastConsumer(s.sent) == 0
  }

  function Holds(kb: Keyboard, s: Hands): Output
    requires InTable(kb, s.pressed)
  {
    Report(kb, s.pressed, s.modifiers)
  }

  /** What the phone last heard is what is held. */
  predicate InStep(kb: Keyboard, moments: seq<Moment>) {
    LastKeyboard(Run(kb, moments).sent) == Holds(kb, Run(kb, moments))
  }

  // -- modifiers and consoles --------------------------------------------------

  ghost predicate ExactModifiers(moments: seq<Moment>, modifiers: Modifiers) {
    forall m :: m in MODIFIERS ==> (modifiers & MODIFIERS[m] != 0 <==> ModifierDown(moments, m))
  }

  ghost predicate ExactConsole(moments: seq<Moment>, s: Hands) {
    s.foreground == !Away(moments) && s.asked == Asked(moments) && ExactModifiers(moments, s.modifiers)
  }

  lemma ChordBits(moments: seq<Moment>, modifiers: Modifiers)
    requires ExactModifiers(moments, modifiers)
    ensures AltHeld(modifiers) == AltDown(moments) && CtrlHeld(modifiers) == CtrlDown(moments)
  {
    assert MODIFIERS[56] == 0x04 && MODIFIERS[100] == 0x40 && MODIFIERS[29] == 0x01 && MODIFIERS[97] == 0x10;
    assert AltHeld(modifiers) <==> modifiers & 0x04 != 0 || modifiers & 0x40 != 0;
    assert CtrlHeld(modifiers) <==> modifiers & 0x01 != 0 || modifiers & 0x10 != 0;
  }

  /** Where the last event's key goes. */
  function LastRoute(kb: Keyboard, moments: seq<Moment>): (r: Route)
    requires moments != [] && Last(moments).Key?
    ensures r.Phone? ==> r.code in kb
  {
    RouteOf(kb, Last(moments).at, AltDown(Before(moments)), CtrlDown(Before(moments)), Last(moments).e)
  }

  /** It goes where the tables say. */
  lemma RouteByTables(kb: Keyboard, moments: seq<Moment>)
    requires moments != [] && Last(moments).Key? && Last(moments).e.keycode !in MODIFIERS
    ensures var route := LastRoute(kb, moments);
            && (ToPhone(kb, moments) <==> route.Phone?)
            && (ToMedia(moments) <==> route.Consumer?)
            && (route.Phone? ==> route.code == Code(moments))
            && (route.Consumer? ==>
                  route.usage == if Last(moments).e.isPress then Last(moments).at.consumer[Code(moments)] else 0)
  {}

  /** A key that is no modifier goes where the history says. */
  lemma StepRouted(kb: Keyboard, moments: seq<Moment>, s: Hands)
    requires moments != [] && Last(moments).Key? && Last(moments).e.keycode !in MODIFIERS
    requires InTable(kb, s.pressed) && ExactModifiers(Before(moments), s.modifiers)
    ensures Happen(kb, s, Last(moments))
         == Routed(kb, Last(moments).at, s, LastRoute(kb, moments), Last(moments).e.isPress)
    ensures Chord(moments) <==>
      LastRoute(kb, moments).SwitchTo? && LastRoute(kb, moments).vt != Last(moments).at.console
  {
    ChordBits(Before(moments), s.modifiers);
  }

  lemma NothingDown(moments: seq<Moment>)
    requires moments == [] || Lifts(moments)
    ensures ExactModifiers(moments, 0)
  {
    assert forall m :: m in MODIFIERS ==> 0 & MODIFIERS[m] == 0;
  }

  /** A modifier is never a chord. */
  lemma ModifierHistory(moments: seq<Moment>)
    requires moments != [] && Last(moments).Key? && Last(moments).e.keycode in MODIFIERS
    ensures !Lifts(moments) && Away(moments) == Away(Before(moments)) && Asked(moments) == Asked(Before(moments))
  {
    assert !Chord(moments) && !Last(moments).Left?;
    assert !Leaves(moments);
  }

  lemma OneModifierMoves(moments: seq<Moment>, m: Keycode)
    requires moments != [] && Last(moments).Key? && Last(moments).e.keycode in MODIFIERS
    ensures ModifierDown(moments, m) == if m == Last(moments).e.keycode then Last(moments).e.isPress
                                        else ModifierDown(Before(moments), m)
  {
    ModifierHistory(moments);
  }

  lemma ModifierMoved(moments: seq<Moment>, modifiers: Modifiers)
    requires moments != [] && Last(moments).Key? && Last(moments).e.keycode in MODIFIERS
    requires ExactModifiers(Before(moments), modifiers)
    ensures ExactModifiers(moments, WithModifier(modifiers, Last(moments).e.keycode, Last(moments).e.isPress))
  {
    var e := Last(moments).e;
    forall m | m in MODIFIERS
      ensures WithModifier(modifiers, e.keycode, e.isPress) & MODIFIERS[m] != 0 <==> ModifierDown(moments, m)
    {
      ModifierBits(modifiers, e.keycode, e.isPress, m);
      OneModifierMoves(moments, m);
    }
  }

  lemma SameModifiers(moments: seq<Moment>, modifiers: Modifiers)
    requires moments != [] && !Lifts(moments) && !Last(moments).Taken? && !Last(moments).Gone?
    requires Last(moments).Key? ==> Last(moments).e.keycode !in MODIFIERS
    requires ExactModifiers(Before(moments), modifiers)
    ensures ExactModifiers(moments, modifiers)
  {}

  lemma HeldModifiers(moments: seq<Moment>, held: seq<Keycode>)
    requires moments != [] && !Lifts(moments)
    requires (Last(moments).Taken? || Last(moments).Gone?) && Last(moments).held == held
    ensures ExactModifiers(moments, ModifiersOf(Members(held)))
  {
    forall m | m in MODIFIERS
      ensures ModifiersOf(Members(held)) & MODIFIERS[m] != 0 <==> ModifierDown(moments, m)
    {
      ModifiersAreExact(Members(held), m);
    }
  }

  /** What a key does by where it goes. */
  lemma RoutedEffects(kb: Keyboard, at: Setting, s: Hands, route: Route, isPress: bool)
    requires InTable(kb, s.pressed) && (route.Phone? ==> route.code in kb)
    ensures var after, leaves := Routed(kb, at, s, route, isPress), route.SwitchTo? && route.vt != at.console;
            && after.foreground == (s.foreground && !leaves)
            && after.modifiers == (if leaves && s.foreground then 0 else s.modifiers)
            && after.asked == (if leaves then s.asked + [route.vt] else s.asked)
            && after.pressed == (if leaves && s.foreground then []
                                 else if route.Phone? then WithKey(s.pressed, route.code, isPress) else s.pressed)
  {}

  lemma ModifierEffects(kb: Keyboard, moments: seq<Moment>, s: Hands)
    requires moments != [] && Last(moments).Key? && Last(moments).e.keycode in MODIFIERS
    requires InTable(kb, s.pressed)
    ensures var after, e := Happen(kb, s, Last(moments)), Last(moments).e;
            && after.foreground == s.foreground && after.asked == s.asked && after.pressed == s.pressed
            && after.modifiers == WithModifier(s.modifiers, e.keycode, e.isPress)
  {
    assert Happen(kb, s, Last(moments)) == ModifierMovedIn(kb, Last(moments).at, s, Last(moments).e);
  }

  lemma ChordHistory(moments: seq<Moment>)
    requires moments != [] && Last(moments).Key?
    ensures Lifts(moments) <==> Chord(moments) && !Away(Before(moments))
    ensures Away(moments) <==> Chord(moments) || Away(Before(moments))
  {}

  lemma KeyKeepsConsole(kb: Keyboard, moments: seq<Moment>, s: Hands)
    requires moments != [] && Last(moments).Key?
    requires InTable(kb, s.pressed) && ExactConsole(Before(moments), s)
    ensures ExactConsole(moments, Happen(kb, s, Last(moments)))
  {
    if Last(moments).e.keycode in MODIFIERS {
      ModifierEffects(kb, moments, s);
      ModifierHistory(moments);
      ModifierMoved(moments, s.modifiers);
    } else {
      StepRouted(kb, moments, s);
      RoutedEffects(kb, Last(moments).at, s, LastRoute(kb, moments), Last(moments).e.isPress);
      ChordHistory(moments);
      if Leaves(moments) {
        NothingDown(moments);
      } else {
        SameModifiers(moments, s.modifiers);
      }
    }
  }

  /** What any other event does. */
  lemma EventEffects(kb: Keyboard, s: Hands, moment: Moment)
    requires !moment.Key? && InTable(kb, s.pressed)
    ensures var after, lifts := Happen(kb, s, moment), moment.Lost? || (moment.Left? && s.foreground);
            && after.foreground == (moment.Front? || (s.foreground && !moment.Left?))
            && after.asked == s.asked
            && after.modifiers == (if lifts then 0
                                   else if moment.Taken? || moment.Gone? then ModifiersOf(Members(moment.held))
                                   else s.modifiers)
            && after.pressed == (if lifts then []
                                 else if moment.Gone? then Still(s.pressed, moment.held) else s.pressed)
  {
    match moment
    case Left(up) => assert Happen(kb, s, moment) == Leave(up, s);
    case Gone(up, held) => assert Happen(kb, s, moment) == Remaining(kb, up, s, held);
    case Lost => {}
    case Raised => {}
    case Front => {}
    case Taken(held) => {}
    case HostLeds(mask) => {}
  }

  lemma EventHistory(moments: seq<Moment>)
    requires moments != [] && !Last(moments).Key?
    ensures Lifts(moments) <==> Last(moments).Lost? || (Last(moments).Left? && !Away(Before(moments)))
    ensures Away(moments) <==> !Last(moments).Front? && (Last(moments).Left? || Away(Before(moments)))
    ensures Asked(moments) == Asked(Before(moments))
  {
    assert !Chord(moments);
  }

  lemma EventKeepsConsole(kb: Keyboard, moments: seq<Moment>, s: Hands)
    requires moments != [] && !Last(moments).Key?
    requires InTable(kb, s.pressed) && ExactConsole(Before(moments), s)
    ensures ExactConsole(moments, Happen(kb, s, Last(moments)))
  {
    EventEffects(kb, s, Last(moments));
    EventHistory(moments);
    if Lifts(moments) {
      NothingDown(moments);
    } else if Last(moments).Taken? || Last(moments).Gone? {
      HeldModifiers(moments, Last(moments).held);
    } else {
      SameModifiers(moments, s.modifiers);
    }
  }

  /** In every mode - the link down, a passkey half entered - each modifier is right,
      and a console chord asks for its own console and leaves this one: nothing can
      trap the keyboard. */
  lemma {:induction false} ChordsAlwaysWork(kb: Keyboard, moments: seq<Moment>)
    ensures ExactModifiers(moments, Run(kb, moments).modifiers)
    ensures Run(kb, moments).asked == Asked(moments)
    ensures Run(kb, moments).foreground == !Away(moments)
    decreases |moments|
  {
    if moments == [] {
      NothingDown(moments);
    } else {
      ChordsAlwaysWork(kb, Before(moments));
      if Last(moments).Key? {
        KeyKeepsConsole(kb, moments, Run(kb, Before(moments)));
      } else {
        EventKeepsConsole(kb, moments, Run(kb, Before(moments)));
      }
    }
  }

  /** What one event does, on the run that led to it. */
  lemma RunEffects(kb: Keyboard, moments: seq<Moment>) returns (before: Hands)
    requires moments != []
    ensures before == Run(kb, Before(moments)) && Run(kb, moments) == Happen(kb, before, Last(moments))
    ensures before.foreground == !Away(Before(moments)) && ExactModifiers(Before(moments), before.modifiers)
    ensures Run(kb, moments).pressed ==
      if Lifts(moments) then []
      else if Last(moments).Gone? then Still(before.pressed, Last(moments).held)
      else if ToPhone(kb, moments) then WithKey(before.pressed, Code(moments), Last(moments).e.isPress)
      else before.pressed
  {
    before := Run(kb, Before(moments));
    ChordsAlwaysWork(kb, Before(moments));
    if !Last(moments).Key? {
      EventEffects(kb, before, Last(moments));
      EventHistory(moments);
    } else if Last(moments).e.keycode in MODIFIERS {
      ModifierEffects(kb, moments, before);
      ModifierHistory(moments);
    } else {
      StepRouted(kb, moments, before);
      RouteByTables(kb, moments);
      RoutedEffects(kb, Last(moments).at, before, LastRoute(kb, moments), Last(moments).e.isPress);
      ChordHistory(moments);
    }
  }

  // -- the keys held -----------------------------------------------------------

  ghost predicate ExactlyDown(kb: Keyboard, moments: seq<Moment>, pressed: seq<Keycode>) {
    forall code :: code in pressed <==> KeyDown(kb, moments, code)
  }

  ghost predicate InPressOrder(kb: Keyboard, moments: seq<Moment>, pressed: seq<Keycode>)
    requires ExactlyDown(kb, moments, pressed)
  {
    forall i, j :: 0 <= i < j < |pressed| ==>
      DownSince(kb, moments, pressed[i]) < DownSince(kb, moments, pressed[j])
  }

  /** Each key that is down, once, in the order they went down. */
  ghost predicate KeysMirror(kb: Keyboard, moments: seq<Moment>, pressed: seq<Keycode>) {
    && NoneTwice(pressed)
    && ExactlyDown(kb, moments, pressed)
    && InPressOrder(kb, moments, pressed)
  }

  lemma {:induction false} WithoutCuts(pressed: seq<Keycode>, code: Keycode) returns (n: nat)
    requires code in pressed
    ensures n < |pressed| && pressed[n] == code && Without(pressed, code) == Cut(pressed, n)
  {
    if pressed[0] == code {
      n := 0;
    } else {
      var m := WithoutCuts(pressed[1..], code);
      n := m + 1;
      assert pressed[..n] == [pressed[0]] + pressed[1..][..m];
      assert pressed[n + 1..] == pressed[1..][m + 1..];
    }
  }

  function Cut(pressed: seq<Keycode>, n: nat): seq<Keycode>
    requires n < |pressed|
  {
    pressed[..n] + pressed[n + 1..]
  }

  lemma CutMembers(pressed: seq<Keycode>, n: nat)
    requires n < |pressed| && NoneTwice(pressed)
    ensures NoneTwice(Cut(pressed, n))
    ensures forall k :: k in Cut(pressed, n) <==> k in pressed && k != pressed[n]
  {
    var after := Cut(pressed, n);
    forall i | 0 <= i < |after| ensures after[i] == pressed[if i < n then i else i + 1] {}
    forall k | k in pressed && k != pressed[n] ensures k in after {
      var i :| 0 <= i < |pressed| && pressed[i] == k;
      assert after[if i < n then i else i - 1] == k;
    }
  }

  /** An event that moves no key leaves them as they were. */
  lemma SameKeys(kb: Keyboard, moments: seq<Moment>, pressed: seq<Keycode>)
    requires moments != [] && !Lifts(moments) && !Last(moments).Gone? && forall code :: !Moves(kb, moments, code)
    requires KeysMirror(kb, Before(moments), pressed)
    ensures KeysMirror(kb, moments, pressed)
  {
    forall code ensures KeyDown(kb, moments, code) == KeyDown(kb, Before(moments), code) {
      assert !Moves(kb, moments, code);
    }
  }

  lemma OneKeyMoves(kb: Keyboard, moments: seq<Moment>, code: Keycode, k: Keycode)
    requires moments != [] && !Lifts(moments) && Moves(kb, moments, code)
    ensures KeyDown(kb, moments, k) == if k == code then Last(moments).e.isPress else KeyDown(kb, Before(moments), k)
  {
    assert Moves(kb, moments, k) <==> k == code;
  }

  lemma KeyPressed(kb: Keyboard, moments: seq<Moment>, pressed: seq<Keycode>, code: Keycode)
    requires moments != [] && !Lifts(moments) && Moves(kb, moments, code) && Last(moments).e.isPress
    requires KeysMirror(kb, Before(moments), pressed)
    ensures KeysMirror(kb, moments, WithKey(pressed, code, true))
  {
    var after := WithKey(pressed, code, true);
    forall k ensures k in after <==> KeyDown(kb, moments, k) {
      OneKeyMoves(kb, moments, code, k);
    }
    forall i, j | 0 <= i < j < |after|
      ensures DownSince(kb, moments, after[i]) < DownSince(kb, moments, after[j])
    {
      assert after[i] == pressed[i];
      if j < |pressed| {
        assert after[j] == pressed[j];
      }
    }
  }

  lemma CutInOrder(kb: Keyboard, moments: seq<Moment>, pressed: seq<Keycode>, n: nat)
    requires moments != [] && n < |pressed|
    requires KeysMirror(kb, Before(moments), pressed) && ExactlyDown(kb, moments, Cut(pressed, n))
    ensures InPressOrder(kb, moments, Cut(pressed, n))
  {
    var front, after := Before(moments), Cut(pressed, n);
    forall i, j | 0 <= i < j < |after|
      ensures DownSince(kb, moments, after[i]) < DownSince(kb, moments, after[j])
    {
      var i', j' := if i < n then i else i + 1, if j < n then j else j + 1;
      assert after[i] == pressed[i'] && after[j] == pressed[j'];
      assert DownSince(kb, front, pressed[i']) < DownSince(kb, front, pressed[j']);
    }
  }

  lemma KeyReleased(kb: Keyboard, moments: seq<Moment>, pressed: seq<Keycode>, code: Keycode)
    requires moments != [] && !Lifts(moments) && Moves(kb, moments, code) && !Last(moments).e.isPress
    requires KeysMirror(kb, Before(moments), pressed)
    ensures KeysMirror(kb, moments, WithKey(pressed, code, false))
  {
    var after := Without(pressed, code);
    forall k ensures KeyDown(kb, moments, k) == (k != code && KeyDown(kb, Before(moments), k)) {
      OneKeyMoves(kb, moments, code, k);
    }
    if code in pressed {
      var n := WithoutCuts(pressed, code);
      CutMembers(pressed, n);
      CutInOrder(kb, moments, pressed, n);
    } else {
      WithoutNothing(pressed, code);
    }
  }

  /** Dropping keys keeps the order of the rest. */
  lemma {:induction false} StillInOrder(pressed: seq<Keycode>, held: seq<Keycode>, rank: Keycode -> int)
    requires forall i, j :: 0 <= i < j < |pressed| ==> rank(pressed[i]) < rank(pressed[j])
    ensures forall i, j :: 0 <= i < j < |Still(pressed, held)| ==>
              rank(Still(pressed, held)[i]) < rank(Still(pressed, held)[j])
    decreases |pressed|
  {
    if pressed != [] {
      var front, last := pressed[..|pressed| - 1], pressed[|pressed| - 1];
      StillInOrder(front, held, rank);
      var still := Still(front, held);
      forall i | 0 <= i < |still| ensures rank(still[i]) < rank(last) {
        StillMembers(front, held, still[i]);
        var n :| 0 <= n < |front| && front[n] == still[i];
        assert pressed[n] == still[i];
      }
    }
  }

  lemma KeysRemain(kb: Keyboard, moments: seq<Moment>, pressed: seq<Keycode>)
    requires moments != [] && Last(moments).Gone? && KeysMirror(kb, Before(moments), pressed)
    ensures KeysMirror(kb, moments, Still(pressed, Last(moments).held))
  {
    var front, held, after := Before(moments), Last(moments).held, Still(pressed, Last(moments).held);
    EventHistory(moments);
    forall k ensures k in after <==> KeyDown(kb, moments, k) {
      StillMembers(pressed, held, k);
    }
    var rank := k => if KeyDown(kb, front, k) then DownSince(kb, front, k) else 0;
    assert forall i :: 0 <= i < |pressed| ==> pressed[i] in pressed;
    StillInOrder(pressed, held, rank);
    forall i, j | 0 <= i < j < |after|
      ensures after[i] != after[j] && DownSince(kb, moments, after[i]) < DownSince(kb, moments, after[j])
    {
      assert rank(after[i]) < rank(after[j]);
      assert after[i] in after && after[j] in after;
    }
  }

  lemma NoKeysDown(kb: Keyboard, moments: seq<Moment>)
    requires moments == [] || Lifts(moments)
    ensures KeysMirror(kb, moments, [])
  {}

  lemma {:induction false} KeysAreExact(kb: Keyboard, moments: seq<Moment>)
    ensures KeysMirror(kb, moments, Run(kb, moments).pressed)
    decreases |moments|
  {
    if moments == [] {
      NoKeysDown(kb, moments);
    } else {
      KeysAreExact(kb, Before(moments));
      var before := RunEffects(kb, moments);
      if Lifts(moments) {
        NoKeysDown(kb, moments);
      } else if Last(moments).Gone? {
        KeysRemain(kb, moments, before.pressed);
      } else if ToPhone(kb, moments) {
        PhoneKeyMirrors(kb, moments, before.pressed);
      } else {
        SameKeys(kb, moments, before.pressed);
      }
    }
  }

  lemma PhoneKeyMirrors(kb: Keyboard, moments: seq<Moment>, pressed: seq<Keycode>)
    requires moments != [] && ToPhone(kb, moments)
    requires !Lifts(moments) && KeysMirror(kb, Before(moments), pressed)
    ensures KeysMirror(kb, moments, WithKey(pressed, Code(moments), Last(moments).e.isPress))
  {
    if Last(moments).e.isPress {
      KeyPressed(kb, moments, pressed, Code(moments));
    } else {
      KeyReleased(kb, moments, pressed, Code(moments));
    }
  }

  // -- the locks follow --------------------------------------------------------

  ghost predicate ExactLocks(kb: Keyboard, moments: seq<Moment>, leds: Modifiers) {
    forall k :: k in LOCK_KEYS ==> (leds & LOCK_KEYS[k] != 0 <==> Lit(kb, moments, k))
  }

  /** Toggling one light leaves the others. */
  lemma LockBits(leds: Modifiers, code: Keycode, k: Keycode)
    requires code in LOCK_KEYS && k in LOCK_KEYS
    ensures (leds ^ LOCK_KEYS[code]) & LOCK_KEYS[k] != 0 <==>
            if k == code then leds & LOCK_KEYS[k] == 0 else leds & LOCK_KEYS[k] != 0
  {
    assert LOCK_KEYS[code] in [0x01, 0x02, 0x04 as Modifiers] && LOCK_KEYS[k] in [0x01, 0x02, 0x04 as Modifiers];
    TogglesOne(leds, LOCK_KEYS[code], LOCK_KEYS[k]);
  }

  lemma TogglesOne(leds: Modifiers, a: Modifiers, b: Modifiers)
    requires (a == 0x01 || a == 0x02 || a == 0x04) && (b == 0x01 || b == 0x02 || b == 0x04)
    ensures (leds ^ a) & b != 0 <==> if a == b then leds & b == 0 else leds & b != 0
  {}

  lemma LocksMove(kb: Keyboard, moments: seq<Moment>, leds: Modifiers, code: Keycode)
    requires moments != [] && Moves(kb, moments, code) && Last(moments).e.isPress && Last(moments).at.up
    requires code in LOCK_KEYS && ExactLocks(kb, Before(moments), leds) && !HostSpoke(Before(moments))
    ensures ExactLocks(kb, moments, leds ^ LOCK_KEYS[code])
  {
    forall k | k in LOCK_KEYS ensures (leds ^ LOCK_KEYS[code]) & LOCK_KEYS[k] != 0 <==> Lit(kb, moments, k) {
      assert Moves(kb, moments, k) <==> k == code;
      LockBits(leds, code, k);
      assert Lit(kb, moments, k) == if k == code then !Lit(kb, Before(moments), k) else Lit(kb, Before(moments), k);
    }
  }

  lemma LocksRest(kb: Keyboard, moments: seq<Moment>, leds: Modifiers)
    requires moments != [] && !Last(moments).Lost? && !Last(moments).Raised? && !Last(moments).HostLeds?
    requires forall k :: k in LOCK_KEYS ==> !Toggles(kb, moments, k)
    requires ExactLocks(kb, Before(moments), leds)
    ensures ExactLocks(kb, moments, leds)
  {
    assert forall k :: k in LOCK_KEYS ==> Lit(kb, moments, k) == Lit(kb, Before(moments), k);
  }

  lemma LocksSet(kb: Keyboard, moments: seq<Moment>)
    requires moments == [] || Last(moments).Lost? || Last(moments).Raised? || Last(moments).HostLeds?
    ensures ExactLocks(kb, moments, if moments != [] && Last(moments).HostLeds? then Last(moments).mask else 0)
  {
    assert forall k :: k in LOCK_KEYS ==> 0 & LOCK_KEYS[k] == 0;
  }

  /** A key touches the lights only on its way to the phone. */
  lemma RoutedLights(kb: Keyboard, at: Setting, s: Hands, route: Route, isPress: bool)
    requires InTable(kb, s.pressed) && (route.Phone? ==> route.code in kb)
    ensures var after := Routed(kb, at, s, route, isPress);
            && after.fromHost == s.fromHost
            && after.leds == if route.Phone? && isPress && at.up then Lights(s.leds, s.fromHost, route.code) else s.leds
  {
    match route
    case SwitchTo(vt) =>
    case Quits =>
    case Passkey =>
    case Consumer(usage) =>
    case Nowhere =>
    case Phone(code) => assert Routed(kb, at, s, route, isPress) == Forwarded(kb, at.up, s, code, isPress);
  }

  /** The lights after a key with this way to go. */
  lemma RouteLights(kb: Keyboard, moments: seq<Moment>, leds: Modifiers)
    requires moments != [] && Last(moments).Key? && Last(moments).e.keycode !in MODIFIERS
    requires ExactLocks(kb, Before(moments), leds)
    ensures var route := LastRoute(kb, moments);
            ExactLocks(kb, moments,
                       if route.Phone? && Last(moments).e.isPress && Last(moments).at.up
                       then Lights(leds, HostSpoke(Before(moments)), route.code) else leds)
  {
    var at, e, route := Last(moments).at, Last(moments).e, LastRoute(kb, moments);
    if route.Phone? && e.isPress && at.up && route.code in LOCK_KEYS && !HostSpoke(Before(moments)) {
      LocksMove(kb, moments, leds, route.code);
    } else {
      LocksRest(kb, moments, leds);
    }
  }

  lemma KeyLights(kb: Keyboard, moments: seq<Moment>, before: Hands)
    requires moments != [] && Last(moments).Key? && InTable(kb, before.pressed)
    requires ExactModifiers(Before(moments), before.modifiers)
    requires ExactLocks(kb, Before(moments), before.leds) && before.fromHost == HostSpoke(Before(moments))
    ensures ExactLocks(kb, moments, Happen(kb, before, Last(moments)).leds)
    ensures Happen(kb, before, Last(moments)).fromHost == before.fromHost
  {
    if Last(moments).e.keycode in MODIFIERS {
      LocksRest(kb, moments, before.leds);
      assert Happen(kb, before, Last(moments)) == ModifierMovedIn(kb, Last(moments).at, before, Last(moments).e);
    } else {
      StepRouted(kb, moments, before);
      RoutedLights(kb, Last(moments).at, before, LastRoute(kb, moments), Last(moments).e.isPress);
      RouteLights(kb, moments, before.leds);
    }
  }

  lemma EventLeds(kb: Keyboard, s: Hands, moment: Moment)
    requires !moment.Key? && InTable(kb, s.pressed)
    ensures var after := Happen(kb, s, moment);
            && after.fromHost == (moment.HostLeds? || s.fromHost)
            && after.leds == if moment.HostLeds? then moment.mask
                             else if moment.Lost? || moment.Raised? then 0 else s.leds
  {
    match moment
    case Left(up) => assert Happen(kb, s, moment) == Leave(up, s);
    case Gone(up, held) => assert Happen(kb, s, moment) == Remaining(kb, up, s, held);
    case _ =>
  }

  lemma EventLights(kb: Keyboard, moments: seq<Moment>, before: Hands)
    requires moments != [] && !Last(moments).Key? && InTable(kb, before.pressed)
    requires ExactLocks(kb, Before(moments), before.leds) && before.fromHost == HostSpoke(Before(moments))
    ensures ExactLocks(kb, moments, Happen(kb, before, Last(moments)).leds)
    ensures Happen(kb, before, Last(moments)).fromHost == HostSpoke(moments)
  {
    EventLeds(kb, before, Last(moments));
    if Last(moments).Lost? || Last(moments).Raised? || Last(moments).HostLeds? {
      LocksSet(kb, moments);
    } else {
      LocksRest(kb, moments, before.leds);
    }
  }

  /** Each lock's light is what the phone last said of it, or else whether its key has
      been forwarded an odd number of times on this link. */
  lemma {:induction false} LocksAreFollowed(kb: Keyboard, moments: seq<Moment>)
    ensures ExactLocks(kb, moments, Run(kb, moments).leds)
    ensures Run(kb, moments).fromHost == HostSpoke(moments)
    decreases |moments|
  {
    if moments == [] {
      LocksSet(kb, moments);
    } else {
      LocksAreFollowed(kb, Before(moments));
      ChordsAlwaysWork(kb, Before(moments));
      if Last(moments).Key? {
        KeyLights(kb, moments, Run(kb, Before(moments)));
      } else {
        EventLights(kb, moments, Run(kb, Before(moments)));
      }
    }
  }

  // -- the phone is told -------------------------------------------------------

  lemma LastKeyboardSaid(sent: seq<Output>, output: Output)
    ensures LastKeyboard(sent + [output]) == if output.KeyboardReport? then output else LastKeyboard(sent)
  {
    assert (sent + [output])[..|sent|] == sent;
  }

  /** A keyboard report with the end of any media key behind it. */
  lemma BothSaid(sent: seq<Output>, report: Output)
    requires report.KeyboardReport?
    ensures LastKeyboard(sent + [report, ConsumerReport(0)]) == report
  {
    Regroup(sent, [report], [ConsumerReport(0)]);
    assert [report] + [ConsumerReport(0)] == [report, ConsumerReport(0)];
    LastKeyboardSaid(sent, report);
    LastKeyboardSaid(sent + [report], ConsumerReport(0));
  }

  lemma NothingHeld(kb: Keyboard, s: Hands)
    requires s.pressed == [] && s.modifiers == 0
    ensures Holds(kb, s) == EMPTY
  {
    assert Slots(kb, []) == [];
  }

  lemma LeaveSaid(kb: Keyboard, up: bool, s: Hands)
    requires InTable(kb, s.pressed)
    ensures var after := Leave(up, s);
            LastKeyboard(after.sent) == if up && s.foreground then Holds(kb, after) else LastKeyboard(s.sent)
  {
    BothSaid(s.sent, EMPTY);
    if s.foreground {
      NothingHeld(kb, Leave(up, s));
    }
  }

  lemma RoutedSaid(kb: Keyboard, at: Setting, s: Hands, route: Route, isPress: bool)
    requires InTable(kb, s.pressed) && (route.Phone? ==> route.code in kb)
    ensures var after := Routed(kb, at, s, route, isPress);
            LastKeyboard(after.sent) ==
              if at.up && (route.Phone? || (route.SwitchTo? && route.vt != at.console && s.foreground))
              then Holds(kb, after) else LastKeyboard(s.sent)
  {
    var after := Routed(kb, at, s, route, isPress);
    match route
    case SwitchTo(vt) => LeaveSaid(kb, at.up, s);
    case Consumer(usage) => LastKeyboardSaid(s.sent, ConsumerReport(usage));
    case Phone(code) => LastKeyboardSaid(s.sent, Holds(kb, after));
    case _ =>
  }

  lemma ModifierSaid(kb: Keyboard, at: Setting, s: Hands, e: KeyEvent)
    requires InTable(kb, s.pressed) && e.keycode in MODIFIERS
    ensures var after := ModifierMovedIn(kb, at, s, e);
            LastKeyboard(after.sent) == if at.up && !at.entering then Holds(kb, after) else LastKeyboard(s.sent)
  {
    LastKeyboardSaid(s.sent, Holds(kb, ModifierMovedIn(kb, at, s, e)));
  }

  lemma RemainingSaid(kb: Keyboard, up: bool, s: Hands, held: seq<Keycode>)
    requires InTable(kb, s.pressed)
    ensures var after := Remaining(kb, up, s, held);
            LastKeyboard(after.sent) == if up then Holds(kb, after) else LastKeyboard(s.sent)
  {
    BothSaid(s.sent, Holds(kb, Remaining(kb, up, s, held)));
  }

  lemma KeyHeard(kb: Keyboard, moments: seq<Moment>, before: Hands)
    requires moments != [] && Last(moments).Key? && Last(moments).e.keycode !in MODIFIERS
    requires InTable(kb, before.pressed) && ExactModifiers(Before(moments), before.modifiers)
    requires before.foreground == !Away(Before(moments))
    ensures var after := Happen(kb, before, Last(moments));
            LastKeyboard(after.sent) == if Tells(kb, moments) then Holds(kb, after) else LastKeyboard(before.sent)
  {
    StepRouted(kb, moments, before);
    ChordHistory(moments);
    RouteByTables(kb, moments);
    RoutedSaid(kb, Last(moments).at, before, LastRoute(kb, moments), Last(moments).e.isPress);
  }

  /** The last keyboard report after an event that tells is what is then held; any
      other event leaves it as it was. */
  lemma Heard(kb: Keyboard, moments: seq<Moment>)
    requires moments != []
    ensures LastKeyboard(Run(kb, moments).sent) ==
      if Tells(kb, moments) then Holds(kb, Run(kb, moments)) else LastKeyboard(Run(kb, Before(moments)).sent)
  {
    var before := RunEffects(kb, moments);
    match Last(moments)
    case Key(at, e) =>
      if e.keycode in MODIFIERS {
        ModifierSaid(kb, at, before, e);
      } else {
        KeyHeard(kb, moments, before);
      }
    case Lost => NothingHeld(kb, Run(kb, moments));
    case Left(up) =>
      EventHistory(moments);
      LeaveSaid(kb, up, before);
    case Gone(up, held) => RemainingSaid(kb, up, before, held);
    case _ =>
  }

  lemma {:induction false} HeardLast(kb: Keyboard, moments: seq<Moment>)
    ensures LastKeyboard(Run(kb, moments).sent) == Holds(kb, Run(kb, Told(kb, moments)))
    decreases |moments|
  {
    if moments == [] {
      NothingHeld(kb, START);
    } else {
      Heard(kb, moments);
      if !Tells(kb, moments) {
        HeardLast(kb, Before(moments));
      }
    }
  }

  lemma LastConsumerSaid(sent: seq<Output>, output: Output)
    ensures LastConsumer(sent + [output]) == if output.ConsumerReport? then output.usage else LastConsumer(sent)
  {
    assert (sent + [output])[..|sent|] == sent;
  }

  lemma BothEnded(sent: seq<Output>, report: Output)
    ensures LastConsumer(sent + [report, ConsumerReport(0)]) == 0
  {
    Regroup(sent, [report], [ConsumerReport(0)]);
    assert [report] + [ConsumerReport(0)] == [report, ConsumerReport(0)];
    LastConsumerSaid(sent + [report], ConsumerReport(0));
  }

  lemma LeaveEnded(up: bool, s: Hands)
    ensures LastConsumer(Leave(up, s).sent) == if up && s.foreground then 0 else LastConsumer(s.sent)
  {
    BothEnded(s.sent, EMPTY);
  }

  lemma RoutedMedia(kb: Keyboard, at: Setting, s: Hands, route: Route, isPress: bool)
    requires InTable(kb, s.pressed) && (route.Phone? ==> route.code in kb)
    ensures LastConsumer(Routed(kb, at, s, route, isPress).sent) ==
      if !at.up then LastConsumer(s.sent)
      else if route.Consumer? then route.usage
      else if route.SwitchTo? && route.vt != at.console && s.foreground then 0
      else LastConsumer(s.sent)
  {
    var after := Routed(kb, at, s, route, isPress);
    match route
    case SwitchTo(vt) => LeaveEnded(at.up, s);
    case Consumer(usage) => LastConsumerSaid(s.sent, ConsumerReport(usage));
    case Phone(code) => LastConsumerSaid(s.sent, Holds(kb, after));
    case _ =>
  }

  lemma ModifierMedia(kb: Keyboard, at: Setting, s: Hands, e: KeyEvent)
    requires InTable(kb, s.pressed) && e.keycode in MODIFIERS
    ensures LastConsumer(ModifierMovedIn(kb, at, s, e).sent) == LastConsumer(s.sent)
  {
    LastConsumerSaid(s.sent, Holds(kb, ModifierMovedIn(kb, at, s, e)));
  }

  lemma RemainingMedia(kb: Keyboard, up: bool, s: Hands, held: seq<Keycode>)
    requires InTable(kb, s.pressed)
    ensures LastConsumer(Remaining(kb, up, s, held).sent) == if up then 0 else LastConsumer(s.sent)
  {
    BothEnded(s.sent, Holds(kb, Remaining(kb, up, s, held)));
  }

  lemma KeyHeardMedia(kb: Keyboard, moments: seq<Moment>, before: Hands)
    requires moments != [] && Last(moments).Key? && Last(moments).e.keycode !in MODIFIERS
    requires InTable(kb, before.pressed) && ExactModifiers(Before(moments), before.modifiers)
    requires before.foreground == !Away(Before(moments))
    ensures LastConsumer(Happen(kb, before, Last(moments)).sent)
         == if TellsMedia(kb, moments) then MediaDown(moments) else LastConsumer(before.sent)
  {
    StepRouted(kb, moments, before);
    ChordHistory(moments);
    RouteByTables(kb, moments);
    RoutedMedia(kb, Last(moments).at, before, LastRoute(kb, moments), Last(moments).e.isPress);
  }

  lemma HeardMedia(kb: Keyboard, moments: seq<Moment>)
    requires moments != []
    ensures LastConsumer(Run(kb, moments).sent) ==
      if TellsMedia(kb, moments) then MediaDown(moments) else LastConsumer(Run(kb, Before(moments)).sent)
  {
    var before := RunEffects(kb, moments);
    match Last(moments)
    case Key(at, e) =>
      if e.keycode in MODIFIERS {
        ModifierHistory(moments);
        ModifierMedia(kb, at, before, e);
      } else {
        KeyHeardMedia(kb, moments, before);
      }
    case Lost =>
    case Left(up) =>
      EventHistory(moments);
      LeaveEnded(up, before);
    case Gone(up, held) => RemainingMedia(kb, up, before, held);
    case _ =>
  }

  /** The mirror of the consumer report: the last one is the media key that was down at
      the last event that told the phone of one. */
  lemma {:induction false} MediaHeardLast(kb: Keyboard, moments: seq<Moment>)
    ensures LastConsumer(Run(kb, moments).sent) == MediaDown(MediaTold(kb, moments))
    decreases |moments|
  {
    if moments != [] {
      HeardMedia(kb, moments);
      if !TellsMedia(kb, moments) {
        MediaHeardLast(kb, Before(moments));
      }
    }
  }

  /** Over every run - keys, consoles, keyboards, the link and passkey entry coming and
      going as they like - no key is held twice, the keys held are those that are down,
      in the order they went down, every modifier bit is right, and the last keyboard
      and consumer reports are what was held at the last event that told the phone of
      either. */
  lemma PhoneMirrorsKeyboard(kb: Keyboard, moments: seq<Moment>)
    ensures KeysMirror(kb, moments, Run(kb, moments).pressed)
    ensures ExactModifiers(moments, Run(kb, moments).modifiers)
    ensures LastKeyboard(Run(kb, moments).sent) == Holds(kb, Run(kb, Told(kb, moments)))
    ensures LastConsumer(Run(kb, moments).sent) == MediaDown(MediaTold(kb, moments))
    ensures moments != [] && Tells(kb, moments) ==> InStep(kb, moments)
    ensures moments != [] && TellsMedia(kb, moments) ==> MediaInStep(kb, moments)
  {
    KeysAreExact(kb, moments);
    ChordsAlwaysWork(kb, moments);
    HeardLast(kb, moments);
    MediaHeardLast(kb, moments);
  }

  // -- what one key says -------------------------------------------------------

  /** A media key's press says its own usage and its release none, and nothing else. */
  lemma MediaKeysSend(kb: Keyboard, moments: seq<Moment>)
    requires moments != [] && ToMedia(moments)
    ensures var before, at, e := Run(kb, Before(moments)), Last(moments).at, Last(moments).e;
            var usage := if e.isPress then at.consumer[Code(moments)] else 0;
            Run(kb, moments) == if at.up then before.(sent := before.sent + [ConsumerReport(usage)]) else before
  {
    var before := RunEffects(kb, moments);
    StepRouted(kb, moments, before);
    RouteByTables(kb, moments);
  }

  /** A key the phone knows is put down or let go of, no other key moving, and all that
      is then held is said. */
  lemma PhoneKeysSend(kb: Keyboard, moments: seq<Moment>)
    requires moments != [] && ToPhone(kb, moments)
    ensures var before, after, at, e := Run(kb, Before(moments)), Run(kb, moments), Last(moments).at, Last(moments).e;
            && OnlyMoves(before.pressed, after.pressed, Code(moments), e.isPress)
            && after.modifiers == before.modifiers
            && after.sent == if at.up then before.sent + [Holds(kb, after)] else before.sent
  {
    var before := RunEffects(kb, moments);
    StepRouted(kb, moments, before);
    RouteByTables(kb, moments);
    KeysAreExact(kb, Before(moments));
    KeyMembers(before.pressed, Code(moments), Last(moments).e.isPress);
    ForwardedIs(kb, Last(moments).at.up, before, Code(moments), Last(moments).e.isPress);
  }

  lemma ForwardedIs(kb: Keyboard, up: bool, s: Hands, code: Keycode, isPress: bool)
    requires InTable(kb, s.pressed) && code in kb
    ensures var after := Forwarded(kb, up, s, code, isPress);
            && after.pressed == WithKey(s.pressed, code, isPress) && after.modifiers == s.modifiers
            && after.sent == if up then s.sent + [Holds(kb, after)] else s.sent
  {}

  /** This key is down or up as said, and every other as before. */
  ghost predicate OnlyMoves(pressed: seq<Keycode>, after: seq<Keycode>, code: Keycode, isPress: bool) {
    && (code in after <==> isPress)
    && forall k :: k != code ==> (k in after <==> k in pressed)
  }

  lemma KeyMembers(pressed: seq<Keycode>, code: Keycode, isPress: bool)
    requires NoneTwice(pressed)
    ensures OnlyMoves(pressed, WithKey(pressed, code, isPress), code, isPress)
  {
    if !isPress {
      if code in pressed {
        var n := WithoutCuts(pressed, code);
        CutMembers(pressed, n);
      } else {
        WithoutNothing(pressed, code);
      }
    }
  }

  /** Any other key but a modifier says and changes nothing, unless it is a chord. */
  lemma OtherKeysSendNothing(kb: Keyboard, moments: seq<Moment>)
    requires moments != [] && Last(moments).Key? && Last(moments).e.keycode !in MODIFIERS
    requires !ToMedia(moments) && !ToPhone(kb, moments) && !Chord(moments)
    ensures Run(kb, moments) == Run(kb, Before(moments))
  {
    var before := RunEffects(kb, moments);
    StepRouted(kb, moments, before);
    RouteByTables(kb, moments);
  }

  /** The program quits at Escape with Alt and without Ctrl, and at nothing else; a passkey
      gets every key the console does not keep. */
  lemma EscapeQuits(kb: Keyboard, moments: seq<Moment>)
    requires moments != [] && Last(moments).Key?
    ensures var at, e := Last(moments).at, Last(moments).e;
            var meant := Meant(kb, at, Run(kb, Before(moments)).modifiers, e);
            && (meant == Quits <==> e == KeyEvent(KEY_ESC, true) && AltDown(Before(moments))
                                    && !CtrlDown(Before(moments)) && KEY_ESC !in at.functions)
            && (meant == Passkey <==> e.keycode !in MODIFIERS && !Kept(moments) && at.entering)
  {
    ChordsAlwaysWork(kb, Before(moments));
    ChordBits(Before(moments), Run(kb, Before(moments)).modifiers);
  }

  // -- when the phone is in step -----------------------------------------------

  ghost predicate SameModifiersDown(a: seq<Moment>, b: seq<Moment>) {
    forall m :: m in MODIFIERS ==> (ModifierDown(a, m) <==> ModifierDown(b, m))
  }

  lemma ModifiersAgree(kb: Keyboard, a: seq<Moment>, b: seq<Moment>)
    ensures Run(kb, a).modifiers == Run(kb, b).modifiers <==> SameModifiersDown(a, b)
  {
    ChordsAlwaysWork(kb, a);
    ChordsAlwaysWork(kb, b);
    if SameModifiersDown(a, b) {
      SameBits(Run(kb, a).modifiers, Run(kb, b).modifiers);
    }
  }

  /** The phone holds what the session holds exactly if neither the modifiers nor the
      six slots have moved since it was last told. */
  lemma InStepExactly(kb: Keyboard, moments: seq<Moment>)
    ensures var told := Told(kb, moments);
            InStep(kb, moments) <==>
              && SameModifiersDown(told, moments)
              && SixSlots(Slots(kb, Run(kb, told).pressed)) == SixSlots(Slots(kb, Run(kb, moments).pressed))
  {
    HeardLast(kb, moments);
    ModifiersAgree(kb, Told(kb, moments), moments);
  }

  /** Nothing is said with the link down. */
  predicate LinkUp(moment: Moment) {
    match moment
    case Key(at, _) => at.up
    case Left(up) => up
    case Gone(up, _) => up
    case _ => true
  }

  /** With the link up the keys themselves are always told. */
  lemma {:induction false} KeysAreTold(kb: Keyboard, moments: seq<Moment>)
    requires forall i :: |Told(kb, moments)| <= i < |moments| ==> LinkUp(moments[i])
    ensures Run(kb, Told(kb, moments)).pressed == Run(kb, moments).pressed
    decreases |moments|
  {
    if moments != [] && !Tells(kb, moments) {
      KeysAreTold(kb, Before(moments));
      var before := RunEffects(kb, moments);
      assert LinkUp(Last(moments));
    }
  }

  /** So with the link up only a modifier can be out of step. */
  lemma InStepWithLinkUp(kb: Keyboard, moments: seq<Moment>)
    requires forall i :: |Told(kb, moments)| <= i < |moments| ==> LinkUp(moments[i])
    ensures InStep(kb, moments) <==> SameModifiersDown(Told(kb, moments), moments)
  {
    InStepExactly(kb, moments);
    KeysAreTold(kb, moments);
  }

  ghost predicate NothingIsDown(kb: Keyboard, moments: seq<Moment>) {
    (forall code :: !KeyDown(kb, moments, code)) && forall m :: m in MODIFIERS ==> !ModifierDown(moments, m)
  }

  lemma HoldsNothing(kb: Keyboard, moments: seq<Moment>)
    ensures NothingIsDown(kb, moments) <==> Run(kb, moments).pressed == [] && Run(kb, moments).modifiers == 0
  {
    PhoneMirrorsKeyboard(kb, moments);
    var s := Run(kb, moments);
    assert s.pressed == [] || s.pressed[0] in s.pressed;
    assert forall m :: m in MODIFIERS ==> 0 & MODIFIERS[m] == 0;
    if forall m :: m in MODIFIERS ==> !ModifierDown(moments, m) {
      SameBits(s.modifiers, 0);
    }
  }

  lemma EmptyExactly(kb: Keyboard, s: Hands)
    requires InTable(kb, s.pressed) && 0 !in kb.Values
    ensures Holds(kb, s) == EMPTY <==> s.pressed == [] && s.modifiers == 0
  {
    if s.pressed == [] {
      assert Slots(kb, []) == [];
    } else {
      assert kb[s.pressed[0]] in kb.Values;
      assert SixSlots(Slots(kb, s.pressed))[0] != 0 == EMPTY.slots[0];
    }
  }

  lemma MediaStays(kb: Keyboard, moments: seq<Moment>)
    requires moments != [] && !TellsMedia(kb, moments) && LinkUp(Last(moments))
    ensures MediaDown(moments) == MediaDown(Before(moments))
  {
    match Last(moments)
    case Key(at, e) => ChordHistory(moments);
    case _ => EventHistory(moments);
  }

  /** With the link up the media keys are always in step. */
  lemma {:induction false} MediaWithLinkUp(kb: Keyboard, moments: seq<Moment>)
    requires forall i :: |MediaTold(kb, moments)| <= i < |moments| ==> LinkUp(moments[i])
    ensures MediaInStep(kb, moments)
    decreases |moments|
  {
    if moments != [] {
      HeardMedia(kb, moments);
      if !TellsMedia(kb, moments) {
        assert LinkUp(Last(moments));
        MediaWithLinkUp(kb, Before(moments));
        MediaStays(kb, moments);
      }
    }
  }

  /** The last reports are empty exactly if nothing was down when the phone was last told. */
  lemma NothingSticks(kb: Keyboard, moments: seq<Moment>)
    requires 0 !in kb.Values
    ensures LastKeyboard(Run(kb, moments).sent) == EMPTY <==> NothingIsDown(kb, Told(kb, moments))
    ensures PhoneIdle(Run(kb, moments)) <==>
      NothingIsDown(kb, Told(kb, moments)) && MediaDown(MediaTold(kb, moments)) == 0
  {
    HeardLast(kb, moments);
    MediaHeardLast(kb, moments);
    EmptyExactly(kb, Run(kb, Told(kb, moments)));
    HoldsNothing(kb, Told(kb, moments));
  }

  /** The real keyboard says nothing with usage 0. */
  lemma KeyboardIsReal()
    ensures 0 !in KEYBOARD.Values
  {}

  /** What a report's slots say: with six keys or fewer, exactly the usages of the
      keys held; with more, nothing but that there are more. */
  lemma SlotsSay(kb: Keyboard, pressed: seq<Keycode>, usage: Usage)
    requires InTable(kb, pressed) && usage != 0
    ensures var slots := SixSlots(Slots(kb, pressed));
            usage in slots <==> if |pressed| > 6 then usage == ERROR_ROLLOVER
                                else exists i :: 0 <= i < |pressed| && kb[pressed[i]] == usage
  {
    var slots := SixSlots(Slots(kb, pressed));
    if |pressed| > 6 {
      assert slots[0] == ERROR_ROLLOVER;
      assert forall i :: 0 <= i < 6 ==> slots[i] == ERROR_ROLLOVER;
    } else {
      assert forall i :: 0 <= i < |pressed| ==> slots[i] == kb[pressed[i]];
      assert forall i :: |pressed| <= i < 6 ==> slots[i] == 0;
      if i :| 0 <= i < |pressed| && kb[pressed[i]] == usage {
        assert slots[i] == usage;
      }
    }
  }
}
