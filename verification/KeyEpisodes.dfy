/** Stretches of a run in which the phone could come to hold what nobody does: a passkey
    entered, a link raised, the top row changed; and exactly when it does. */
module KeyEpisodes {
  import opened Keycodes
  import opened KeyPath
  import opened KeyHistory

  // -- what is physically held -------------------------------------------------

  /** A key physically held, whoever heard of it. */
  predicate Held(moments: seq<Moment>, code: Keycode) {
    if moments == [] then false
    else if Last(moments).Taken? || Last(moments).Gone? then code in Last(moments).held
    else if Last(moments).Key? && Last(moments).e.keycode == code then Last(moments).e.isPress
    else Held(Before(moments), code)
  }

  lemma {:induction false} ModifierHeld(moments: seq<Moment>, m: Keycode)
    requires ModifierDown(moments, m)
    ensures Held(moments, m)
    decreases |moments|
  {
    if !Last(moments).Taken? && !Last(moments).Gone? && !(Last(moments).Key? && Last(moments).e.keycode == m) {
      ModifierHeld(Before(moments), m);
    }
  }

  // -- a passkey entered, a link raised ----------------------------------------

  /** Keys struck while a passkey is being entered, none of them a switch of console. */
  predicate Entry(before: seq<Moment>, keys: seq<Moment>) {
    keys == [] ||
    (&& Entry(before, Before(keys))
     && Last(keys).Key? && Last(keys).at.up && Last(keys).at.entering
     && !Leaves(before + keys))
  }

  lemma {:induction false} EntryTellsNothing(kb: Keyboard, before: seq<Moment>, keys: seq<Moment>)
    requires Entry(before, keys)
    ensures LastKeyboard(Run(kb, before + keys).sent) == LastKeyboard(Run(kb, before).sent)
    ensures LastConsumer(Run(kb, before + keys).sent) == LastConsumer(Run(kb, before).sent)
    ensures Run(kb, before + keys).pressed == Run(kb, before).pressed
    decreases |keys|
  {
    var all := before + keys;
    if keys == [] {
      assert all == before;
    } else {
      assert Before(all) == before + Before(keys) && Last(all) == Last(keys);
      EntryTellsNothing(kb, before, Before(keys));
      Heard(kb, all);
      HeardMedia(kb, all);
      var s := RunEffects(kb, all);
    }
  }

  /** Across the entry of a passkey the phone stays in step exactly if every modifier
      ends as it began. */
  lemma PasskeyKeepsStep(kb: Keyboard, before: seq<Moment>, keys: seq<Moment>)
    requires InStep(kb, before) && Entry(before, keys)
    ensures InStep(kb, before + keys) <==> SameModifiersDown(before, before + keys)
  {
    EntryTellsNothing(kb, before, keys);
    ModifiersAgree(kb, before, before + keys);
  }

  /** And once every key is up again, the phone holds nothing exactly if no key, no
      modifier and no media key was down when the passkey was asked for.  Every release
      is swallowed on its way to the phone, and all but a modifier's before it reaches
      the session. */
  lemma PasskeyLeavesNothing(kb: Keyboard, before: seq<Moment>, keys: seq<Moment>)
    requires 0 !in kb.Values && InStep(kb, before) && MediaInStep(kb, before) && Entry(before, keys)
    requires forall code :: !Held(before + keys, code)
    ensures PhoneIdle(Run(kb, before + keys)) <==> NothingIsDown(kb, before) && MediaDown(before) == 0
    ensures LastKeyboard(Run(kb, before + keys).sent) == EMPTY <==> NothingIsDown(kb, before)
    ensures Run(kb, before + keys).modifiers == 0 && Run(kb, before + keys).pressed == Run(kb, before).pressed
  {
    EntryTellsNothing(kb, before, keys);
    HoldsNothing(kb, before);
    EmptyExactly(kb, Run(kb, before));
    NoModifiers(kb, before + keys);
  }

  lemma NoModifiers(kb: Keyboard, moments: seq<Moment>)
    requires forall code :: !Held(moments, code)
    ensures Run(kb, moments).modifiers == 0
  {
    NoModifierDown(moments);
    ChordsAlwaysWork(kb, moments);
    assert forall m :: m in MODIFIERS ==> 0 & MODIFIERS[m] == 0;
    SameBits(Run(kb, moments).modifiers, 0);
  }

  lemma NoModifierDown(moments: seq<Moment>)
    requires forall code :: !Held(moments, code)
    ensures forall m :: m in MODIFIERS ==> !ModifierDown(moments, m)
  {
    forall m | m in MODIFIERS ensures !ModifierDown(moments, m) {
      if ModifierDown(moments, m) {
        ModifierHeld(moments, m);
      }
    }
  }

  /** While the link is down. */
  predicate Asleep(moments: seq<Moment>) {
    forall i :: 0 <= i < |moments| ==> match moments[i]
      case Key(at, _) => !at.up
      case Left(up) => !up
      case Gone(up, _) => !up
      case _ => true
  }

  lemma {:induction false} AsleepTellsNothing(kb: Keyboard, before: seq<Moment>, asleep: seq<Moment>)
    requires Asleep(asleep) && PhoneIdle(Run(kb, before))
    ensures PhoneIdle(Run(kb, before + asleep))
    decreases |asleep|
  {
    var all := before + asleep;
    if asleep == [] {
      assert all == before;
    } else {
      assert Before(all) == before + Before(asleep) && Last(all) == Last(asleep);
      AsleepTellsNothing(kb, before, Before(asleep));
      Heard(kb, all);
      HeardMedia(kb, all);
      if Tells(kb, all) {
        NothingHeld(kb, Run(kb, all));
      }
    }
  }

  /** A phone woken by a key: whatever was struck while the link was down, as it comes
      up the phone is in step exactly if nothing is down. */
  lemma WokenInStep(kb: Keyboard, before: seq<Moment>, asleep: seq<Moment>)
    requires 0 !in kb.Values && (before == [] || Last(before).Lost?) && Asleep(asleep)
    ensures InStep(kb, before + asleep) <==> NothingIsDown(kb, before + asleep)
    ensures MediaInStep(kb, before + asleep) <==> MediaDown(before + asleep) == 0
  {
    if before != [] {
      Heard(kb, before);
      HeardMedia(kb, before);
      NothingHeld(kb, Run(kb, before));
    }
    AsleepTellsNothing(kb, before, asleep);
    EmptyExactly(kb, Run(kb, before + asleep));
    HoldsNothing(kb, before + asleep);
  }

  // -- every key up ------------------------------------------------------------

  /** The run as far as its event at `i`. */
  function Upto(moments: seq<Moment>, i: nat): (r: seq<Moment>)
    requires i < |moments|
    ensures |r| == i + 1
  {
    moments[..i + 1]
  }

  /** At `i` a press goes to the phone as this key. */
  predicate ForwardedAt(kb: Keyboard, moments: seq<Moment>, i: nat, code: Keycode)
    requires i < |moments|
  {
    Moves(kb, Upto(moments, i), code) && moments[i].e.isPress
  }

  /** At `i` a release goes to the phone as this key, or it is lifted with all others, or
      the keyboard it was on is gone. */
  predicate UndoneAt(kb: Keyboard, moments: seq<Moment>, i: nat, code: Keycode)
    requires i < |moments|
  {
    || Lifts(Upto(moments, i))
    || (Moves(kb, Upto(moments, i), code) && !moments[i].e.isPress)
    || (moments[i].Gone? && code !in moments[i].held)
  }

  /** A press was forwarded as this key at `i`, and nothing since has undone it. */
  ghost predicate Unreleased(kb: Keyboard, moments: seq<Moment>, i: nat, code: Keycode) {
    i < |moments| && ForwardedAt(kb, moments, i, code)
    && forall j :: i < j < |moments| ==> !UndoneAt(kb, moments, j, code)
  }

  /** Some press forwarded as this key has not been undone. */
  ghost predicate Loose(kb: Keyboard, moments: seq<Moment>, code: Keycode) {
    exists i: nat :: Unreleased(kb, moments, i, code)
  }

  ghost predicate NoneLoose(kb: Keyboard, moments: seq<Moment>) {
    forall code :: !Loose(kb, moments, code)
  }

  ghost predicate NoKeyDown(kb: Keyboard, moments: seq<Moment>) {
    forall code :: !KeyDown(kb, moments, code)
  }

  lemma PhoneKeyLiftsNothing(kb: Keyboard, moments: seq<Moment>)
    requires moments != [] && ToPhone(kb, moments)
    ensures !Lifts(moments)
  {
    assert !Chord(moments);
  }

  /** A key counts as down exactly if some press forwarded as it has not been undone. */
  lemma {:induction false} KeyDownExactly(kb: Keyboard, moments: seq<Moment>, code: Keycode)
    ensures KeyDown(kb, moments, code) <==> Loose(kb, moments, code)
    decreases |moments|
  {
    if moments != [] {
      var n, front := |moments| - 1, Before(moments);
      KeyDownExactly(kb, front, code);
      assert Upto(moments, n) == moments;
      if KeyDown(kb, moments, code) {
        assert !UndoneAt(kb, moments, n, code);
        if Moves(kb, moments, code) {
          assert Unreleased(kb, moments, n, code);
        } else {
          var i: nat :| Unreleased(kb, front, i, code);
          UnreleasedNext(kb, moments, i, code);
        }
      }
      if i: nat :| Unreleased(kb, moments, i, code) {
        if i < n {
          UnreleasedNext(kb, moments, i, code);
          assert !UndoneAt(kb, moments, n, code);
        } else {
          PhoneKeyLiftsNothing(kb, moments);
        }
      }
    }
  }

  lemma UnreleasedNext(kb: Keyboard, moments: seq<Moment>, i: nat, code: Keycode)
    requires i + 1 < |moments|
    ensures Unreleased(kb, moments, i, code) <==>
      Unreleased(kb, Before(moments), i, code) && !UndoneAt(kb, moments, |moments| - 1, code)
  {
    var front := Before(moments);
    assert forall j :: 0 <= j < |front| ==> Upto(moments, j) == Upto(front, j) && moments[j] == front[j];
    assert forall j :: 0 <= j < |front| ==> UndoneAt(kb, moments, j, code) == UndoneAt(kb, front, j, code);
  }

  /** With nothing physically held and the phone in step, the last keyboard report is
      empty exactly if every press forwarded had its release forwarded as the same key,
      or was lifted. */
  lemma EveryKeyUp(kb: Keyboard, moments: seq<Moment>)
    requires 0 !in kb.Values && InStep(kb, moments)
    requires forall code :: !Held(moments, code)
    ensures LastKeyboard(Run(kb, moments).sent) == EMPTY <==> NoneLoose(kb, moments)
  {
    EmptyExactly(kb, Run(kb, moments));
    NoModifiers(kb, moments);
    NothingPressed(kb, moments);
    AllReleased(kb, moments);
  }

  lemma AllReleased(kb: Keyboard, moments: seq<Moment>)
    ensures NoKeyDown(kb, moments) <==> NoneLoose(kb, moments)
  {
    if NoneLoose(kb, moments) {
      forall code ensures !KeyDown(kb, moments, code) {
        KeyDownExactly(kb, moments, code);
      }
    }
    if NoKeyDown(kb, moments) {
      forall code ensures !Loose(kb, moments, code) {
        KeyDownExactly(kb, moments, code);
      }
    }
  }

  lemma NothingPressed(kb: Keyboard, moments: seq<Moment>)
    ensures Run(kb, moments).pressed == [] <==> NoKeyDown(kb, moments)
  {
    KeysAreExact(kb, moments);
    NoneDown(kb, moments, Run(kb, moments).pressed);
  }

  lemma NoneDown(kb: Keyboard, moments: seq<Moment>, pressed: seq<Keycode>)
    requires ExactlyDown(kb, moments, pressed)
    ensures pressed == [] <==> NoKeyDown(kb, moments)
  {
    if pressed != [] {
      assert pressed[0] in pressed && KeyDown(kb, moments, pressed[0]);
    } else {
      forall code ensures !KeyDown(kb, moments, code) {
        assert code !in pressed;
      }
    }
  }

  // -- with the top row fixed and no passkey -----------------------------------

  /** Whatever the top row sends is a media key, as the real one does. */
  predicate MediaRow(topRow: map<Keycode, Keycode>, consumer: map<Keycode, Usage>) {
    topRow.Values <= consumer.Keys
  }

  lemma TopRowIsMedia()
    ensures MediaRow(TOP_ROW_MEDIA, CONSUMER) && MediaRow(map[], CONSUMER)
  {
    assert TOP_ROW_MEDIA.Values <= CONSUMER.Keys by {
      forall code | code in TOP_ROW_MEDIA.Values ensures code in CONSUMER {
        var k :| k in TOP_ROW_MEDIA && TOP_ROW_MEDIA[k] == code;
      }
    }
  }

  /** A key struck since everything was last lifted, or found held since, and not let go
      of.  What was down at the lift belongs to whoever took it over. */
  predicate Struck(moments: seq<Moment>, code: Keycode) {
    if moments == [] || Lifts(moments) then false
    else if Last(moments).Gone? then code in Last(moments).held
    else if Last(moments).Key? && Last(moments).e.keycode == code then Last(moments).e.isPress
    else Struck(Before(moments), code) || (Last(moments).Taken? && code in Last(moments).held)
  }

  lemma {:induction false} ModifierStruck(moments: seq<Moment>, m: Keycode)
    requires ModifierDown(moments, m)
    ensures Struck(moments, m)
    decreases |moments|
  {
    if !Last(moments).Taken? && !Last(moments).Gone? && !(Last(moments).Key? && Last(moments).e.keycode == m) {
      ModifierStruck(Before(moments), m);
    }
  }

  /** The last event has the link up, this top row and no passkey. */
  predicate SteadyLast(topRow: map<Keycode, Keycode>, consumer: map<Keycode, Usage>, moments: seq<Moment>)
    requires moments != []
  {
    && LinkUp(Last(moments))
    && (Last(moments).Key? ==>
          !Last(moments).at.entering && Last(moments).at.topRow == topRow && Last(moments).at.consumer == consumer)
  }

  predicate Steady(
      topRow: map<Keycode, Keycode>, consumer: map<Keycode, Usage>,
      before: seq<Moment>, since: seq<Moment>)
    decreases |since|
  {
    since == [] || (Steady(topRow, consumer, before, Before(since)) && SteadyLast(topRow, consumer, before + since))
  }

  /** Nothing is down, and the phone knows it: as a session begins, the link is lost, or
      another console comes to the front with the link up. */
  predicate Fresh(kb: Keyboard, moments: seq<Moment>) {
    moments == [] || (Lifts(moments) && Tells(kb, moments) && TellsMedia(kb, moments))
  }

  /** What such keys mean to the phone. */
  predicate PlainKey(kb: Keyboard, topRow: map<Keycode, Keycode>, consumer: map<Keycode, Usage>, code: Keycode) {
    code !in MODIFIERS && code !in topRow && code !in consumer && code in kb
  }

  predicate MediaKey(topRow: map<Keycode, Keycode>, consumer: map<Keycode, Usage>, code: Keycode) {
    code !in MODIFIERS && Image(topRow, code) in consumer
  }

  /** A key event goes where the tables say, a chord aside, which is always a press. */
  lemma SteadyRoute(kb: Keyboard, topRow: map<Keycode, Keycode>, consumer: map<Keycode, Usage>, moments: seq<Moment>)
    requires moments != [] && Last(moments).Key? && Last(moments).e.keycode !in MODIFIERS
    requires SteadyLast(topRow, consumer, moments) && MediaRow(topRow, consumer)
    ensures var e, route := Last(moments).e, LastRoute(kb, moments);
            && (route.Phone? ==> route.code == e.keycode && PlainKey(kb, topRow, consumer, e.keycode))
            && (route.Consumer? ==> MediaKey(topRow, consumer, e.keycode) && (!e.isPress ==> route.usage == 0))
            && (!e.isPress && PlainKey(kb, topRow, consumer, e.keycode) ==> route.Phone?)
            && (!e.isPress && MediaKey(topRow, consumer, e.keycode) ==> route.Consumer?)
  {
    var k := Last(moments).e.keycode;
    assert k in topRow ==> topRow[k] in topRow.Values;
  }

  /** A key down, or told to the phone as down, is a plain key that was struck. */
  ghost predicate KeyIsStruck(
      kb: Keyboard, topRow: map<Keycode, Keycode>, consumer: map<Keycode, Usage>, moments: seq<Moment>, code: Keycode) {
    && (KeyDown(kb, moments, code) ==> Struck(moments, code) && PlainKey(kb, topRow, consumer, code))
    && (KeyDown(kb, Told(kb, moments), code) ==> Struck(moments, code) && PlainKey(kb, topRow, consumer, code))
  }

  /** A lift with the link up is told. */
  lemma LiftIsTold(kb: Keyboard, moments: seq<Moment>)
    requires moments != [] && Lifts(moments) && LinkUp(Last(moments))
    ensures Tells(kb, moments) && TellsMedia(kb, moments)
  {
    match Last(moments)
    case Key(at, e) => assert at.up && Leaves(moments) && Chord(moments);
    case Lost =>
    case Left(up) => assert up && Leaves(moments);
    case Gone(up, held) => EventHistory(moments);
    case _ => EventHistory(moments);
  }

  /** A key struck is let go of only by an event that tells. */
  lemma StruckUntilTold(
      kb: Keyboard, topRow: map<Keycode, Keycode>, consumer: map<Keycode, Usage>, moments: seq<Moment>, code: Keycode)
    requires moments != [] && SteadyLast(topRow, consumer, moments) && MediaRow(topRow, consumer)
    requires Struck(Before(moments), code) && !Struck(moments, code)
    ensures code in MODIFIERS ==> Tells(kb, moments)
    ensures PlainKey(kb, topRow, consumer, code) ==>
      && Tells(kb, moments)
      && (Last(moments).Gone? || Lifts(moments) || (Moves(kb, moments, code) && !Last(moments).e.isPress))
    ensures MediaKey(topRow, consumer, code) ==>
      && TellsMedia(kb, moments)
      && (Last(moments).Gone? || Lifts(moments) || (ToMedia(moments) && !Last(moments).e.isPress))
  {
    if Lifts(moments) {
      LiftIsTold(kb, moments);
    } else if Last(moments).Key? && code !in MODIFIERS {
      SteadyRoute(kb, topRow, consumer, moments);
    }
  }

  lemma KeyStaysStruck(
      kb: Keyboard, topRow: map<Keycode, Keycode>, consumer: map<Keycode, Usage>, moments: seq<Moment>, code: Keycode)
    requires moments != [] && SteadyLast(topRow, consumer, moments) && MediaRow(topRow, consumer)
    requires KeyIsStruck(kb, topRow, consumer, Before(moments), code)
    ensures KeyIsStruck(kb, topRow, consumer, moments, code)
  {
    if KeyDown(kb, moments, code) {
      if Moves(kb, moments, code) {
        SteadyRoute(kb, topRow, consumer, moments);
      } else if !Struck(moments, code) {
        StruckUntilTold(kb, topRow, consumer, moments, code);
      }
    }
    if !Tells(kb, moments) && KeyDown(kb, Told(kb, moments), code) && !Struck(moments, code) {
      StruckUntilTold(kb, topRow, consumer, moments, code);
    }
  }

  lemma {:induction false} SteadyKeys(
      kb: Keyboard, topRow: map<Keycode, Keycode>, consumer: map<Keycode, Usage>,
      before: seq<Moment>, since: seq<Moment>, code: Keycode)
    requires Fresh(kb, before) && Steady(topRow, consumer, before, since) && MediaRow(topRow, consumer)
    ensures KeyIsStruck(kb, topRow, consumer, before + since, code)
    decreases |since|
  {
    if since == [] {
      assert before + since == before;
    } else {
      assert Before(before + since) == before + Before(since);
      SteadyKeys(kb, topRow, consumer, before, Before(since), code);
      KeyStaysStruck(kb, topRow, consumer, before + since, code);
    }
  }

  lemma {:induction false} SteadyModifiers(
      kb: Keyboard, topRow: map<Keycode, Keycode>, consumer: map<Keycode, Usage>,
      before: seq<Moment>, since: seq<Moment>, m: Keycode)
    requires Fresh(kb, before) && Steady(topRow, consumer, before, since) && MediaRow(topRow, consumer)
    requires m in MODIFIERS
    ensures ModifierDown(Told(kb, before + since), m) ==> Struck(before + since, m)
    decreases |since|
  {
    var all := before + since;
    if since == [] {
      assert all == before;
    } else {
      assert Before(all) == before + Before(since);
      SteadyModifiers(kb, topRow, consumer, before, Before(since), m);
      if Tells(kb, all) {
        if ModifierDown(all, m) {
          ModifierStruck(all, m);
        }
      } else if Struck(Before(all), m) && !Struck(all, m) {
        StruckUntilTold(kb, topRow, consumer, all, m);
      }
    }
  }

  /** A media key told to the phone as down is one that was struck. */
  ghost predicate MediaIsStruck(
      kb: Keyboard, topRow: map<Keycode, Keycode>, consumer: map<Keycode, Usage>, moments: seq<Moment>) {
    MediaDown(MediaTold(kb, moments)) != 0 ==>
      exists k :: MediaKey(topRow, consumer, k) && Struck(moments, k)
  }

  lemma MediaStaysStruck(
      kb: Keyboard, topRow: map<Keycode, Keycode>, consumer: map<Keycode, Usage>, moments: seq<Moment>)
    requires moments != [] && SteadyLast(topRow, consumer, moments) && MediaRow(topRow, consumer)
    requires MediaIsStruck(kb, topRow, consumer, Before(moments))
    ensures MediaIsStruck(kb, topRow, consumer, moments)
  {
    if TellsMedia(kb, moments) {
      if MediaDown(moments) != 0 {
        assert ToMedia(moments);
        SteadyRoute(kb, topRow, consumer, moments);
        assert Struck(moments, Last(moments).e.keycode);
      }
    } else if MediaDown(MediaTold(kb, moments)) != 0 {
      var k :| MediaKey(topRow, consumer, k) && Struck(Before(moments), k);
      if !Struck(moments, k) {
        StruckUntilTold(kb, topRow, consumer, moments, k);
      }
    }
  }

  lemma {:induction false} SteadyMedia(
      kb: Keyboard, topRow: map<Keycode, Keycode>, consumer: map<Keycode, Usage>,
      before: seq<Moment>, since: seq<Moment>)
    requires Fresh(kb, before) && Steady(topRow, consumer, before, since) && MediaRow(topRow, consumer)
    ensures MediaIsStruck(kb, topRow, consumer, before + since)
    decreases |since|
  {
    if since == [] {
      assert before + since == before;
    } else {
      assert Before(before + since) == before + Before(since);
      SteadyMedia(kb, topRow, consumer, before, Before(since));
      MediaStaysStruck(kb, topRow, consumer, before + since);
    }
  }

  /** Since everything was last lifted, with the link up, the top row fixed and no
      passkey: once every key struck has been let go of, the phone holds nothing. */
  lemma SteadyLeavesNothing(
      kb: Keyboard, topRow: map<Keycode, Keycode>, consumer: map<Keycode, Usage>,
      before: seq<Moment>, since: seq<Moment>)
    requires 0 !in kb.Values && MediaRow(topRow, consumer)
    requires Fresh(kb, before) && Steady(topRow, consumer, before, since)
    requires forall code :: !Struck(before + since, code)
    ensures PhoneIdle(Run(kb, before + since))
  {
    var all := before + since;
    forall code ensures !KeyDown(kb, Told(kb, all), code) {
      SteadyKeys(kb, topRow, consumer, before, since, code);
    }
    forall m | m in MODIFIERS ensures !ModifierDown(Told(kb, all), m) {
      SteadyModifiers(kb, topRow, consumer, before, since, m);
    }
    SteadyMedia(kb, topRow, consumer, before, since);
    NothingSticks(kb, all);
  }

  /** The keyboards, where they are asked, miss no key struck. */
  predicate MissedNone(before: seq<Moment>, since: seq<Moment>, code: Keycode)
    decreases |since|
  {
    since == [] ||
    (&& MissedNone(before, Before(since), code)
     && (Last(since).Taken? && Struck(before + Before(since), code) ==> code in Last(since).held))
  }

  lemma {:induction false} StruckIsHeld(before: seq<Moment>, since: seq<Moment>, code: Keycode)
    requires (before == [] || Lifts(before)) && MissedNone(before, since, code)
    ensures Struck(before + since, code) ==> Held(before + since, code)
    decreases |since|
  {
    var all := before + since;
    if since == [] {
      assert all == before;
    } else {
      assert Before(all) == before + Before(since) && Last(all) == Last(since);
      StruckIsHeld(before, Before(since), code);
    }
  }

  /** So with nothing physically held: the phone holds nothing. */
  lemma SteadyKeysUp(
      kb: Keyboard, topRow: map<Keycode, Keycode>, consumer: map<Keycode, Usage>,
      before: seq<Moment>, since: seq<Moment>)
    requires 0 !in kb.Values && MediaRow(topRow, consumer)
    requires Fresh(kb, before) && Steady(topRow, consumer, before, since)
    requires forall code :: !Held(before + since, code) && MissedNone(before, since, code)
    ensures PhoneIdle(Run(kb, before + since))
  {
    forall code ensures !Struck(before + since, code) {
      assert !Held(before + since, code) && MissedNone(before, since, code);
      StruckIsHeld(before, since, code);
    }
    SteadyLeavesNothing(kb, topRow, consumer, before, since);
  }

  /** Such a stretch begins with a return from another console, reached by a chord with
      the link up, although the keys of the chord were let go of there. */
  lemma ChordIsFresh(kb: Keyboard, moments: seq<Moment>)
    requires moments != [] && Chord(moments) && !Away(Before(moments)) && Last(moments).at.up
    ensures Fresh(kb, moments) && forall code :: !Struck(moments + [Front, Taken([])], code)
  {
    LiftIsTold(kb, moments);
    var front := moments + [Front];
    var back := moments + [Front, Taken([])];
    assert Before(back) == front && Before(front) == moments && Last(back) == Taken([]) && Last(front) == Front;
    assert !Chord(back) && !Leaves(back) && !Chord(front) && !Leaves(front);
    forall code ensures !Struck(back, code) {
      assert !Struck(moments, code) && !Struck(front, code);
    }
  }

  // -- runs that go wrong ------------------------------------------------------

  /** Nothing here can move a modifier or bring another console to the front. */
  predicate Ordinary(moment: Moment) {
    moment.Front? || moment.Raised? || (moment.Key? && moment.e.keycode !in MODIFIERS)
  }

  predicate AllOrdinary(moments: seq<Moment>) {
    forall i :: 0 <= i < |moments| ==> Ordinary(moments[i])
  }

  lemma {:induction false} OrdinaryLiftsNothing(moments: seq<Moment>)
    requires AllOrdinary(moments)
    ensures moments != [] ==> !Lifts(moments) && !Chord(moments)
    ensures forall m :: m in MODIFIERS ==> !ModifierDown(moments, m)
    decreases |moments|
  {
    if moments != [] {
      OrdinaryLiftsNothing(Before(moments));
      assert Ordinary(Last(moments));
      assert 56 in MODIFIERS && 100 in MODIFIERS;
      assert !AltDown(Before(moments)) && !Chord(moments) && !Lifts(moments);
    }
  }

  /** A session come to the front and one key struck: it is down.  A letter, a Shift, or
      a volume key. */
  lemma OneStruck(kb: Keyboard, at: Setting, keycode: Keycode)
    requires !at.entering && keycode !in at.topRow
    requires || (keycode == 30 && 30 in kb && 30 !in at.consumer) || keycode == 42
             || (keycode == 115 && 115 in at.consumer && at.consumer[115] != 0)
    ensures var down := [Front, Key(at, KeyEvent(keycode, true))];
            && !Leaves(down) && !Lifts(down)
            && (at.up && keycode != 115 ==> Tells(kb, down)) && (at.up && keycode == 115 ==> TellsMedia(kb, down))
            && if keycode == 30 then KeyDown(kb, down, 30)
               else if keycode == 42 then ModifierDown(down, 42) else MediaDown(down) != 0
  {
    var down := [Front, Key(at, KeyEvent(keycode, true))];
    assert Before(down) == [Front] && Before([Front]) == [];
    assert !ModifierDown([], 56) && !ModifierDown([], 100);
    assert !Lifts([Front]) && !AltDown([Front]) && !Chord(down);
    assert !Away([Front]) && !Leaves(down) && !Lifts(down);
    assert 30 !in MODIFIERS && 115 !in MODIFIERS && 42 in MODIFIERS;
    assert Last(down) == Key(at, KeyEvent(keycode, true));
    if keycode == 30 {
      assert LastRoute(kb, down) == Phone(30);
      assert Moves(kb, down, 30) && KeyDown(kb, down, 30);
    } else if keycode == 115 {
      assert LastRoute(kb, down) == Consumer(at.consumer[115]);
      assert ToMedia(down);
    }
  }

  /** The phone is told of each of them. */
  lemma StruckInStep(kb: Keyboard, at: Setting, keycode: Keycode)
    requires at.up && !at.entering && keycode !in at.topRow
    requires || (keycode == 30 && 30 in kb && 30 !in at.consumer) || keycode == 42
             || (keycode == 115 && 115 in at.consumer && at.consumer[115] != 0)
    ensures var down := [Front, Key(at, KeyEvent(keycode, true))];
            InStep(kb, down) && MediaInStep(kb, down)
  {
    var down := [Front, Key(at, KeyEvent(keycode, true))];
    OneStruck(kb, at, keycode);
    assert MediaInStep(kb, down) by {
      assert LinkUp(down[0]) && LinkUp(down[1]);
      MediaWithLinkUp(kb, down);
    }
    if keycode == 115 {
      VolumeIsNoKey(kb, at);
    } else {
      Heard(kb, down);
    }
  }

  lemma VolumeIsNoKey(kb: Keyboard, at: Setting)
    requires at.up && !at.entering && 115 !in at.topRow && 115 in at.consumer
    ensures InStep(kb, [Front, Key(at, KeyEvent(115, true))])
  {
    var down := [Front, Key(at, KeyEvent(115, true))];
    assert Before(down) == [Front] && Before([Front]) == [] && 115 !in MODIFIERS;
    OrdinaryLiftsNothing([Front]);
    OrdinaryLiftsNothing(down);
    assert LastRoute(kb, down) == Consumer(at.consumer[115]);
    assert !Tells(kb, down) && !Tells(kb, [Front]);
    HeardLast(kb, down);
    assert Told(kb, [Front]) == [] && Told(kb, down) == [];
    NothingHeld(kb, START);
    forall code ensures !KeyDown(kb, down, code) {
      assert !KeyDown(kb, [], code) && !KeyDown(kb, [Front], code);
    }
    HoldsNothing(kb, down);
    NothingHeld(kb, Run(kb, down));
  }

  /** The case it fails in: a letter struck to wake the phone, and still down as the
      link comes up.  The next report makes it known. */
  lemma WakingKeyIsUnknown(kb: Keyboard, at: Setting)
    requires !at.up && !at.entering
    requires 30 in kb && 0 !in kb.Values && 30 !in at.topRow && 30 !in at.consumer
    ensures var moments := [Front, Key(at, KeyEvent(30, true)), Raised];
            Held(moments, 30) && !InStep(kb, moments)
  {
    var moments := [Front, Key(at, KeyEvent(30, true)), Raised];
    var struck := [Front, Key(at, KeyEvent(30, true))];
    OneStruck(kb, at, 30);
    assert Before(moments) == struck;
    assert !Chord(moments) && !Leaves(moments) && KeyDown(kb, moments, 30);
    WokenInStep(kb, [], moments);
    assert [] + moments == moments;
  }

  lemma NothingHeldAfter(down: seq<Moment>, up: seq<Moment>, keycode: Keycode)
    requires |down| == 2 && down[0].Front? && down[1].Key? && down[1].e.keycode == keycode
    requires |up| == 1 && up[0].Key? && up[0].e == KeyEvent(keycode, false)
    ensures forall code :: !Held(down + up, code)
  {
    assert Before(down + up) == down && Before(down) == [Front] && Before([Front]) == [];
    forall code ensures !Held(down + up, code) {
      assert !Held([], code) && !Held([Front], code);
      assert Held(down, code) ==> code == keycode;
    }
  }

  /** The three ways a passkey leaves something down: a letter, a Shift or a volume key,
      down as it is asked for and let go of during its entry.  The phone goes on holding
      it. */
  lemma PasskeyTakesTheRelease(kb: Keyboard, at: Setting, keycode: Keycode)
    requires at.up && !at.entering && 0 !in kb.Values && keycode !in at.topRow
    requires || (keycode == 30 && 30 in kb && 30 !in at.consumer) || keycode == 42
             || (keycode == 115 && 115 in at.consumer && at.consumer[115] != 0)
    ensures var moments := [Front, Key(at, KeyEvent(keycode, true)),
                            Key(at.(entering := true), KeyEvent(keycode, false))];
            !PhoneIdle(Run(kb, moments)) && forall code :: !Held(moments, code)
  {
    var down := [Front, Key(at, KeyEvent(keycode, true))];
    var up := [Key(at.(entering := true), KeyEvent(keycode, false))];
    OneStruck(kb, at, keycode);
    StruckInStep(kb, at, keycode);
    assert Before(up) == [] && Before(down + up) == down && down + up != [];
    assert Last(down + up) == Last(up) && !Chord(down + up);
    assert Entry(down, Before(up)) && !Leaves(down + up);
    NothingHeldAfter(down, up, keycode);
    PasskeyLeavesNothing(kb, down, up);
    assert down + up == [Front, Key(at, KeyEvent(keycode, true)), Key(at.(entering := true), KeyEvent(keycode, false))];
  }

  /** F5 struck while the link is down, the top row changed as it comes up, and F5 let go
      of: its release is another key's, and the phone is told at the next report that F5
      is down, with no key held. */
  lemma RemappedReleaseIsLost(kb: Keyboard, asleep: Setting, awake: Setting)
    requires !asleep.up && !asleep.entering && 63 !in asleep.topRow && 63 !in asleep.consumer
    requires awake.up && !awake.entering && 63 in awake.topRow && awake.topRow[63] in awake.consumer
    requires 63 in kb && 30 in kb && 0 !in kb.Values && 30 !in awake.topRow && 30 !in awake.consumer
    ensures var moments := [Front, Key(asleep, KeyEvent(63, true)), Raised, Key(awake, KeyEvent(63, false)),
                            Key(awake, KeyEvent(30, true)), Key(awake, KeyEvent(30, false))];
            LastKeyboard(Run(kb, moments).sent) != EMPTY && forall code :: !Held(moments, code)
  {
    var struck := [Front, Key(asleep, KeyEvent(63, true))];
    var loose := struck + [Raised] + [Key(awake, KeyEvent(63, false))];
    var typed := loose + [Key(awake, KeyEvent(30, true))];
    var all := typed + [Key(awake, KeyEvent(30, false))];
    assert Before(all) == typed && Before(typed) == loose;
    FiveIsLoose(kb, asleep, awake);
    LetterMoves(kb, typed, awake);
    LetterMoves(kb, all, awake);
    StuckWhenTold(kb, all, 63);
    assert all == [Front, Key(asleep, KeyEvent(63, true)), Raised, Key(awake, KeyEvent(63, false)),
                   Key(awake, KeyEvent(30, true)), Key(awake, KeyEvent(30, false))];
  }

  lemma StuckWhenTold(kb: Keyboard, moments: seq<Moment>, code: Keycode)
    requires 0 !in kb.Values && moments != [] && Tells(kb, moments) && KeyDown(kb, moments, code)
    ensures LastKeyboard(Run(kb, moments).sent) != EMPTY
  {
    PhoneMirrorsKeyboard(kb, moments);
    EmptyExactly(kb, Run(kb, moments));
    NothingPressed(kb, moments);
  }

  /** F5 let go of, and still down to the session. */
  lemma FiveIsLoose(kb: Keyboard, asleep: Setting, awake: Setting)
    requires !asleep.entering && 63 !in asleep.topRow && 63 !in asleep.consumer && 63 in kb
    requires !awake.entering && 63 in awake.topRow && awake.topRow[63] in awake.consumer
    ensures var loose := [Front, Key(asleep, KeyEvent(63, true))] + [Raised] + [Key(awake, KeyEvent(63, false))];
            && KeyDown(kb, loose, 63) && (forall code :: !Held(loose, code))
            && AllOrdinary(loose)
  {
    var struck := [Front, Key(asleep, KeyEvent(63, true))];
    var raised := struck + [Raised];
    var loose := raised + [Key(awake, KeyEvent(63, false))];
    assert 63 !in MODIFIERS && Before(loose) == raised && Before(raised) == struck;
    assert Before(struck) == [Front] && Before([Front]) == [];
    OrdinaryLiftsNothing([Front]);
    OrdinaryLiftsNothing(struck);
    OrdinaryLiftsNothing(raised);
    OrdinaryLiftsNothing(loose);
    assert LastRoute(kb, struck) == Phone(63) && KeyDown(kb, struck, 63);
    assert KeyDown(kb, raised, 63);
    assert LastRoute(kb, loose).Consumer? && KeyDown(kb, loose, 63);
    forall code ensures !Held(loose, code) {
      assert !Held([], code) && !Held([Front], code);
      assert Held(struck, code) ==> code == 63;
      assert Held(raised, code) ==> code == 63;
    }
  }

  /** A letter struck or let go of changes none of that, and the phone is told. */
  lemma LetterMoves(kb: Keyboard, moments: seq<Moment>, at: Setting)
    requires moments != [] && Last(moments).Key? && Last(moments).e.keycode == 30 && Last(moments).at == at
    requires AllOrdinary(Before(moments)) && KeyDown(kb, Before(moments), 63)
    requires at.up && !at.entering && 30 in kb && 30 !in at.topRow && 30 !in at.consumer
    ensures AllOrdinary(moments) && KeyDown(kb, moments, 63) && Tells(kb, moments)
    ensures forall code :: Held(moments, code) ==>
      if code == 30 then Last(moments).e.isPress else Held(Before(moments), code)
  {
    assert 30 !in MODIFIERS && 56 in MODIFIERS && 100 in MODIFIERS;
    assert moments == Before(moments) + [Last(moments)];
    OrdinaryLiftsNothing(Before(moments));
    OrdinaryLiftsNothing(moments);
    assert !AltDown(Before(moments)) && LastRoute(kb, moments) == Phone(30);
  }
}
