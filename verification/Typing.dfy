/** Typing pasted text: a queue of reports, drained one a tick over a link it
    shares with the keyboard. */
module Typing {
  import opened Wrappers
  import opened Keycodes
  import opened Hid
  import opened Coalescing
  import opened Probe
  import opened Seqs
  import opened Streaming
  import opened Escapes

  const QUEUE_LIMIT: nat := 20000

  // -- from characters to keystrokes -------------------------------------------

  type Keymap = map<char, seq<Step>>

  /** The characters whose meaning is the key: the same on every layout. */
  function Whitespace(shiftNewline: bool): Keymap {
    var enter := [Step(KEY_ENTER, if shiftNewline then MOD_LEFTSHIFT else 0)];
    map['\n' := enter,
        '\r' := enter,
        '\t' := [Step(KEY_TAB, 0)],
        ' ' := [Step(KEY_SPACE, 0)],
        '\U{7F}' := [Step(KEY_BACKSPACE, 0)],
        '\U{08}' := [Step(KEY_BACKSPACE, 0)],
        ESC := [Step(KEY_ESC, 0)]]
  }

  /** The keystrokes of the steps a report can carry; the others are skipped. */
  function KnownStrokes(kb: Keyboard, steps: seq<Step>): seq<Stroke> {
    if steps == [] then []
    else
      var front := KnownStrokes(kb, steps[..|steps| - 1]);
      var last := steps[|steps| - 1];
      if last.keycode in kb then front + [Press(kb, last)] else front
  }

  predicate AllKnown(kb: Keyboard, steps: seq<Step>) {
    forall i :: 0 <= i < |steps| ==> steps[i].keycode in kb
  }

  /** A character is typed whole or not at all. */
  function CharStrokes(kb: Keyboard, keymap: Keymap, c: char): Option<seq<Stroke>> {
    if c !in keymap || keymap[c] == [] || !AllKnown(kb, keymap[c]) then None
    else Some(KnownStrokes(kb, keymap[c]))
  }

  function ItemStrokes(kb: Keyboard, keymap: Keymap, item: Item): seq<Stroke> {
    match item
    case Char(c) => (match CharStrokes(kb, keymap, c) case Some(strokes) => strokes case None => [])
    case Steps(steps) => KnownStrokes(kb, steps)
    case Unknown(_) => []
  }

  function ItemsStrokes(kb: Keyboard, keymap: Keymap, items: seq<Item>): seq<Stroke> {
    if items == [] then []
    else ItemsStrokes(kb, keymap, items[..|items| - 1]) + ItemStrokes(kb, keymap, items[|items| - 1])
  }

  function Chars(text: string): seq<Item> {
    if text == [] then [] else Chars(text[..|text| - 1]) + [Char(text[|text| - 1])]
  }

  // -- the queue ---------------------------------------------------------------

  /** A paste as it stands: the link, what was sent on it, what waits, whether a tick is
      armed, and what the keyboards hold. */
  datatype Paste = Paste(up: bool, sent: seq<Report>, queue: seq<Report>, timer: bool, held: Report)

  /** Text decoded, or given up waiting for; a probe; a tick; the paste abandoned; a
      change on the keyboards, and one the session does not report, as during a passkey's
      entry or on taking the keyboards; the link. */
  datatype Doing =
    | TypesText(strokes: seq<Stroke>)
    | GivesUp(strokes: seq<Stroke>)
    | Probes(strokes: seq<Stroke>)
    | Ticks
    | Clears
    | Holds(report: Report)
    | Quietly(report: Report)
    | LinkLost
    | LinkUp

  function Queued(p: Paste, queue: seq<Report>): Paste {
    p.(queue := queue, timer := p.timer || queue != [])
  }

  /** The keyboards' own state, told while the link is up. */
  function HandBack(p: Paste): Paste {
    if p.up then p.(sent := p.sent + [p.held]) else p
  }

  function Do(p: Paste, d: Doing): Paste {
    match d
    case TypesText(strokes) =>
      if !p.up || |p.queue| > QUEUE_LIMIT then p else Queued(p, PushAll(p.queue, strokes))
    case GivesUp(strokes) => Queued(p, PushAll(p.queue, strokes))
    case Probes(strokes) => Queued(p, p.queue + Plain(strokes))
    case Ticks =>
      if !p.timer then p
      else if !p.up || p.queue == [] then HandBack(p.(queue := [], timer := false))
      else p.(sent := p.sent + [p.queue[0]], queue := p.queue[1..])
    case Clears =>
      var after := p.(queue := [], timer := false);
      if p.queue == [] then after else HandBack(after)
    case Holds(report) => HandBack(p.(held := report))
    case Quietly(report) => p.(held := report)
    case LinkLost => p.(up := false, sent := [], held := NOTHING_DOWN)
    case LinkUp => p.(up := true)
  }

  /** What carries reports to the host, and what it has carried. */
  class Link {
    var connected: bool
    var sent: seq<Report>

    constructor ()
      ensures !connected && sent == []
    {
      connected, sent := false, [];
    }

    /** Reports sent while the link is down go nowhere. */
    method SendKeyboard(report: Report)
      modifies this`sent
      ensures sent == if connected then old(sent) + [report] else old(sent)
    {
      if connected {
        sent := sent + [report];
      }
    }
  }

  lemma CharsNext(kb: Keyboard, keymap: Keymap, text: string, i: nat)
    requires i < |text|
    ensures ItemsStrokes(kb, keymap, Chars(text[..i + 1]))
         == ItemsStrokes(kb, keymap, Chars(text[..i])) + ItemStrokes(kb, keymap, Char(text[i]))
  {
    assert text[..i + 1][..i] == text[..i];
    var items := Chars(text[..i]);
    assert (items + [Char(text[i])])[..|items|] == items;
  }

  lemma PushIs(queue: seq<Report>, s: Stroke)
    ensures var press := [Report(s.mods, [s.usage])];
            Push(queue, s) == if queue != [] && NeedsGap(queue[|queue| - 1], s)
                              then queue + [Report(queue[|queue| - 1].mods & s.mods, [])] + press else queue + press
  {}

  class Typist {
    const kb: Keyboard
    const link: Link
    var keymap: Keymap
    var queue: seq<Report>
    var timer: bool             // a tick is armed
    var pending: string         // a half-arrived escape sequence
    var escapeTimer: bool       // armed while that is waited for
    var held: Report            // what the keyboards hold, for when the queue is empty

    function State(): Paste
      reads this, link
    {
      Paste(link.connected, link.sent, queue, timer, held)
    }

    constructor (kb: Keyboard, link: Link, keymap: Keymap)
      ensures this.kb == kb && this.link == link && this.keymap == keymap
      ensures queue == [] && pending == [] && !timer && !escapeTimer && held == NOTHING_DOWN
    {
      this.kb, this.link, this.keymap := kb, link, keymap;
      queue, pending, timer, escapeTimer, held := [], [], false, false, NOTHING_DOWN;
    }

    method StrokesFor(c: char) returns (strokes: Option<seq<Stroke>>)
      ensures strokes == CharStrokes(kb, keymap, c)
    {
      if c !in keymap || keymap[c] == [] {
        return None;
      }
      var steps := keymap[c];
      var found: seq<Stroke> := [];
      for i := 0 to |steps|
        invariant AllKnown(kb, steps[..i]) && found == KnownStrokes(kb, steps[..i])
      {
        assert steps[..i + 1][..i] == steps[..i];
        if steps[i].keycode !in kb {
          return None;
        }
        found := found + [Press(kb, steps[i])];
      }
      assert steps[..|steps|] == steps;
      return Some(found);
    }

    /** A press at the end of the queue, with a report between where one is called for. */
    method QueueStroke(s: Stroke)
      modifies this`queue
      ensures queue == Push(old(queue), s)
    {
      PushIs(queue, s);
      if queue != [] {
        var last := queue[|queue| - 1];
        if (last.keys != [] && last.keys[0] == s.usage) || last.mods != s.mods {
          queue := queue + [Report(last.mods & s.mods, [])];
        }
      }
      queue := queue + [Report(s.mods, [s.usage])];
    }

    method QueueStrokes(strokes: seq<Stroke>)
      modifies this`queue
      ensures queue == PushAll(old(queue), strokes)
    {
      for i := 0 to |strokes|
        invariant queue == PushAll(old(queue), strokes[..i])
      {
        QueueStroke(strokes[i]);
        PushAllSnoc(old(queue), strokes[..i], strokes[i]);
        assert strokes[..i + 1] == strokes[..i] + [strokes[i]];
      }
      assert strokes[..|strokes|] == strokes;
    }

    /** Probe keystrokes: not coalesced, so that each key is presented plainly. */
    method Enqueue(strokes: seq<Stroke>)
      modifies this`queue, this`timer
      ensures queue == old(queue) + Plain(strokes)
      ensures timer == (old(timer) || queue != [])
      ensures State() == Do(old(State()), Probes(strokes))
    {
      for i := 0 to |strokes|
        invariant queue + Plain(strokes[i..]) == old(queue) + Plain(strokes)
        invariant timer == old(timer)
      {
        var s := strokes[i];
        assert strokes[i..][1..] == strokes[i + 1..];
        queue := queue + [Report(s.mods, [s.usage])];
        queue := queue + [NOTHING_DOWN];
      }
      assert strokes[|strokes|..] == [] && queue + [] == queue;
      if !timer && queue != [] {
        timer := true;
      }
    }

    method WaitForTheRest()
      modifies this`escapeTimer
      ensures escapeTimer == (pending != [])
    {
      escapeTimer := false;
      if pending != [] {
        escapeTimer := true;
      }
    }

    /** Queue text to be typed, unless there is nobody to type it to or too much is
        waiting already. */
    method TypeText(text: string)
      modifies this`queue, this`timer, this`pending, this`escapeTimer
      ensures Bounded(NextItem)
      ensures !link.connected || |old(queue)| > QUEUE_LIMIT ==>
        queue == old(queue) && timer == old(timer) && pending == old(pending) && escapeTimer == old(escapeTimer)
      ensures link.connected && |old(queue)| <= QUEUE_LIMIT ==>
        var decoded := Decode(NextItem, old(pending) + text);
        && queue == PushAll(old(queue), ItemsStrokes(kb, keymap, decoded.items))
        && pending == decoded.tail
        && escapeTimer == (pending != [])
        && timer == (old(timer) || queue != [])
      ensures
        var items := Decode(NextItem, old(pending) + text).items;
        State() == Do(old(State()), TypesText(ItemsStrokes(kb, keymap, items)))
    {
      NextItemIsSteady();
      if !link.connected || |queue| > QUEUE_LIMIT {
        return;
      }
      TakeIn(text);
    }

    method TakeIn(text: string)
      requires Bounded(NextItem)
      modifies this`queue, this`timer, this`pending, this`escapeTimer
      ensures var decoded := Decode(NextItem, old(pending) + text);
              && State() == Queued(old(State()), PushAll(old(queue), ItemsStrokes(kb, keymap, decoded.items)))
              && pending == decoded.tail
              && escapeTimer == (pending != [])
    {
      var items, tail := DecodeText(pending + text);
      pending := tail;
      WaitForTheRest();
      QueueDecoded(items);
    }

    method QueueDecoded(items: seq<Item>)
      modifies this`queue, this`timer
      ensures State() == Queued(old(State()), PushAll(old(queue), ItemsStrokes(kb, keymap, items)))
    {
      QueueItems(items);
      if !timer && queue != [] {
        timer := true;
      }
    }

    method QueueItems(items: seq<Item>)
      modifies this`queue
      ensures queue == PushAll(old(queue), ItemsStrokes(kb, keymap, items))
    {
      for i := 0 to |items|
        invariant queue == PushAll(old(queue), ItemsStrokes(kb, keymap, items[..i]))
      {
        QueueItem(items[i]);
        PushAllConcat(old(queue), ItemsStrokes(kb, keymap, items[..i]), ItemStrokes(kb, keymap, items[i]));
        assert items[..i + 1][..i] == items[..i];
      }
      assert items[..|items|] == items;
    }

    method QueueItem(item: Item)
      modifies this`queue
      ensures queue == PushAll(old(queue), ItemStrokes(kb, keymap, item))
    {
      match item {
        case Steps(steps) => QueueKnown(steps);
        case Unknown(_) =>
        case Char(c) => QueueChar(c);
      }
    }

    /** Keystrokes a sequence stands for; a key no report can name is passed over. */
    method QueueKnown(steps: seq<Step>)
      modifies this`queue
      ensures queue == PushAll(old(queue), KnownStrokes(kb, steps))
    {
      for i := 0 to |steps|
        invariant queue == PushAll(old(queue), KnownStrokes(kb, steps[..i]))
      {
        assert steps[..i + 1][..i] == steps[..i];
        if steps[i].keycode in kb {
          QueueStroke(Press(kb, steps[i]));
          PushAllSnoc(old(queue), KnownStrokes(kb, steps[..i]), Press(kb, steps[i]));
        }
      }
      assert steps[..|steps|] == steps;
    }

    /** The wait is over without the rest of a sequence: its characters are typed
        one by one. */
    method GiveUpWaiting()
      modifies this`queue, this`timer, this`pending, this`escapeTimer
      ensures queue == PushAll(old(queue), ItemsStrokes(kb, keymap, Chars(old(pending))))
      ensures pending == [] && !escapeTimer
      ensures timer == (old(timer) || queue != [])
      ensures State() == Do(old(State()), GivesUp(ItemsStrokes(kb, keymap, Chars(old(pending)))))
    {
      escapeTimer := false;
      var text := pending;
      pending := [];
      for i := 0 to |text|
        invariant queue == PushAll(old(queue), ItemsStrokes(kb, keymap, Chars(text[..i])))
        invariant pending == [] && !escapeTimer && timer == old(timer)
      {
        QueueNext(old(queue), text, i);
      }
      assert text[..|text|] == text;
      if !timer && queue != [] {
        timer := true;
      }
    }

    method QueueNext(ghost start: seq<Report>, text: string, i: nat)
      requires i < |text| && queue == PushAll(start, ItemsStrokes(kb, keymap, Chars(text[..i])))
      modifies this`queue
      ensures queue == PushAll(start, ItemsStrokes(kb, keymap, Chars(text[..i + 1])))
    {
      QueueChar(text[i]);
      CharsNext(kb, keymap, text, i);
      PushAllConcat(start, ItemsStrokes(kb, keymap, Chars(text[..i])), ItemStrokes(kb, keymap, Char(text[i])));
    }

    /** One character, typed whole or passed over. */
    method QueueChar(c: char)
      modifies this`queue
      ensures queue == PushAll(old(queue), ItemStrokes(kb, keymap, Char(c)))
    {
      var strokes := StrokesFor(c);
      if strokes.Some? {
        QueueStrokes(strokes.value);
      }
    }

    /** The phone told again what the keyboards hold. */
    method OnIdle()
      modifies link`sent
      ensures link.sent == if link.connected then old(link.sent) + [held] else old(link.sent)
    {
      link.SendKeyboard(held);
    }

    /** Abandon whatever is queued.  What may have been left held down is put right,
        but only if there was something to abandon. */
    method Clear() returns (dropped: nat)
      modifies this`queue, this`timer, this`pending, this`escapeTimer, link`sent
      ensures dropped == |old(queue)|
      ensures queue == [] && !timer && pending == [] && !escapeTimer
      ensures link.sent == if link.connected && dropped > 0 then old(link.sent) + [held] else old(link.sent)
      ensures State() == Do(old(State()), Clears)
    {
      dropped := |queue|;
      queue := [];
      timer := false;
      pending := [];
      escapeTimer := false;
      if dropped > 0 {
        OnIdle();
      }
    }

    /** One tick: one report, or the end of the paste. */
    method Drain() returns (again: bool)
      modifies this`queue, this`timer, link`sent
      ensures again == (link.connected && old(queue) != [])
      ensures again ==>
        && queue == old(queue)[1..] && timer == old(timer)
        && link.sent == old(link.sent) + [old(queue)[0]]
      ensures !again ==>
        && queue == [] && !timer
        && link.sent == if link.connected then old(link.sent) + [held] else old(link.sent)
      ensures old(timer) ==> State() == Do(old(State()), Ticks)
    {
      if !link.connected {
        queue := [];
      }
      if queue == [] {
        timer := false;
        OnIdle();
        return false;
      }
      var report := queue[0];
      queue := queue[1..];
      link.SendKeyboard(report);
      return true;
    }
  }

  lemma PushAllSnoc(queue: seq<Report>, strokes: seq<Stroke>, s: Stroke)
    ensures PushAll(queue, strokes + [s]) == Push(PushAll(queue, strokes), s)
  {
    PushAllConcat(queue, strokes, [s]);
    assert [s][1..] == [];
  }

  // -- any interleaving of typing and ticking ----------------------------------

  /** What a connected typist is asked to do, with no physical key held. */
  datatype Event = Type(strokes: seq<Stroke>) | Probing(strokes: seq<Stroke>) | Tick

  datatype Traffic = Traffic(sent: seq<Report>, queue: seq<Report>)

  function Next(t: Traffic, e: Event): Traffic {
    match e
    case Type(strokes) => t.(queue := PushAll(t.queue, strokes))
    case Probing(strokes) => t.(queue := t.queue + Plain(strokes))
    case Tick =>
      if t.queue == [] then t.(sent := t.sent + [NOTHING_DOWN])
      else Traffic(t.sent + [t.queue[0]], t.queue[1..])
  }

  function Run(t: Traffic, events: seq<Event>): Traffic {
    if events == [] then t else Next(Run(t, events[..|events| - 1]), events[|events| - 1])
  }

  /** What the host will have seen last when the queue is empty. */
  function Final(t: Traffic): Report {
    Hid.After(NOTHING_DOWN, t.sent + t.queue)
  }

  /** The keystrokes of one request that the host registers: all of them, unless
      the first finds its own key still down with no gap before it.  A typed one
      looks only at the queue; a probed one never looks. */
  function Heard(t: Traffic, e: Event): seq<Stroke> {
    match e
    case Type(strokes) =>
      if t.queue == [] && strokes != [] && strokes[0].usage in Final(t).keys then strokes[1..] else strokes
    case Probing(strokes) =>
      if strokes != [] && strokes[0].usage in Final(t).keys then strokes[1..] else strokes
    case Tick => []
  }

  function AllHeard(t: Traffic, events: seq<Event>): seq<Stroke> {
    if events == [] then []
    else
      var front := events[..|events| - 1];
      AllHeard(t, front) + Heard(Run(t, front), events[|events| - 1])
  }

  lemma PlainExactly(from: Report, strokes: seq<Stroke>)
    ensures Presses(from, Plain(strokes))
         == if strokes != [] && strokes[0].usage in from.keys then strokes[1..] else strokes
  {
    if strokes != [] && strokes[0].usage in from.keys {
      var press := Report(strokes[0].mods, [strokes[0].usage]);
      PressesConcat(from, [press, NOTHING_DOWN], Plain(strokes[1..]));
      assert [press, NOTHING_DOWN] == [press] + [NOTHING_DOWN];
      PressesConcat(from, [press], [NOTHING_DOWN]);
      PressesOne(from, press);
      PressedByOne(from, press.mods, strokes[0].usage);
      PressesOne(press, NOTHING_DOWN);
      PlainRegisters(NOTHING_DOWN, strokes[1..]);
    } else {
      PlainRegisters(from, strokes);
    }
  }

  lemma {:induction false} PlainIsOneKeyEach(strokes: seq<Stroke>)
    ensures OneKeyEach(Plain(strokes))
  {
    if strokes != [] {
      PlainIsOneKeyEach(strokes[1..]);
    }
  }

  lemma TypeHeard(t: Traffic, strokes: seq<Stroke>)
    requires OneKeyEach(t.queue)
    ensures OneKeyEach(PushAll(t.queue, strokes))
    ensures Presses(NOTHING_DOWN, t.sent + PushAll(t.queue, strokes))
         == Presses(NOTHING_DOWN, t.sent + t.queue) + Heard(t, Type(strokes))
  {
    var from := Hid.After(NOTHING_DOWN, t.sent);
    PressesConcat(NOTHING_DOWN, t.sent, t.queue);
    PressesConcat(NOTHING_DOWN, t.sent, PushAll(t.queue, strokes));
    PushAllExactly(from, t.queue, strokes);
    assert t.queue == [] ==> t.sent + t.queue == t.sent;
    Regroup(Presses(NOTHING_DOWN, t.sent), Presses(from, t.queue), Heard(t, Type(strokes)));
  }

  lemma ProbingHeard(t: Traffic, strokes: seq<Stroke>)
    requires OneKeyEach(t.queue)
    ensures OneKeyEach(t.queue + Plain(strokes))
    ensures Presses(NOTHING_DOWN, t.sent + (t.queue + Plain(strokes)))
         == Presses(NOTHING_DOWN, t.sent + t.queue) + Heard(t, Probing(strokes))
  {
    Regroup(t.sent, t.queue, Plain(strokes));
    PressesConcat(NOTHING_DOWN, t.sent + t.queue, Plain(strokes));
    PlainExactly(Final(t), strokes);
    PlainIsOneKeyEach(strokes);
  }

  lemma TickHeard(t: Traffic)
    ensures Presses(NOTHING_DOWN, Next(t, Tick).sent + Next(t, Tick).queue)
         == Presses(NOTHING_DOWN, t.sent + t.queue)
  {
    if t.queue == [] {
      assert t.sent + t.queue == t.sent && t.sent + [NOTHING_DOWN] + [] == t.sent + [NOTHING_DOWN];
      PressesConcat(NOTHING_DOWN, t.sent, [NOTHING_DOWN]);
      PressesOne(Final(t), NOTHING_DOWN);
    } else {
      assert t.sent + [t.queue[0]] + t.queue[1..] == t.sent + t.queue;
    }
  }

  /** Reports sent and reports queued are one stream, and a request adds to it
      exactly what is heard of it. */
  lemma NextHeard(t: Traffic, e: Event)
    requires OneKeyEach(t.queue)
    ensures OneKeyEach(Next(t, e).queue)
    ensures Presses(NOTHING_DOWN, Next(t, e).sent + Next(t, e).queue)
         == Presses(NOTHING_DOWN, t.sent + t.queue) + Heard(t, e)
  {
    match e
    case Type(strokes) => TypeHeard(t, strokes);
    case Probing(strokes) => ProbingHeard(t, strokes);
    case Tick => TickHeard(t);
  }

  /** However typing and ticking interleave, the host registers - in order - exactly
      the keystrokes asked for, less those first ones that met their own key. */
  lemma {:induction false} RunHeard(t: Traffic, events: seq<Event>)
    requires OneKeyEach(t.queue)
    ensures OneKeyEach(Run(t, events).queue)
    ensures Presses(NOTHING_DOWN, Run(t, events).sent + Run(t, events).queue)
         == Presses(NOTHING_DOWN, t.sent + t.queue) + AllHeard(t, events)
  {
    if events != [] {
      var front, last := events[..|events| - 1], events[|events| - 1];
      RunHeard(t, front);
      NextHeard(Run(t, front), last);
      Regroup(Presses(NOTHING_DOWN, t.sent + t.queue), AllHeard(t, front), Heard(Run(t, front), last));
    }
  }

  // -- text in pieces ----------------------------------------------------------

  lemma {:induction false} ItemsStrokesConcat(kb: Keyboard, keymap: Keymap, a: seq<Item>, b: seq<Item>)
    ensures ItemsStrokes(kb, keymap, a + b) == ItemsStrokes(kb, keymap, a) + ItemsStrokes(kb, keymap, b)
    decreases |b|
  {
    if b == [] {
      assert a + b == a;
    } else {
      var front, last := b[..|b| - 1], b[|b| - 1];
      assert a + b == (a + front) + [last];
      ItemsStrokesConcat(kb, keymap, a, front);
      ItemsStrokesSnoc(kb, keymap, a + front, last);
      Regroup(ItemsStrokes(kb, keymap, a), ItemsStrokes(kb, keymap, front), ItemStrokes(kb, keymap, last));
    }
  }

  lemma ItemsStrokesSnoc(kb: Keyboard, keymap: Keymap, items: seq<Item>, item: Item)
    ensures ItemsStrokes(kb, keymap, items + [item]) == ItemsStrokes(kb, keymap, items) + ItemStrokes(kb, keymap, item)
  {
    assert (items + [item])[..|items|] == items;
  }

  /** The queue, and what is held back, after a number of reads. */
  function TypedAll(kb: Keyboard, keymap: Keymap, queue: seq<Report>, pieces: seq<string>): (r: (seq<Report>, string))
    requires Bounded(NextItem)
  {
    if pieces == [] then (queue, [])
    else
      var (before, tail) := TypedAll(kb, keymap, queue, pieces[..|pieces| - 1]);
      var read := Decode(NextItem, tail + pieces[|pieces| - 1]);
      (PushAll(before, ItemsStrokes(kb, keymap, read.items)), read.tail)
  }

  /** A text typed in any number of reads queues exactly what it would have in one,
      wherever the cuts fall - in the middle of a key's own sequence included. */
  lemma TypingStreams(kb: Keyboard, keymap: Keymap, queue: seq<Report>, pieces: seq<string>)
    ensures Bounded(NextItem)
    ensures var whole := Decode(NextItem, Arrived(pieces));
            TypedAll(kb, keymap, queue, pieces)
            == (PushAll(queue, ItemsStrokes(kb, keymap, whole.items)), whole.tail)
  {
    EscapesStream(pieces);
    TypedAsFed(kb, keymap, queue, pieces);
  }

  lemma {:induction false} TypedAsFed(kb: Keyboard, keymap: Keymap, queue: seq<Report>, pieces: seq<string>)
    requires Bounded(NextItem)
    ensures var fed := Fed(NextItem, pieces);
            TypedAll(kb, keymap, queue, pieces) == (PushAll(queue, ItemsStrokes(kb, keymap, fed.items)), fed.tail)
    decreases |pieces|
  {
    if pieces != [] {
      var front := pieces[..|pieces| - 1];
      TypedAsFed(kb, keymap, queue, front);
      var before := Fed(NextItem, front);
      var read := Decode(NextItem, before.tail + pieces[|pieces| - 1]);
      ItemsStrokesConcat(kb, keymap, before.items, read.items);
      PushAllConcat(queue, ItemsStrokes(kb, keymap, before.items), ItemsStrokes(kb, keymap, read.items));
    }
  }
}
