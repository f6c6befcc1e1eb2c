/** Passkey entry: BlueZ's agent holds the calls that wait for an answer, the pairing
    collects the digits, and each call is owed one answer. */
module Passkeys {
  import opened Wrappers
  import opened Keycodes
  import opened Numerals

  // -- what is being entered, and for whom -------------------------------------

  /** One call of the agent that waits; a legacy one wants its digits as text. */
  datatype Call = Call(id: nat, legacy: bool)

  datatype Reply = Passkey(value: nat) | Pin(text: string) | Canceled

  datatype Answer = Answer(id: nat, reply: Reply)

  datatype Desk = Desk(
    digits: Option<string>,         // None outside passkey mode
    length: nat, timer: bool,
    reply: Option<Call>, error: Option<Call>,   // the agent's stored callbacks
    answers: seq<Answer>)

  const IDLE: Desk := Desk(None, 6, false, None, None, [])

  predicate AllDigitsEntered(d: Desk) {
    d.digits.Some? ==> AllDigits(d.digits.value)
  }

  function ReplyTo(call: Call, value: nat): Reply {
    if call.legacy then Pin(Padded(value, Decimal, false, 4)) else Passkey(value)
  }

  /** The agent answers the call it has stored, if it has one, and forgets it. */
  function Supplied(d: Desk, value: nat): Desk {
    if d.reply.None? then d
    else d.(reply := None, error := None,
            answers := d.answers + [Answer(d.reply.value.id, ReplyTo(d.reply.value, value))])
  }

  function Abandoned(d: Desk): Desk {
    if d.error.None? then d
    else d.(reply := None, error := None, answers := d.answers + [Answer(d.error.value.id, Canceled)])
  }

  /** Leave passkey mode; BlueZ is told unless it has its answer another way. */
  function Cleared(d: Desk, answer: bool): Desk {
    var after := d.(digits := None, timer := false);
    if d.digits.Some? && answer then Abandoned(after) else after
  }

  /** The new callbacks are stored before the old entry is cleared. */
  function Requested(d: Desk, call: Call): Desk {
    Cleared(d.(reply := Some(call), error := Some(call)), true)
      .(digits := Some(""), length := if call.legacy then 4 else 6, timer := true)
  }

  function Number(digits: string): nat
    requires AllDigits(digits)
  {
    if digits == [] then 0 else Value(digits, Decimal)
  }

  function Submitted(d: Desk): Desk
    requires d.digits.Some? && AllDigitsEntered(d)
  {
    Supplied(Cleared(d, false), Number(d.digits.value))
  }

  function DigitFor(keycode: Keycode): Option<nat> {
    if keycode in DIGIT_KEYS then Some(DIGIT_KEYS[keycode])
    else if keycode in KEYPAD_DIGITS then Some(KEYPAD_DIGITS[keycode])
    else None
  }

  lemma DigitsAreDigits(keycode: Keycode)
    ensures DigitFor(keycode).Some? ==> DigitFor(keycode).value < 10
  {}

  /** The usages of a digit on the number row and on the keypad (HID Usage Tables,
      Keyboard/Keypad page). */
  function RowUsage(digit: nat): Usage { if digit == 0 then 0x27 else 0x1D + digit }

  function KeypadUsage(digit: nat): Usage { if digit == 0 then 0x62 else 0x58 + digit }

  lemma RowTypes(keycode: Keycode)
    requires keycode in DIGIT_KEYS
    ensures UsageEntry(keycode) == RowUsage(DIGIT_KEYS[keycode])
  {}

  lemma KeypadTypes(keycode: Keycode)
    requires keycode in KEYPAD_DIGITS
    ensures UsageEntry(keycode) == KeypadUsage(KEYPAD_DIGITS[keycode])
  {}

  lemma OthersTypeNone(keycode: Keycode)
    requires DigitFor(keycode).None?
    ensures UsageEntry(keycode) < 0x1E || 0x27 < UsageEntry(keycode) < 0x59 || 0x62 < UsageEntry(keycode)
  {}

  predicate TypesDigit(usage: Usage, digit: nat) { usage == RowUsage(digit) || usage == KeypadUsage(digit) }

  /** The digit keys are those that type digits, on the row and on the keypad, and each is
      the digit it types. */
  lemma DigitKeysTypeDigits(keycode: Keycode, digit: nat)
    requires digit < 10
    ensures DigitFor(keycode) == Some(digit) <==> TypesDigit(UsageEntry(keycode), digit)
  {
    DigitsAreDigits(keycode);
    if keycode in DIGIT_KEYS {
      RowTypes(keycode);
    } else if keycode in KEYPAD_DIGITS {
      KeypadTypes(keycode);
    } else {
      OthersTypeNone(keycode);
    }
  }

  function Shortened(digits: string): string {
    if digits == [] then [] else digits[..|digits| - 1]
  }

  function WithDigit(d: Desk, digit: nat): Desk
    requires d.digits.Some? && AllDigitsEntered(d) && digit < 10
  {
    var longer := d.(digits := Some(d.digits.value + [DigitChar(digit, false)]));
    if |longer.digits.value| >= d.length then Submitted(longer) else longer
  }

  /** A key that reached the pairing while it is active. */
  function Keyed(d: Desk, keycode: Keycode, isPress: bool): Desk
    requires d.digits.Some? && AllDigitsEntered(d)
  {
    DigitsAreDigits(keycode);
    if !isPress then d
    else if DigitFor(keycode).Some? then WithDigit(d, DigitFor(keycode).value)
    else if keycode == KEY_BACKSPACE then d.(digits := Some(Shortened(d.digits.value)))
    else if keycode == KEY_ENTER || keycode == KEY_KPENTER then Submitted(d)
    else if keycode == KEY_ESC then Cleared(d, true)
    else d
  }

  /** The phone cancels: the agent answers, and passkey mode is left without another. */
  function Cancelled(d: Desk): Desk {
    var told := Abandoned(d).(reply := None, error := None);
    if told.digits.Some? then Cleared(told, false) else told
  }

  // -- the objects -------------------------------------------------------------

  /** BlueZ's end: what it has been told. */
  class Bus {
    var answers: seq<Answer>

    constructor ()
      ensures answers == []
    {
      answers := [];
    }

    method Tell(id: nat, reply: Reply)
      modifies this
      ensures answers == old(answers) + [Answer(id, reply)]
    {
      answers := answers + [Answer(id, reply)];
    }
  }

  class Agent {
    const bus: Bus
    var passkeyReply: Option<Call>
    var passkeyError: Option<Call>

    constructor (bus: Bus)
      ensures this.bus == bus && passkeyReply == None && passkeyError == None
    {
      this.bus := bus;
      passkeyReply, passkeyError := None, None;
    }

    method SupplyPasskey(value: nat)
      modifies this, bus
      ensures if old(passkeyReply).None?
              then passkeyReply == old(passkeyReply) && passkeyError == old(passkeyError)
                   && bus.answers == old(bus.answers)
              else passkeyReply == None && passkeyError == None
                   && bus.answers == old(bus.answers)
                        + [Answer(old(passkeyReply).value.id, ReplyTo(old(passkeyReply).value, value))]
    {
      if passkeyReply.None? {
        return;
      }
      var call := passkeyReply.value;
      passkeyReply, passkeyError := None, None;
      bus.Tell(call.id, ReplyTo(call, value));
    }

    method AbandonPasskey()
      modifies this, bus
      ensures if old(passkeyError).None?
              then passkeyReply == old(passkeyReply) && passkeyError == old(passkeyError)
                   && bus.answers == old(bus.answers)
              else passkeyReply == None && passkeyError == None
                   && bus.answers == old(bus.answers) + [Answer(old(passkeyError).value.id, Canceled)]
    {
      if passkeyError.None? {
        return;
      }
      var call := passkeyError.value;
      passkeyReply, passkeyError := None, None;
      bus.Tell(call.id, Canceled);
    }

    method RequestPasskey(call: Call, pairing: Pairing)
      requires pairing.agent == this
      modifies this, bus, pairing
      ensures pairing.View() == Requested(old(pairing.View()), call)
    {
      passkeyReply, passkeyError := Some(call), Some(call);
      pairing.OnRequest(call.legacy);
    }

    method Cancel(pairing: Pairing)
      requires pairing.agent == this
      modifies this, bus, pairing
      ensures pairing.View() == Cancelled(old(pairing.View()))
    {
      if passkeyError.Some? {
        bus.Tell(passkeyError.value.id, Canceled);
      }
      passkeyReply, passkeyError := None, None;
      pairing.OnCancelled();
    }
  }

  class Pairing {
    const agent: Agent
    var digits: Option<string>
    var timeout: bool
    var length: nat

    function View(): Desk
      reads this, agent, agent.bus
    {
      Desk(digits, length, timeout, agent.passkeyReply, agent.passkeyError, agent.bus.answers)
    }

    constructor (agent: Agent)
      ensures this.agent == agent && digits == None && length == 6 && !timeout
    {
      this.agent := agent;
      digits, timeout, length := None, false, 6;
    }

    method Clear(answerTheAgent: bool)
      modifies this, agent, agent.bus
      ensures View() == Cleared(old(View()), answerTheAgent)
    {
      var wasActive := digits.Some?;
      digits, timeout := None, false;
      if wasActive && answerTheAgent {
        agent.AbandonPasskey();
      }
    }

    method OnRequest(legacy: bool)
      modifies this, agent, agent.bus
      ensures View() == Cleared(old(View()), true)
                          .(digits := Some(""), length := if legacy then 4 else 6, timer := true)
    {
      Clear(true);
      digits := Some("");
      length := if legacy then 4 else 6;
      timeout := true;
    }

    method OnCancelled()
      modifies this, agent, agent.bus
      ensures View() == if old(digits).Some? then Cleared(old(View()), false) else old(View())
    {
      if digits.Some? {
        Clear(false);
      }
    }

    method Submit()
      requires digits.Some? && AllDigits(digits.value)
      modifies this, agent, agent.bus
      ensures View() == Submitted(old(View()))
    {
      var value := if digits.value == [] then 0 else Value(digits.value, Decimal);
      Clear(false);
      agent.SupplyPasskey(value);
    }

    method HandleKey(keycode: Keycode, isPress: bool)
      requires digits.Some? && AllDigits(digits.value)
      modifies this, agent, agent.bus
      ensures View() == Keyed(old(View()), keycode, isPress)
    {
      if !isPress {
        return;
      }
      var digit := DigitFor(keycode);
      DigitsAreDigits(keycode);
      if digit.Some? {
        digits := Some(digits.value + [DigitChar(digit.value, false)]);
        if |digits.value| >= length {
          Submit();
        }
      } else if keycode == KEY_BACKSPACE {
        digits := Some(Shortened(digits.value));
      } else if keycode == KEY_ENTER || keycode == KEY_KPENTER {
        Submit();
      } else if keycode == KEY_ESC {
        Clear(true);
      }
    }

    /** The timer goes off. */
    method Abandon()
      modifies this, agent, agent.bus
      ensures View() == Cleared(old(View()), true)
    {
      Clear(true);
    }
  }

  // -- runs --------------------------------------------------------------------

  datatype Event =
    | Request(legacy: bool)
    | PhoneCancels
    | Key(keycode: Keycode, isPress: bool)
    | TimerFires

  datatype World = World(desk: Desk, next: nat)

  const START: World := World(IDLE, 0)

  /** Every event finds the digits entered so far in order. */
  ghost predicate Ordered(w: World) {
    var d := w.desk;
    && d.reply == d.error
    && (d.reply.Some? ==> d.reply.value.id < w.next && (d.reply.value.legacy <==> d.length == 4))
    && (d.length == 4 || d.length == 6)
    && (d.digits.Some? <==> d.timer) && (d.reply.Some? ==> d.digits.Some?)
    && (d.digits.Some? ==> AllDigits(d.digits.value) && |d.digits.value| < d.length)
  }

  ghost function Step(w: World, e: Event): World
    requires Ordered(w)
  {
    match e
    case Request(legacy) => World(Requested(w.desk, Call(w.next, legacy)), w.next + 1)
    case PhoneCancels => w.(desk := Cancelled(w.desk))
    case Key(keycode, isPress) => if w.desk.digits.Some? then w.(desk := Keyed(w.desk, keycode, isPress)) else w
    case TimerFires => if w.desk.timer then w.(desk := Cleared(w.desk, true)) else w
  }

  /** While active fewer digits are held than will be sent. */
  lemma StepOrdered(w: World, e: Event)
    requires Ordered(w)
    ensures Ordered(Step(w, e))
  {
    if e.Key? {
      DigitsAreDigits(e.keycode);
    }
  }

  ghost function Run(w: World, events: seq<Event>): (r: World)
    requires Ordered(w)
    ensures Ordered(r)
  {
    if events == [] then w
    else
      StepOrdered(Run(w, events[..|events| - 1]), events[|events| - 1]);
      Step(Run(w, events[..|events| - 1]), events[|events| - 1])
  }

  // -- each call is answered once ----------------------------------------------

  predicate Has(answers: seq<Answer>, id: nat) {
    exists i :: 0 <= i < |answers| && answers[i].id == id
  }

  predicate OneAnswerEach(answers: seq<Answer>) {
    forall i, j :: 0 <= i < j < |answers| ==> answers[i].id != answers[j].id
  }

  /** The calls whose callbacks were overwritten while they waited. */
  ghost function Overwritten(events: seq<Event>): set<nat> {
    if events == [] then {}
    else
      var reply := Run(START, events[..|events| - 1]).desk.reply;
      Overwritten(events[..|events| - 1])
      + if events[|events| - 1].Request? && reply.Some? then {reply.value.id} else {}
  }

  /** Every call made has been answered, or waits, or was overwritten - one of the
      three, and answered once. */
  ghost predicate Accounted(w: World, lost: set<nat>) {
    var answers := w.desk.answers;
    && OneAnswerEach(answers)
    && (forall i :: 0 <= i < |answers| ==> answers[i].id < w.next)
    && (forall id :: id in lost ==> id < w.next && !Has(answers, id))
    && (w.desk.reply.Some? ==> !Has(answers, w.desk.reply.value.id) && w.desk.reply.value.id !in lost)
    && (forall id: nat :: id < w.next ==> Has(answers, id) || id in lost || Waits(w.desk, id))
  }

  predicate Waits(d: Desk, id: nat) { d.reply.Some? && d.reply.value.id == id }

  lemma HasNext(answers: seq<Answer>, answer: Answer, id: nat)
    ensures Has(answers + [answer], id) <==> Has(answers, id) || answer.id == id
  {
    var longer := answers + [answer];
    if Has(answers, id) {
      var i :| 0 <= i < |answers| && answers[i].id == id;
      assert longer[i].id == id;
    }
    assert longer[|answers|] == answer;
  }

  /** The waiting call is answered. */
  lemma AnsweredIsAccounted(w: World, lost: set<nat>, after: World, answer: Answer)
    requires Accounted(w, lost) && Waits(w.desk, answer.id) && after.next == w.next
    requires answer.id < w.next
    requires after.desk.reply == None && after.desk.answers == w.desk.answers + [answer]
    ensures Accounted(after, lost)
  {
    forall id: nat ensures Has(after.desk.answers, id) <==> Has(w.desk.answers, id) || answer.id == id {
      HasNext(w.desk.answers, answer, id);
    }
    assert OneAnswerEach(after.desk.answers) by {
      forall i | 0 <= i < |w.desk.answers| ensures w.desk.answers[i].id != answer.id {}
    }
  }

  /** Nothing about calls has changed. */
  lemma SameIsAccounted(w: World, lost: set<nat>, after: World)
    requires Accounted(w, lost) && after.next == w.next
    requires after.desk.reply == w.desk.reply && after.desk.answers == w.desk.answers
    ensures Accounted(after, lost)
  {}

  /** A call arrives, and whichever waited does so no longer. */
  lemma ArrivalIsAccounted(w: World, lost: set<nat>, after: World, call: Call)
    requires Ordered(w) && Accounted(w, lost) && call.id == w.next && after.next == w.next + 1
    requires after.desk.reply == Some(call) && after.desk.answers == w.desk.answers
    ensures Accounted(after, lost + if w.desk.reply.Some? then {w.desk.reply.value.id} else {})
  {
    assert !Has(w.desk.answers, call.id);
  }

  lemma RequestAccounted(w: World, lost: set<nat>, legacy: bool)
    requires Ordered(w) && Accounted(w, lost)
    ensures Accounted(Step(w, Request(legacy)),
              lost + if w.desk.reply.Some? then {w.desk.reply.value.id} else {})
  {
    var call := Call(w.next, legacy);
    var lost' := lost + if w.desk.reply.Some? then {w.desk.reply.value.id} else {};
    var stored := World(w.desk.(reply := Some(call), error := Some(call)), w.next + 1);
    ArrivalIsAccounted(w, lost, stored, call);
    if w.desk.digits.Some? {
      AnsweredIsAccounted(stored, lost', Step(w, Request(legacy)), Answer(call.id, Canceled));
    } else {
      SameIsAccounted(stored, lost', Step(w, Request(legacy)));
    }
  }

  /** What an event other than a call does to the calls: nothing, or it answers the
      one that waits. */
  lemma StepAnswers(w: World, e: Event)
    requires Ordered(w) && !e.Request?
    ensures var after := Step(w, e);
            && after.next == w.next
            && ((after.desk.reply == w.desk.reply && after.desk.answers == w.desk.answers)
                || (w.desk.reply.Some? && after.desk.reply == None && exists reply ::
                      after.desk.answers == w.desk.answers + [Answer(w.desk.reply.value.id, reply)]))
  {
    if e.Key? {
      DigitsAreDigits(e.keycode);
    }
    var after := Step(w, e);
    if w.desk.reply.Some? && after.desk.reply == None {
      assert after.desk.answers == w.desk.answers
               + [Answer(w.desk.reply.value.id, after.desk.answers[|w.desk.answers|].reply)];
    }
  }

  lemma {:induction false} RunAccounted(events: seq<Event>)
    ensures Accounted(Run(START, events), Overwritten(events))
    decreases |events|
  {
    if events != [] {
      var front, e := events[..|events| - 1], events[|events| - 1];
      RunAccounted(front);
      var w := Run(START, front);
      if e.Request? {
        RequestAccounted(w, Overwritten(front), e.legacy);
      } else {
        StepAnswers(w, e);
        var after := Step(w, e);
        if after.desk.reply == w.desk.reply && after.desk.answers == w.desk.answers {
          SameIsAccounted(w, Overwritten(front), after);
        } else {
          AnsweredIsAccounted(w, Overwritten(front), after, after.desk.answers[|w.desk.answers|]);
        }
      }
    }
  }

  /** No call is ever answered twice, and no call not made. */
  lemma AnsweredAtMostOnce(events: seq<Event>)
    ensures var w := Run(START, events);
            OneAnswerEach(w.desk.answers) && forall i :: 0 <= i < |w.desk.answers| ==> w.desk.answers[i].id < w.next
  {
    RunAccounted(events);
  }

  /** No call arrives while another waits. */
  ghost predicate OneAtATime(events: seq<Event>) {
    forall i :: 0 <= i < |events| && events[i].Request? ==> Run(START, events[..i]).desk.reply == None
  }

  lemma OneAtATimeNext(events: seq<Event>)
    requires events != []
    ensures var front, last := events[..|events| - 1], events[|events| - 1];
            OneAtATime(events) <==> OneAtATime(front) && (last.Request? ==> Run(START, front).desk.reply == None)
  {
    var n := |events| - 1;
    assert forall i :: 0 <= i < n ==> events[..n][..i] == events[..i] && events[..n][i] == events[i];
  }

  lemma {:induction false} NoneOverwritten(events: seq<Event>)
    ensures Overwritten(events) == {} <==> OneAtATime(events)
    decreases |events|
  {
    if events != [] {
      var front := events[..|events| - 1];
      NoneOverwritten(front);
      OneAtATimeNext(events);
      var reply := Run(START, front).desk.reply;
      if events[|events| - 1].Request? && reply.Some? {
        assert reply.value.id in Overwritten(events);
      }
    }
  }

  /** Out of passkey mode, every call made has had its answer - exactly if none came
      while another was waiting. */
  lemma AllAnsweredOnLeaving(events: seq<Event>)
    requires Run(START, events).desk.digits == None
    ensures var w := Run(START, events);
            (forall id: nat :: id < w.next ==> Has(w.desk.answers, id)) <==> OneAtATime(events)
  {
    RunAccounted(events);
    NoneOverwritten(events);
  }

  /** The corner that excludes: a phone that asks again has its second call cancelled
      at once and its first never answered. */
  lemma SecondCallIsCancelled(legacy: bool, again: bool)
    ensures var w := Run(START, [Request(legacy), Request(again)]);
            && w.desk.digits.Some? && w.desk.reply == None
            && w.desk.answers == [Answer(1, Canceled)]
  {
    var events := [Request(legacy), Request(again)];
    assert events[..1] == [Request(legacy)] && events[..1][..0] == [];
    assert Run(START, events[..1]) == Step(Run(START, []), Request(legacy));
  }

  // -- what is answered --------------------------------------------------------

  function Power(n: nat): nat { if n == 0 then 1 else 10 * Power(n - 1) }

  lemma {:induction false} ValueBound(digits: string)
    requires AllDigits(digits)
    ensures Value(digits, Decimal) < Power(|digits|)
  {
    if digits != [] {
      ValueBound(digits[..|digits| - 1]);
    }
  }

  lemma {:induction false} PowerGrows(m: nat, n: nat)
    requires m <= n
    ensures Power(m) <= Power(n)
    decreases n
  {
    if m < n {
      PowerGrows(m, n - 1);
    }
  }

  lemma {:induction false} DigitsFit(n: nat, width: nat)
    requires 0 < width && n < Power(width)
    ensures |Digits(n, Decimal, false)| <= width
    decreases width
  {
    if n >= 10 {
      assert width > 1;
      DigitsFit(n / 10, width - 1);
    }
  }

  lemma {:induction false} ZerosCount(width: nat, have: nat)
    ensures |Zeros(width, have)| == if width <= have then 0 else width - have
    decreases width
  {
    if width > have {
      ZerosCount(width - 1, have);
    }
  }

  /** A passkey below a million; a PIN of exactly four digits. */
  predicate Fits(reply: Reply) {
    match reply
    case Passkey(value) => value < 1000000
    case Pin(text) => |text| == 4 && AllDigits(text)
    case Canceled => true
  }

  ghost predicate AllFit(answers: seq<Answer>) {
    forall i :: 0 <= i < |answers| ==> Fits(answers[i].reply)
  }

  lemma NumberFits(digits: string, call: Call)
    requires AllDigits(digits) && |digits| <= if call.legacy then 4 else 6
    ensures Fits(ReplyTo(call, Number(digits)))
  {
    var n := Number(digits);
    ValueBound(digits);
    PowerGrows(|digits|, if call.legacy then 4 else 6);
    assert Power(3) == 1000 && Power(4) == 10000 && Power(6) == 1000000;
    if call.legacy {
      DigitsFit(n, 4);
      ZerosCount(4, |Digits(n, Decimal, false)|);
    }
  }

  lemma SubmittedFits(d: Desk)
    requires d.digits.Some? && AllDigitsEntered(d) && AllFit(d.answers)
    requires |d.digits.value| <= d.length && d.length <= 6
    requires d.reply.Some? ==> (d.reply.value.legacy <==> d.length == 4)
    requires d.length == 4 || d.length == 6
    ensures AllFit(Submitted(d).answers)
  {
    if d.reply.Some? {
      NumberFits(d.digits.value, d.reply.value);
    }
  }

  lemma StepFits(w: World, e: Event)
    requires Ordered(w) && AllFit(w.desk.answers)
    ensures AllFit(Step(w, e).desk.answers)
  {
    if e.Key? && w.desk.digits.Some? && e.isPress {
      DigitsAreDigits(e.keycode);
      var digit := DigitFor(e.keycode);
      if digit.Some? {
        var longer := w.desk.(digits := Some(w.desk.digits.value + [DigitChar(digit.value, false)]));
        if |longer.digits.value| >= w.desk.length {
          SubmittedFits(longer);
        }
      } else if e.keycode == KEY_ENTER || e.keycode == KEY_KPENTER {
        SubmittedFits(w.desk);
      }
    }
  }

  /** However the digits were typed, taken back and sent, what BlueZ gets fits the
      field it asked for. */
  lemma {:induction false} AnswersFit(events: seq<Event>)
    ensures AllFit(Run(START, events).desk.answers)
    decreases |events|
  {
    if events != [] {
      AnswersFit(events[..|events| - 1]);
      StepFits(Run(START, events[..|events| - 1]), events[|events| - 1]);
    }
  }

  /** The characters these digit keys type. */
  function Typed(keys: seq<Keycode>): (s: string)
    requires forall i :: 0 <= i < |keys| ==> DigitFor(keys[i]).Some?
    ensures AllDigits(s) && |s| == |keys|
  {
    if keys == [] then []
    else
      DigitsAreDigits(keys[|keys| - 1]);
      Typed(keys[..|keys| - 1]) + [DigitChar(DigitFor(keys[|keys| - 1]).value, false)]
  }

  function PressAll(keys: seq<Keycode>): (events: seq<Event>)
    ensures |events| == |keys|
  {
    if keys == [] then [] else PressAll(keys[..|keys| - 1]) + [Key(keys[|keys| - 1], true)]
  }

  lemma {:induction false} DigitsAreHeld(w: World, keys: seq<Keycode>)
    requires Ordered(w) && w.desk.digits == Some("") && |keys| < w.desk.length
    requires forall i :: 0 <= i < |keys| ==> DigitFor(keys[i]).Some?
    ensures Run(w, PressAll(keys)) == w.(desk := w.desk.(digits := Some(Typed(keys))))
    decreases |keys|
  {
    if keys != [] {
      var front := keys[..|keys| - 1];
      DigitsAreHeld(w, front);
      RunSnoc(w, PressAll(front), Key(keys[|keys| - 1], true));
      DigitIsHeld(Run(w, PressAll(front)), keys[|keys| - 1]);
    }
  }

  lemma RunSnoc(w: World, events: seq<Event>, e: Event)
    requires Ordered(w)
    ensures Run(w, events + [e]) == Step(Run(w, events), e)
  {
    assert (events + [e])[..|events|] == events;
  }

  lemma DigitIsHeld(w: World, keycode: Keycode)
    requires Ordered(w) && w.desk.digits.Some? && |w.desk.digits.value| + 1 < w.desk.length && DigitFor(keycode).Some?
    ensures DigitFor(keycode).value < 10
    ensures Step(w, Key(keycode, true)) ==
      w.(desk := w.desk.(digits := Some(w.desk.digits.value + [DigitChar(DigitFor(keycode).value, false)])))
  {
    DigitsAreDigits(keycode);
  }

  /** These digits stand for this number, none for 0, as text with zeros in front. */
  ghost predicate Says(reply: Reply, digits: string, legacy: bool)
    requires AllDigits(digits)
  {
    var value := if digits == [] then 0 else Value(digits, Decimal);
    if legacy then reply.Pin? && |reply.text| == 4 && AllDigits(reply.text) && Value(reply.text, Decimal) == value
    else reply == Passkey(value)
  }

  /** The call waiting is answered with this, and passkey mode left. */
  ghost predicate Answered(w: World, after: World, reply: Reply)
    requires w.desk.reply.Some?
  {
    after.desk.digits == None && after.desk.reply == None && !after.desk.timer && after.next == w.next
    && after.desk.answers == w.desk.answers + [Answer(w.desk.reply.value.id, reply)]
  }

  lemma ReplySays(call: Call, digits: string)
    requires AllDigits(digits) && |digits| <= if call.legacy then 4 else 6
    ensures Says(ReplyTo(call, Number(digits)), digits, call.legacy)
  {
    NumberFits(digits, call);
    if call.legacy {
      PaddedValue(Number(digits), Decimal, false, 4);
    }
  }

  /** Either Enter sends the digits there are. */
  lemma EnterSends(w: World, keycode: Keycode)
    requires Ordered(w) && w.desk.digits.Some? && w.desk.reply.Some?
    requires keycode == KEY_ENTER || keycode == KEY_KPENTER
    ensures exists reply :: Answered(w, Step(w, Key(keycode, true)), reply)
              && Says(reply, w.desk.digits.value, w.desk.reply.value.legacy)
  {
    var digits, call := w.desk.digits.value, w.desk.reply.value;
    ReplySays(call, digits);
    assert Answered(w, Step(w, Key(keycode, true)), ReplyTo(call, Number(digits)));
  }

  /** Escape, the timer and the phone cancel. */
  lemma EntryCancels(w: World)
    requires Ordered(w) && w.desk.digits.Some? && w.desk.reply.Some?
    ensures Answered(w, Step(w, Key(KEY_ESC, true)), Canceled)
    ensures Answered(w, Step(w, TimerFires), Canceled) && Answered(w, Step(w, PhoneCancels), Canceled)
  {}

  /** A key let go of, and any other, does nothing; nor does any outside an entry, or the
      timer. */
  lemma OthersAreNothing(w: World, keycode: Keycode, isPress: bool)
    requires Ordered(w)
    requires w.desk.digits.None? || !isPress
             || (DigitFor(keycode).None? && keycode !in [KEY_BACKSPACE, KEY_ENTER, KEY_KPENTER, KEY_ESC])
    ensures Step(w, Key(keycode, isPress)) == w
    ensures w.desk.digits.None? ==> Step(w, TimerFires) == w && Step(w, PhoneCancels) == w
  {}

  /** Outside an entry a call begins one, of the digits it wants, and waits. */
  lemma RequestBegins(w: World, legacy: bool)
    requires Ordered(w) && w.desk.digits.None?
    ensures var after := Step(w, Request(legacy)).desk;
            && after.digits == Some("") && after.timer && after.length == (if legacy then 4 else 6)
            && after.reply == Some(Call(w.next, legacy)) && after.answers == w.desk.answers
  {}

  /** Backspace takes back the digit typed last. */
  lemma SlipIsTakenBack(w: World, keys: seq<Keycode>, slip: Keycode)
    requires Ordered(w) && w.desk.digits == Some("") && |keys| + 1 < w.desk.length
    requires DigitFor(slip).Some? && forall i :: 0 <= i < |keys| ==> DigitFor(keys[i]).Some?
    ensures Run(w, PressAll(keys) + [Key(slip, true)] + [Key(KEY_BACKSPACE, true)]) == Run(w, PressAll(keys))
  {
    var typed := Run(w, PressAll(keys));
    DigitsAreHeld(w, keys);
    RunSnoc(w, PressAll(keys), Key(slip, true));
    RunSnoc(w, PressAll(keys) + [Key(slip, true)], Key(KEY_BACKSPACE, true));
    OneSlip(typed, slip);
  }

  lemma OneSlip(w: World, slip: Keycode)
    requires Ordered(w) && w.desk.digits.Some? && |w.desk.digits.value| + 1 < w.desk.length && DigitFor(slip).Some?
    ensures Ordered(Step(w, Key(slip, true)))
    ensures Step(Step(w, Key(slip, true)), Key(KEY_BACKSPACE, true)) == w
  {
    StepOrdered(w, Key(slip, true));
    DigitIsHeld(w, slip);
    LastDigitGoes(w, DigitChar(DigitFor(slip).value, false));
  }

  /** And on no digits does nothing. */
  lemma NothingToTakeBack(w: World)
    requires Ordered(w) && w.desk.digits == Some("")
    ensures Step(w, Key(KEY_BACKSPACE, true)) == w
  {
    assert DigitFor(KEY_BACKSPACE).None?;
  }

  lemma LastDigitGoes(w: World, c: char)
    requires w.desk.digits.Some?
    requires Ordered(w.(desk := w.desk.(digits := Some(w.desk.digits.value + [c]))))
    ensures Step(w.(desk := w.desk.(digits := Some(w.desk.digits.value + [c]))), Key(KEY_BACKSPACE, true)) == w
  {
    var digits := w.desk.digits.value;
    assert (digits + [c])[..|digits|] == digits;
  }

  /** Digits of one length are told apart by their value. */
  lemma {:induction false} SameDigits(a: string, b: string)
    requires AllDigits(a) && AllDigits(b) && |a| == |b| && Value(a, Decimal) == Value(b, Decimal)
    ensures a == b
    decreases |a|
  {
    if a != [] {
      var n := |a| - 1;
      assert IsDigit(a[n]) && IsDigit(b[n]);
      assert DigitValue(a[n]) == DigitValue(b[n]) && Value(a[..n], Decimal) == Value(b[..n], Decimal);
      SameDigits(a[..n], b[..n]);
      assert a == a[..n] + [a[n]] && b == b[..n] + [b[n]];
    }
  }

  /** Four digits come out of the padding as they went in, zeros in front included. */
  lemma PinIsTyped(digits: string)
    requires AllDigits(digits) && |digits| == 4
    ensures Padded(Value(digits, Decimal), Decimal, false, 4) == digits
  {
    var n := Value(digits, Decimal);
    ValueBound(digits);
    assert Power(3) == 1000 && Power(4) == 10000;
    DigitsFit(n, 4);
    ZerosCount(4, |Digits(n, Decimal, false)|);
    PaddedValue(n, Decimal, false, 4);
    SameDigits(Padded(n, Decimal, false, 4), digits);
  }

  /** The last digit sends them: a passkey as the number typed, a PIN as the very digits. */
  lemma DigitsAreSent(w: World, keys: seq<Keycode>)
    requires Ordered(w) && w.desk.digits == Some("") && w.desk.reply.Some?
    requires |keys| == w.desk.length && forall i :: 0 <= i < |keys| ==> DigitFor(keys[i]).Some?
    ensures var after := Run(w, PressAll(keys)).desk;
            && after.digits == None && after.reply == None
            && after.answers == w.desk.answers
                 + [Answer(w.desk.reply.value.id,
                           if w.desk.reply.value.legacy
                               then Pin(Typed(keys)) else Passkey(Value(Typed(keys), Decimal)))]
  {
    if w.desk.reply.value.legacy {
      PinIsTyped(Typed(keys));
    }
    var front := keys[..|keys| - 1];
    DigitsAreHeld(w, front);
    assert PressAll(keys)[..|keys| - 1] == PressAll(front);
  }
}
