/** What a terminal sends for a key that has no character, and how it is told from text. */
module Escapes {
  import opened Wrappers
  import opened Keycodes
  import opened Numerals
  import opened Probe
  import opened Seqs
  import opened Streaming

  const ESC: char := '\U{1B}'

  /** A character to look up, fixed keystrokes, or a complete
      sequence that stands for no key. */
  datatype Item = Char(c: char) | Steps(steps: seq<Step>) | Unknown(raw: string)

  /** One sequence read: the key it names, if any, and how long it is.  A length of
      0 means it is still arriving. */
  datatype Matched = Matched(key: Option<Step>, length: nat)

  const STILL_ARRIVING: Matched := Matched(None, 0)

  const FINAL_LETTERS: map<char, Keycode> :=
    map['A' := 103, 'B' := 108, 'C' := 106, 'D' := 105, 'H' := 102, 'F' := 107,
        'P' := 59, 'Q' := 60, 'R' := 61, 'S' := 62, 'Z' := 15]

  const FINAL_NUMBERS: map<nat, Keycode> :=
    map[1 := 102, 2 := 110, 3 := 111, 4 := 107, 5 := 104, 6 := 109, 7 := 102, 8 := 107,
        11 := 59, 12 := 60, 13 := 61, 14 := 62, 15 := 63,
        17 := 64, 18 := 65, 19 := 66, 20 := 67, 21 := 68,
        23 := 87, 24 := 88,
        25 := 183, 26 := 184, 28 := 185, 29 := 186,
        31 := 187, 32 := 188, 33 := 189, 34 := 190]

  const LINUX_FUNCTION: map<char, Keycode> :=
    map['A' := 59, 'B' := 60, 'C' := 61, 'D' := 62, 'E' := 63]

  /** Backtab is Shift+Tab: that sequence carries its modifier in its identity. */
  function ImplicitModifiers(final: char): Modifiers {
    if final == 'Z' then MOD_LEFTSHIFT else 0
  }

  const MODIFIER_BITS: seq<Modifiers> := [MOD_LEFTSHIFT, MOD_LEFTALT, MOD_LEFTCTRL, MOD_LEFTMETA]

  function Pow2(n: nat): (p: nat)
    ensures p > 0
  {
    if n == 0 then 1 else 2 * Pow2(n - 1)
  }

  /** The first `n` bits of an xterm modifier parameter, which is 1 plus a mask. */
  function BitsOf(mask: nat, n: nat): Modifiers
    requires n <= |MODIFIER_BITS|
  {
    if n == 0 then 0
    else BitsOf(mask, n - 1) | (if mask / Pow2(n - 1) % 2 == 1 then MODIFIER_BITS[n - 1] else 0)
  }

  function ParameterModifiers(parameter: nat): Modifiers {
    BitsOf(if parameter == 0 then 0 else parameter - 1, |MODIFIER_BITS|)
  }

  method ModifiersFrom(parameter: nat) returns (bits: Modifiers)
    ensures bits == ParameterModifiers(parameter)
  {
    var mask := if parameter == 0 then 0 else parameter - 1;
    bits := 0;
    for index := 0 to |MODIFIER_BITS|
      invariant bits == BitsOf(mask, index)
    {
      if mask / Pow2(index) % 2 == 1 {
        bits := bits | MODIFIER_BITS[index];
      } else {
        OrNothing(bits);
      }
    }
  }

  lemma OrNothing(bits: Modifiers)
    ensures bits | 0 == bits
  {}

  // -- one sequence ------------------------------------------------------------

  predicate IsParameterChar(c: char) { IsDigit(c) || c == ';' }

  /** Where the parameters starting at `i` stop. */
  function ParametersEnd(text: string, i: nat): (r: nat)
    requires i <= |text|
    ensures i <= r <= |text|
    ensures forall j :: i <= j < r ==> IsParameterChar(text[j])
    ensures r < |text| ==> !IsParameterChar(text[r])
    decreases |text| - i
  {
    if i < |text| && IsParameterChar(text[i]) then ParametersEnd(text, i + 1) else i
  }

  /** The numbers between semicolons; an empty one counts as 0. */
  function Parameters(text: string): seq<nat>
    requires forall i :: 0 <= i < |text| ==> IsParameterChar(text[i])
  {
    if text == [] then [] else Parts(text, 0)
  }

  /** The parts of `text` once `value` has been read of the first. */
  function Parts(text: string, value: nat): (r: seq<nat>)
    requires forall i :: 0 <= i < |text| ==> IsParameterChar(text[i])
    ensures r != []
  {
    if text == [] then [value]
    else
      assert IsParameterChar(text[0]);
      if text[0] == ';' then [value] + Parts(text[1..], 0)
      else Parts(text[1..], Times(value, Decimal) + DigitValue(text[0]))
  }

  function CsiKey(parameters: seq<nat>, final: char): Option<Step> {
    var number := if parameters == [] then 0 else parameters[0];
    var mods := ParameterModifiers(if |parameters| > 1 then parameters[1] else 1) | ImplicitModifiers(final);
    if final == '~' then
      if number in FINAL_NUMBERS then Some(Step(FINAL_NUMBERS[number], mods)) else None
    else
      if final in FINAL_LETTERS then Some(Step(FINAL_LETTERS[final], mods)) else None
  }

  /** Read one sequence from the start of `rest`, which starts with an escape. */
  function Match(rest: string): (r: Matched)
    ensures r.length <= |rest|
  {
    if |rest| < 2 then STILL_ARRIVING
    else if rest[1] == 'O' then
      if |rest| < 3 then STILL_ARRIVING
      else if rest[2] in FINAL_LETTERS
      then Matched(Some(Step(FINAL_LETTERS[rest[2]], ImplicitModifiers(rest[2]))), 3)
      else Matched(None, 3)
    else if rest[1] != '[' then Matched(None, 1)
    else if |rest| < 3 then STILL_ARRIVING
    else if rest[2] == '[' then
      if |rest| < 4 then STILL_ARRIVING
      else if rest[3] in LINUX_FUNCTION then Matched(Some(Step(LINUX_FUNCTION[rest[3]], 0)), 4)
      else Matched(None, 4)
    else
      var end := ParametersEnd(rest, 2);
      if end == |rest| then STILL_ARRIVING
      else Matched(CsiKey(Parameters(rest[2..end]), rest[end]), end + 1)
  }

  method MatchAt(text: string, start: nat) returns (matched: Matched)
    requires start < |text|
    ensures matched == Match(text[start..])
  {
    var rest := text[start..];
    if |rest| < 2 { return STILL_ARRIVING; }
    if rest[1] == 'O' {
      if |rest| < 3 { return STILL_ARRIVING; }
      if rest[2] !in FINAL_LETTERS { return Matched(None, 3); }
      return Matched(Some(Step(FINAL_LETTERS[rest[2]], ImplicitModifiers(rest[2]))), 3);
    }
    if rest[1] != '[' { return Matched(None, 1); }
    if |rest| < 3 { return STILL_ARRIVING; }
    if rest[2] == '[' {
      if |rest| < 4 { return STILL_ARRIVING; }
      if rest[3] !in LINUX_FUNCTION { return Matched(None, 4); }
      return Matched(Some(Step(LINUX_FUNCTION[rest[3]], 0)), 4);
    }
    var index := 2;
    while index < |rest| && IsParameterChar(rest[index])
      invariant 2 <= index <= |rest|
      invariant ParametersEnd(rest, index) == ParametersEnd(rest, 2)
    {
      index := index + 1;
    }
    if index >= |rest| { return STILL_ARRIVING; }
    var key := ReadKey(Parameters(rest[2..index]), rest[index]);
    return Matched(key, index + 1);
  }

  /** The key that a complete sequence stands for. */
  method ReadKey(parameters: seq<nat>, final: char) returns (key: Option<Step>)
    ensures key == CsiKey(parameters, final)
  {
    var number := if parameters == [] then 0 else parameters[0];
    if (final == '~' && number !in FINAL_NUMBERS) || (final != '~' && final !in FINAL_LETTERS) {
      return None;
    }
    var bits := ModifiersFrom(if |parameters| > 1 then parameters[1] else 1);
    var mods := bits | ImplicitModifiers(final);
    return Some(Step(if final == '~' then FINAL_NUMBERS[number] else FINAL_LETTERS[final], mods));
  }

  // -- a whole text ------------------------------------------------------------

  /** The item at the start of a text: a character to look up, or a sequence.  A bare
      Escape is the Escape key, and what follows it stands on its own. */
  function NextItem(text: string): Token<Item> {
    if text == [] then Incomplete
    else if text[0] != ESC then Complete(1, Char(text[0]))
    else
      var m := Match(text);
      if m.length == 0 then Incomplete
      else if m.length == 1 then Complete(1, Char(ESC))
      else if m.key.None? then Complete(m.length, Unknown(text[..m.length]))
      else Complete(m.length, Steps([m.key.value]))
  }

  method DecodeText(text: string) returns (items: seq<Item>, tail: string)
    ensures Bounded(NextItem)
    ensures items == Decode(NextItem, text).items && tail == Decode(NextItem, text).tail
  {
    NextItemIsSteady();
    forall t ensures Same(NextItem, t) {}
    items, tail := DecodeLoop(NextItem, text);
  }

  ghost predicate Same(next: Reader<Item>, text: string) {
    next(text) == NextItem(text)
  }

  lemma EmptyText(next: Reader<Item>)
    requires forall t :: Same(next, t)
    ensures next([]) == Incomplete
  {
    assert Same(next, []);
  }

  /** The loop proper: `next` is NextItem by another name, which spares its proof
      the cases of NextItem. */
  method DecodeLoop(ghost next: Reader<Item>, text: string) returns (items: seq<Item>, tail: string)
    requires Bounded(next) && forall t :: Same(next, t)
    ensures items == Decode(next, text).items && tail == Decode(next, text).tail
  {
    items := [];
    var index := 0;
    while index < |text|
      invariant 0 <= index <= |text|
      invariant Decode(next, text).items == items + Decode(next, text[index..]).items
      invariant Decode(next, text).tail == Decode(next, text[index..]).tail
    {
      ghost var rest := text[index..];
      var item, n := TakeItem(next, text, index);
      if n == 0 {
        return items, text[index..];
      }
      DecodeStep(next, rest);
      assert rest[n..] == text[index + n..];
      Regroup(items, [item], Decode(next, text[index + n..]).items);
      items := items + [item];
      index := index + n;
    }
    EmptyText(next);
    tail := [];
  }

  /** One turn of the decoder; a length of 0 leaves the tail for the next read. */
  method TakeItem(ghost next: Reader<Item>, text: string, index: nat) returns (item: Item, length: nat)
    requires index < |text| && forall t :: Same(next, t)
    ensures next(text[index..]) == if length == 0 then Incomplete else Complete(length, item)
  {
    assert Same(next, text[index..]);
    var c := text[index];
    if c != ESC {
      return Char(c), 1;
    }
    var matched := MatchAt(text, index);
    if matched.length == 0 {
      return Char(ESC), 0;
    }
    if matched.length == 1 {
      return Char(ESC), 1;
    }
    assert text[index..][..matched.length] == text[index..index + matched.length];
    if matched.key.None? {
      return Unknown(text[index..index + matched.length]), matched.length;
    }
    return Steps([matched.key.value]), matched.length;
  }

  // -- a stream may be cut anywhere --------------------------------------------

  lemma {:induction false} ParametersEndStable(a: string, b: string, i: nat)
    requires i <= |a| && ParametersEnd(a, i) < |a|
    ensures ParametersEnd(a + b, i) == ParametersEnd(a, i)
    decreases |a| - i
  {
    if i < |a| && IsParameterChar(a[i]) {
      ParametersEndStable(a, b, i + 1);
    }
  }

  /** A sequence once complete is not changed by what follows it. */
  lemma MatchStable(a: string, b: string)
    requires Match(a).length > 0
    ensures Match(a + b) == Match(a)
  {
    if |a| >= 3 && a[1] == '[' && a[2] != '[' {
      var end := ParametersEnd(a, 2);
      ParametersEndStable(a, b, 2);
      assert (a + b)[2..end] == a[2..end];
    }
  }

  lemma NextItemStable(a: string, b: string)
    requires NextItem(a).Complete?
    ensures NextItem(a + b) == NextItem(a)
  {
    if a[0] == ESC {
      MatchStable(a, b);
      assert (a + b)[..Match(a).length] == a[..Match(a).length];
    }
  }

  lemma NextItemIsSteady()
    ensures Bounded(NextItem) && Stable(NextItem)
  {
    forall a, b ensures StableAt(NextItem, a, b) {
      if NextItem(a).Complete? {
        NextItemStable(a, b);
      }
    }
  }

  /** However what a terminal sends is cut, and into however many reads, the items and
      the final tail are the same as for the whole of it. */
  lemma EscapesStream(pieces: seq<string>)
    ensures Bounded(NextItem)
    ensures Fed(NextItem, pieces) == Decode(NextItem, Arrived(pieces))
  {
    NextItemIsSteady();
    FedIsDecoded(NextItem, pieces);
  }

  // -- what is held back -------------------------------------------------------

  /** The sequences that could still become a key: an escape, and as much of an SS3
      or CSI sequence as stops short of its final character. */
  ghost predicate Unfinished(text: string) {
    && text != [] && text[0] == ESC
    && (|| |text| == 1
        || (|text| == 2 && (text[1] == 'O' || text[1] == '['))
        || (|text| == 3 && text[1] == '[' && text[2] == '[')
        || (text[1] == '[' && forall i :: 2 <= i < |text| ==> IsParameterChar(text[i])))
  }

  /** Nothing is taken from a text exactly when it is the start of a sequence. */
  lemma IncompleteIsUnfinished(text: string)
    requires text != []
    ensures NextItem(text).Incomplete? <==> Unfinished(text)
  {
    if |text| >= 3 && text[0] == ESC && text[1] == '[' && text[2] != '[' {
      var end := ParametersEnd(text, 2);
      assert end < |text| ==> !IsParameterChar(text[end]);
    }
  }

  /** Nothing a terminal sends is lost or typed twice, and only an unfinished
      sequence is held back. */
  lemma EscapesConserve(text: string)
    ensures Bounded(NextItem)
    ensures var spans, decoded := Spans(NextItem, text), Decode(NextItem, text);
            && Concat(spans) + decoded.tail == text
            && |spans| == |decoded.items|
            && (decoded.tail == [] || Unfinished(decoded.tail))
  {
    NextItemIsSteady();
    DecodeConserves(NextItem, text);
    var tail := Decode(NextItem, text).tail;
    if tail != [] {
      IncompleteIsUnfinished(tail);
    }
  }

  /** Text without an escape in it is taken character by character, at once. */
  lemma {:induction false} PlainTextDecodes(text: string)
    requires ESC !in text && Bounded(NextItem)
    ensures Decode(NextItem, text).tail == []
    ensures |Decode(NextItem, text).items| == |text|
    ensures forall i :: 0 <= i < |text| ==> Decode(NextItem, text).items[i] == Char(text[i])
  {
    if text != [] {
      PlainTextDecodes(text[1..]);
    }
  }
}
