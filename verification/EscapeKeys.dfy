/** What a terminal sends for a key, and that it is read as that key. */
module EscapeKeys {
  import opened Wrappers
  import opened Keycodes
  import opened Numerals
  import opened Probe
  import opened Streaming
  import opened Escapes

  function Plainly(n: nat): string { Digits(n, Decimal, false) }

  /** A key as xterm sends it: its number, one more than the mask of the modifiers
      held, and the character that says which kind of key it is. */
  function Sequence(number: nat, parameter: nat, final: char): string {
    [ESC, '['] + (Plainly(number) + (";" + (Plainly(parameter) + [final])))
  }

  // -- the numbers in it -------------------------------------------------------

  /** Digits read from the left, after `value`. */
  function Shifted(value: nat, digits: string): nat
    requires AllDigits(digits)
    decreases |digits|
  {
    if digits == [] then value
    else Shifted(Times(value, Decimal) + DigitValue(digits[0]), digits[1..])
  }

  lemma {:induction false} ShiftedSnoc(value: nat, digits: string, c: char)
    requires AllDigits(digits) && IsDigit(c)
    ensures Shifted(value, digits + [c]) == Times(Shifted(value, digits), Decimal) + DigitValue(c)
    decreases |digits|
  {
    if digits == [] {
      assert (digits + [c])[1..] == [];
    } else {
      assert (digits + [c])[1..] == digits[1..] + [c];
      ShiftedSnoc(Times(value, Decimal) + DigitValue(digits[0]), digits[1..], c);
    }
  }

  /** Read from the left or from the right, it is the same number. */
  lemma {:induction false} ShiftedIsValue(digits: string)
    requires AllDigits(digits)
    ensures Shifted(0, digits) == Value(digits, Decimal)
    decreases |digits|
  {
    if digits != [] {
      var n := |digits| - 1;
      ShiftedIsValue(digits[..n]);
      ShiftedSnoc(0, digits[..n], digits[n]);
      assert digits == digits[..n] + [digits[n]];
    }
  }

  predicate AllParameters(text: string) {
    forall i :: 0 <= i < |text| ==> IsParameterChar(text[i])
  }

  lemma {:induction false} PartsAfter(digits: string, rest: string, value: nat)
    requires AllDigits(digits) && AllParameters(rest)
    ensures AllParameters(digits + rest)
    ensures Parts(digits + rest, value) == Parts(rest, Shifted(value, digits))
    decreases |digits|
  {
    if digits == [] {
      assert digits + rest == rest;
    } else {
      assert (digits + rest)[1..] == digits[1..] + rest;
      PartsAfter(digits[1..], rest, Times(value, Decimal) + DigitValue(digits[0]));
    }
  }

  function TwoNumbers(number: nat, parameter: nat): string {
    Plainly(number) + (";" + Plainly(parameter))
  }

  lemma TwoNumbersAreRead(number: nat, parameter: nat)
    ensures AllParameters(TwoNumbers(number, parameter))
    ensures Parameters(TwoNumbers(number, parameter)) == [number, parameter]
  {
    var first, second := Plainly(number), Plainly(parameter);
    var rest := ";" + second;
    assert rest[1..] == second && second + [] == second;
    PartsAfter(second, [], 0);
    PartsAfter(first, rest, 0);
    ShiftedIsValue(first);
    ShiftedIsValue(second);
    DigitsValue(number, Decimal, false);
    DigitsValue(parameter, Decimal, false);
  }

  // -- the key it names --------------------------------------------------------

  lemma {:induction false} ParametersStop(text: string, i: nat, stop: nat)
    requires i <= stop < |text| && !IsParameterChar(text[stop])
    requires forall j :: i <= j < stop ==> IsParameterChar(text[j])
    ensures ParametersEnd(text, i) == stop
    decreases stop - i
  {
    if i < stop {
      ParametersStop(text, i + 1, stop);
    }
  }

  /** A whole sequence is taken for the key it names, whatever follows it. */
  lemma SequenceIsRead(number: nat, parameter: nat, final: char, after: string)
    requires !IsParameterChar(final)
    ensures Match(Sequence(number, parameter, final) + after)
         == Matched(CsiKey([number, parameter], final), |Sequence(number, parameter, final)|)
  {
    var numbers := TwoNumbers(number, parameter);
    var text := Sequence(number, parameter, final) + after;
    TwoNumbersAreRead(number, parameter);
    SequenceParts(number, parameter, final);
    var stop := 2 + |numbers|;
    assert text[2..stop] == numbers && text[stop] == final;
    assert forall j :: 2 <= j < stop ==> text[j] == numbers[j - 2];
    assert IsDigit(Plainly(number)[0]) && text[2] == Plainly(number)[0];
    ParametersStop(text, 2, stop);
  }

  lemma SequenceParts(number: nat, parameter: nat, final: char)
    ensures Sequence(number, parameter, final) == [ESC, '['] + TwoNumbers(number, parameter) + [final]
  {
    var first, second := Plainly(number), Plainly(parameter);
    assert first + (";" + (second + [final])) == (first + (";" + second)) + [final];
  }

  /** The four modifiers a terminal reports are the four lowest bits of its mask. */
  lemma MaskIsModifiers(mask: nat)
    ensures var mods := ParameterModifiers(mask + 1);
            && (mods & MOD_LEFTSHIFT != 0 <==> mask % 2 == 1)
            && (mods & MOD_LEFTALT != 0 <==> mask / 2 % 2 == 1)
            && (mods & MOD_LEFTCTRL != 0 <==> mask / 4 % 2 == 1)
            && (mods & MOD_LEFTMETA != 0 <==> mask / 8 % 2 == 1)
            && mods & (MOD_RIGHTCTRL | MOD_RIGHTSHIFT | MOD_RIGHTALT | MOD_RIGHTMETA) == 0
  {
    BitAdded(mask, 0, 1);
    BitAdded(mask, 1, 2);
    BitAdded(mask, 2, 4);
    BitAdded(mask, 3, 8);
    assert mask / 1 == mask;
    FourBits(mask % 2 == 1, mask / 2 % 2 == 1, mask / 4 % 2 == 1, mask / 8 % 2 == 1);
  }

  lemma BitAdded(mask: nat, n: nat, power: nat)
    requires n < 4 && power == if n == 0 then 1 else if n == 1 then 2 else if n == 2 then 4 else 8
    ensures BitsOf(mask, n + 1) == BitsOf(mask, n) | (if mask / power % 2 == 1 then MODIFIER_BITS[n] else 0)
  {
    assert Pow2(0) == 1;
    assert Pow2(1) == 2 * Pow2(0);
    assert Pow2(2) == 2 * Pow2(1);
    assert Pow2(3) == 2 * Pow2(2);
    assert Pow2(n) == power;
  }

  lemma FourBits(shift: bool, alt: bool, ctrl: bool, meta: bool)
    ensures var mods: Modifiers := 0 | (if shift then MOD_LEFTSHIFT else 0) | (if alt then MOD_LEFTALT else 0)
                                     | (if ctrl then MOD_LEFTCTRL else 0) | (if meta then MOD_LEFTMETA else 0);
            && (mods & MOD_LEFTSHIFT != 0 <==> shift)
            && (mods & MOD_LEFTALT != 0 <==> alt)
            && (mods & MOD_LEFTCTRL != 0 <==> ctrl)
            && (mods & MOD_LEFTMETA != 0 <==> meta)
            && mods & (MOD_RIGHTCTRL | MOD_RIGHTSHIFT | MOD_RIGHTALT | MOD_RIGHTMETA) == 0
  {}

  /** A cursor or function key with modifiers held, as one keystroke with them. */
  lemma LetterKeysAreRead(letter: char, mask: nat, after: string)
    requires letter in FINAL_LETTERS
    ensures NextItem(Sequence(1, mask + 1, letter) + after)
         == Complete(|Sequence(1, mask + 1, letter)|,
                     Steps([Step(FINAL_LETTERS[letter], ParameterModifiers(mask + 1) | ImplicitModifiers(letter))]))
  {
    SequenceIsRead(1, mask + 1, letter, after);
  }

  /** An editing or function key that has a number, likewise. */
  lemma NumberedKeysAreRead(number: nat, mask: nat, after: string)
    requires number in FINAL_NUMBERS
    ensures NextItem(Sequence(number, mask + 1, '~') + after)
         == Complete(|Sequence(number, mask + 1, '~')|,
                     Steps([Step(FINAL_NUMBERS[number], ParameterModifiers(mask + 1))]))
  {
    SequenceIsRead(number, mask + 1, '~', after);
    assert ParameterModifiers(mask + 1) | 0 == ParameterModifiers(mask + 1);
  }

  // -- without modifiers -------------------------------------------------------

  lemma {:induction false} NoBits(n: nat)
    requires n <= |MODIFIER_BITS|
    ensures BitsOf(0, n) == 0
  {
    if n > 0 {
      NoBits(n - 1);
      assert 0 / Pow2(n - 1) % 2 == 0;
    }
  }

  lemma NoModifiers()
    ensures ParameterModifiers(1) == 0 && ParameterModifiers(0) == 0
  {
    NoBits(4);
  }

  /** What the sequence's letter says by itself: only backtab has a modifier. */
  function Lettered(letter: char): Step
    requires letter in FINAL_LETTERS
  {
    Step(FINAL_LETTERS[letter], if letter == 'Z' then MOD_LEFTSHIFT else 0)
  }

  /** A cursor or function key alone, in either of the two ways it is sent. */
  lemma PlainLettersAreRead(letter: char, after: string)
    requires letter in FINAL_LETTERS
    ensures NextItem([ESC, '[', letter] + after) == Complete(3, Steps([Lettered(letter)]))
    ensures NextItem([ESC, 'O', letter] + after) == Complete(3, Steps([Lettered(letter)]))
  {
    var text := [ESC, '[', letter] + after;
    NoModifiers();
    ZeroOr(ImplicitModifiers(letter));
    ParametersStop(text, 2, 2);
    assert text[2..2] == [] && letter != '[' && letter != '~';
    assert CsiKey([], letter) == Some(Lettered(letter));
    assert Match(text) == Matched(Some(Lettered(letter)), 3);
  }

  lemma ZeroOr(mods: Modifiers)
    ensures 0 | mods == mods
  {}

  /** A numbered key alone. */
  lemma PlainNumbersAreRead(number: nat, after: string)
    requires number in FINAL_NUMBERS
    ensures NextItem([ESC, '['] + Plainly(number) + ['~'] + after)
         == Complete(|Plainly(number)| + 3, Steps([Step(FINAL_NUMBERS[number], 0)]))
  {
    var digits := Plainly(number);
    var text := [ESC, '['] + digits + ['~'] + after;
    var stop := 2 + |digits|;
    NoModifiers();
    assert text[2..stop] == digits && text[stop] == '~';
    assert forall j :: 2 <= j < stop ==> text[j] == digits[j - 2];
    assert IsDigit(digits[0]) && text[2] == digits[0];
    ParametersStop(text, 2, stop);
    OneNumberIsRead(number);
    ZeroOr(0);
    assert CsiKey([number], '~') == Some(Step(FINAL_NUMBERS[number], 0));
    assert Match(text) == Matched(Some(Step(FINAL_NUMBERS[number], 0)), |digits| + 3);
  }

  lemma OneNumberIsRead(number: nat)
    ensures AllParameters(Plainly(number)) && Parameters(Plainly(number)) == [number]
  {
    var digits := Plainly(number);
    PartsAfter(digits, [], 0);
    assert digits + [] == digits;
    ShiftedIsValue(digits);
    DigitsValue(number, Decimal, false);
  }

  /** A function key as the Linux console sends it. */
  lemma ConsoleKeysAreRead(letter: char, after: string)
    requires letter in LINUX_FUNCTION
    ensures NextItem([ESC, '[', '[', letter] + after) == Complete(4, Steps([Step(LINUX_FUNCTION[letter], 0)]))
  {
    var text := [ESC, '[', '[', letter] + after;
    assert Match(text) == Matched(Some(Step(LINUX_FUNCTION[letter], 0)), 4);
  }

  /** A sequence of any other kind is passed over whole, and an escape that starts none is
      the Escape key, with what follows it left to itself. */
  lemma OthersAreRead(final: char, numbers: string, after: string)
    requires AllParameters(numbers) && !IsParameterChar(final) && (numbers == [] ==> final != '[')
    requires if final == '~' then Parameters(numbers) == [] || Parameters(numbers)[0] !in FINAL_NUMBERS
             else final !in FINAL_LETTERS
    ensures var text := [ESC, '['] + numbers + [final];
            NextItem(text + after) == Complete(|text|, Unknown(text))
    ensures final != 'O' && final != '[' ==> NextItem([ESC, final] + after) == Complete(1, Char(ESC))
  {
    var text := [ESC, '['] + numbers + [final];
    var all, stop := text + after, 2 + |numbers|;
    assert all[2..stop] == numbers && all[stop] == final;
    assert forall j :: 2 <= j < stop ==> all[j] == numbers[j - 2];
    assert numbers != [] ==> IsParameterChar(all[2]);
    ParametersStop(all, 2, stop);
    assert all[..|text|] == text;
    assert CsiKey(Parameters(numbers), final) == None;
  }

  /** And so are the other two spellings, of no key. */
  lemma NoKeysAreRead(letter: char, after: string)
    ensures letter !in FINAL_LETTERS ==>
              NextItem([ESC, 'O', letter] + after) == Complete(3, Unknown([ESC, 'O', letter]))
    ensures letter !in LINUX_FUNCTION ==>
              NextItem([ESC, '[', '[', letter] + after) == Complete(4, Unknown([ESC, '[', '[', letter]))
  {
    var three, four := [ESC, 'O', letter], [ESC, '[', '[', letter];
    assert (three + after)[..3] == three && (four + after)[..4] == four;
  }
}
