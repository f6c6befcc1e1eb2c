/** A phone that meets everything the learning theorem assumes, with a dead key and a
    composition of its own: Space and Enter are themselves, one key is a dead
    circumflex, one types an e, and every other key types an x, which is what marks
    the fields of the probes.  It is here to show that the assumptions can be met all
    at once, on the keyboard table the program really has. */
module ExamplePhone {
  import opened Wrappers
  import opened Keycodes
  import opened Hid
  import opened Phone
  import opened Probe
  import opened ProbeRoundTrip
  import opened AccentRoundTrip
  import opened LearnThenPaste

  function Means(s: Stroke): Meaning {
    if s.usage == 0x2C then Types(' ')
    else if s.usage == 0x28 then Types('\n')
    else if s.usage == 0x2F then Dead('^')
    else if s.usage == 0x08 then Types('e')
    else Types('x')
  }

  function Makes(dead: Stroke, base: Stroke): Option<char> {
    if base.usage == 0x08 then Some('\U{EA}') else None
  }

  const CIRCUMFLEX_PHONE: Layout := Layout(Means, Makes)

  lemma UsageOf(keycode: Keycode)
    requires keycode in KEYBOARD
    ensures KEYBOARD[keycode] == UsageEntry(keycode) && 0 <= keycode < 256
  {}

  lemma KeyIsFair(kb: Keyboard, keycode: Keycode, mods: Modifiers)
    requires kb == KEYBOARD && keycode in kb && keycode != KEY_ENTER
    ensures Fair(CIRCUMFLEX_PHONE, Press(kb, Step(keycode, mods)), 'x')
  {
    UsageOf(keycode);
  }

  lemma RowIsKnown(kb: Keyboard, positions: seq<Keycode>, j: nat)
    requires Equipped(kb) && positions in ROWS && j < |positions|
    ensures positions[j] in kb && positions[j] != KEY_ENTER
  {
    var k :| 0 <= k < |ROWS| && ROWS[k] == positions;
  }

  lemma RowsAreFair(kb: Keyboard)
    requires kb == KEYBOARD && Equipped(kb)
    ensures FairRows(CIRCUMFLEX_PHONE, kb, Expected(LEVELS, ROWS), 'x')
  {
    AllFair(kb, Expected(LEVELS, ROWS));
  }

  lemma AllFair(kb: Keyboard, rows: seq<ProbeRow>)
    requires kb == KEYBOARD && Equipped(kb) && forall i :: 0 <= i < |rows| ==> rows[i].positions in ROWS
    ensures FairRows(CIRCUMFLEX_PHONE, kb, rows, 'x')
  {
    forall i, j | 0 <= i < |rows| && 0 <= j < |rows[i].positions|
      ensures Fair(CIRCUMFLEX_PHONE, Press(kb, Step(rows[i].positions[j], rows[i].mods)), 'x')
    {
      RowIsKnown(kb, rows[i].positions, j);
      KeyIsFair(kb, rows[i].positions[j], rows[i].mods);
    }
  }

  lemma BaseIsOrdinary(kb: Keyboard, j: nat)
    requires kb == KEYBOARD && Equipped(kb) && j < |BASES|
    ensures IsBase(CIRCUMFLEX_PHONE, Press(kb, BASES[j]))
  {
    UsageOf(BASES[j].keycode);
  }

  lemma KeyboardFits()
    ensures InRange(KEYBOARD) && PlainKeys(CIRCUMFLEX_PHONE, KEYBOARD, true)
    ensures Probeable(CIRCUMFLEX_PHONE, KEYBOARD, 'x')
  {
    KeyboardIsEquipped();
    forall keycode | keycode in KEYBOARD ensures 0 <= keycode <= 0xFFFF { UsageOf(keycode); }
    UsageOf(KEY_ENTER);
    UsageOf(SENTINEL_POSITION);
  }

  /** The assumptions can all be met at once, on the real keyboard table. */
  lemma ExampleIsLearnable()
    ensures Learnable(CIRCUMFLEX_PHONE, KEYBOARD, 'x')
    ensures PlainKeys(CIRCUMFLEX_PHONE, KEYBOARD, true) && InRange(KEYBOARD)
  {
    KeyboardIsEquipped();
    KeyboardFits();
    RowsAreFair(KEYBOARD);
    forall j | 0 <= j < |BASES| ensures IsBase(CIRCUMFLEX_PHONE, Press(KEYBOARD, BASES[j])) {
      BaseIsOrdinary(KEYBOARD, j);
    }
  }
}
