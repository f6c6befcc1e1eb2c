/** Linux input keycodes, and the HID usages and modifier bits they stand for. */
module Keycodes {
  type Keycode = int
  type Usage = int

  /** One byte of the boot report: a bit for each modifier key. */
  type Modifiers = bv8

  const MOD_LEFTCTRL: Modifiers := 0x01
  const MOD_LEFTSHIFT: Modifiers := 0x02
  const MOD_LEFTALT: Modifiers := 0x04
  const MOD_LEFTMETA: Modifiers := 0x08
  const MOD_RIGHTCTRL: Modifiers := 0x10
  const MOD_RIGHTSHIFT: Modifiers := 0x20
  const MOD_RIGHTALT: Modifiers := 0x40
  const MOD_RIGHTMETA: Modifiers := 0x80

  const KEY_ESC: Keycode := 1
  const KEY_BACKSPACE: Keycode := 14
  const KEY_TAB: Keycode := 15
  const KEY_ENTER: Keycode := 28
  const KEY_SPACE: Keycode := 57
  const KEY_KPENTER: Keycode := 96

  /** Modifier keys never occupy a key slot: each owns one bit of the report. */
  const MODIFIERS: map<Keycode, Modifiers> :=
    map[
      29 := 0x01, 42 := 0x02, 56 := 0x04, 125 := 0x08, 97 := 0x10, 54 := 0x20, 100 := 0x40, 126 := 0x80
    ]

  /** Usage 0 is the boot report's empty slot, and here an absent entry. */
  function UsageEntry(keycode: Keycode): Usage {
    match keycode
    case 1 => 0x29
    case 2 => 0x1E
    case 3 => 0x1F
    case 4 => 0x20
    case 5 => 0x21
    case 6 => 0x22
    case 7 => 0x23
    case 8 => 0x24
    case 9 => 0x25
    case 10 => 0x26
    case 11 => 0x27
    case 12 => 0x2D
    case 13 => 0x2E
    case 14 => 0x2A
    case 15 => 0x2B
    case 16 => 0x14
    case 17 => 0x1A
    case 18 => 0x08
    case 19 => 0x15
    case 20 => 0x17
    case 21 => 0x1C
    case 22 => 0x18
    case 23 => 0x0C
    case 24 => 0x12
    case 25 => 0x13
    case 26 => 0x2F
    case 27 => 0x30
    case 28 => 0x28
    case 30 => 0x04
    case 31 => 0x16
    case 32 => 0x07
    case 33 => 0x09
    case 34 => 0x0A
    case 35 => 0x0B
    case 36 => 0x0D
    case 37 => 0x0E
    case 38 => 0x0F
    case 39 => 0x33
    case 40 => 0x34
    case 41 => 0x35
    case 43 => 0x31
    case 44 => 0x1D
    case 45 => 0x1B
    case 46 => 0x06
    case 47 => 0x19
    case 48 => 0x05
    case 49 => 0x11
    case 50 => 0x10
    case 51 => 0x36
    case 52 => 0x37
    case 53 => 0x38
    case 55 => 0x55
    case 57 => 0x2C
    case 58 => 0x39
    case 59 => 0x3A
    case 60 => 0x3B
    case 61 => 0x3C
    case 62 => 0x3D
    case 63 => 0x3E
    case 64 => 0x3F
    case 65 => 0x40
    case 66 => 0x41
    case 67 => 0x42
    case 68 => 0x43
    case 69 => 0x53
    case 70 => 0x47
    case 71 => 0x5F
    case 72 => 0x60
    case 73 => 0x61
    case 74 => 0x56
    case 75 => 0x5C
    case 76 => 0x5D
    case 77 => 0x5E
    case 78 => 0x57
    case 79 => 0x59
    case 80 => 0x5A
    case 81 => 0x5B
    case 82 => 0x62
    case 83 => 0x63
    case 85 => 0x94
    case 86 => 0x64
    case 87 => 0x44
    case 88 => 0x45
    case 89 => 0x87
    case 90 => 0x92
    case 91 => 0x93
    case 92 => 0x8A
    case 93 => 0x88
    case 94 => 0x8B
    case 95 => 0x8C
    case 96 => 0x58
    case 98 => 0x54
    case 99 => 0x46
    case 102 => 0x4A
    case 103 => 0x52
    case 104 => 0x4B
    case 105 => 0x50
    case 106 => 0x4F
    case 107 => 0x4D
    case 108 => 0x51
    case 109 => 0x4E
    case 110 => 0x49
    case 111 => 0x4C
    case 117 => 0x67
    case 119 => 0x48
    case 121 => 0x85
    case 122 => 0x90
    case 123 => 0x91
    case 124 => 0x89
    case 127 => 0x65
    case 139 => 0x65
    case 183 => 0x68
    case 184 => 0x69
    case 185 => 0x6A
    case 186 => 0x6B
    case 187 => 0x6C
    case 188 => 0x6D
    case 189 => 0x6E
    case 190 => 0x6F
    case 191 => 0x70
    case 192 => 0x71
    case 193 => 0x72
    case 194 => 0x73
    case 128 => 0x78
    case 129 => 0x79
    case 131 => 0x7A
    case 137 => 0x7B
    case 133 => 0x7C
    case 135 => 0x7D
    case 136 => 0x7E
    case 138 => 0x75
    case _ => 0
  }

  /** Which usage on the Keyboard/Keypad page (0x07) each keycode stands for. */
  type Keyboard = map<Keycode, Usage>

  const KEYBOARD: Keyboard :=
    map keycode: Keycode | 0 <= keycode < 256 && UsageEntry(keycode) != 0 :: UsageEntry(keycode)

  /** Keycode to usage on the Consumer page (0x0C). */
  const CONSUMER: map<Keycode, Usage> :=
    map[
      113 := 0xE2, 114 := 0xEA, 115 := 0xE9, 163 := 0xB5, 164 := 0xCD, 165 := 0xB6, 166 := 0xB7, 172 := 0x223,
      120 := 0x29F, 217 := 0x221, 582 := 0xCF, 142 := 0x34, 224 := 0x70, 225 := 0x6F
    ]

  /** What an Apple host is sent for each key of the top row. */
  const TOP_ROW_MEDIA: map<Keycode, Keycode> :=
    map[
      59 := 224, 60 := 225, 61 := 120, 62 := 217, 63 := 582, 64 := 142, 65 := 165, 66 := 164,
      67 := 163, 68 := 113, 87 := 114, 88 := 115
    ]

  /** The virtual terminal each function key names in a console chord. */
  const FUNCTION_KEYS: map<Keycode, nat> :=
    map[
      59 := 1, 60 := 2, 61 := 3, 62 := 4, 63 := 5, 64 := 6, 65 := 7, 66 := 8,
      67 := 9, 68 := 10, 87 := 11, 88 := 12
    ]

  const DIGIT_KEYS: map<Keycode, nat> :=
    map[
      2 := 1, 3 := 2, 4 := 3, 5 := 4, 6 := 5, 7 := 6, 8 := 7, 9 := 8,
      10 := 9, 11 := 0
    ]

  const KEYPAD_DIGITS: map<Keycode, nat> :=
    map[
      82 := 0, 79 := 1, 80 := 2, 81 := 3, 75 := 4, 76 := 5, 77 := 6, 71 := 7,
      72 := 8, 73 := 9
    ]

  // -- modifiers ---------------------------------------------------------------

  function Bit(held: set<Keycode>, keycode: Keycode): Modifiers {
    if keycode in held && keycode in MODIFIERS then MODIFIERS[keycode] else 0
  }

  /** The OR of the modifiers among these keys. */
  function ModifiersOf(held: set<Keycode>): Modifiers {
    Bit(held, 29) | Bit(held, 42) | Bit(held, 56) | Bit(held, 125)
    | Bit(held, 97) | Bit(held, 54) | Bit(held, 100) | Bit(held, 126)
  }

  /** Each modifier's own bit, and no other, says whether it is held. */
  lemma ModifiersAreExact(held: set<Keycode>, keycode: Keycode)
    requires keycode in MODIFIERS
    ensures ModifiersOf(held) & MODIFIERS[keycode] != 0 <==> keycode in held
  {}
}
