/** The console's keymap turned round: from each character to the key, or the dead key
    and base, that types it there. */
module ConsoleKeymap {
  import opened Wrappers
  import opened Keycodes
  import opened Probe
  import opened Typing

  // -- keysyms -----------------------------------------------------------------

  const KT_LATIN: nat := 0
  const KT_DEAD: nat := 4
  const KT_LETTER: nat := 11
  const KT_DEAD2: nat := 13

  /** The accent meant by each index of a dead keysym. */
  const RET_DIACR: string := "`'^~\",_U.*=cki#o!?+-)(:n;$@"

  /** What the kernel keeps in a keymap entry.  The type is stored biased, so that
      everything below it is a bare character. */
  datatype Keysym =
    | Bare(code: nat)                   // below 0xF000
    | Typed(kind: nat, value: nat)      // K(kind + 0xF0, value)

  predicate Stored(k: Keysym) {
    match k
    case Bare(code) => code < 0xF000
    case Typed(kind, value) => kind < 0x10 && value < 0x100
  }

  function Internal(k: Keysym): nat
    requires Stored(k)
  {
    match k
    case Bare(code) => code
    case Typed(kind, value) => 0xF000 + 0x100 * kind + value
  }

  /** Exclusive or with 0xF000 turns the top four of sixteen bits round. */
  function Flipped(value: nat): (flipped: nat)
    requires value < 0x10000
    ensures flipped < 0x10000
  {
    value % 0x1000 + 0x1000 * (15 - value / 0x1000)
  }

  /** What the ioctl hands back. */
  function Entry(k: Keysym): nat
    requires Stored(k)
  {
    Flipped(Internal(k))
  }

  /** Code points that are characters at all: not the surrogates. */
  predicate IsScalar(code: nat) { code < 0xD800 || 0xE000 <= code < 0x11_0000 }

  type Printable = char -> bool

  function IfPrintable(code: nat, printable: Printable): Option<char> {
    if IsScalar(code) && printable(code as char) then Some(code as char) else None
  }

  function KeysymToChar(value: nat, printable: Printable): Option<char>
    requires value < 0x10000
  {
    var keysym := Flipped(value);
    var kind := keysym / 0x100;
    if kind < 0xF0 then IfPrintable(keysym, printable)
    else if kind - 0xF0 == KT_LATIN || kind - 0xF0 == KT_LETTER then IfPrintable(keysym % 0x100, printable)
    else None
  }

  function KeysymToDiacritic(value: nat): Option<char>
    requires value < 0x10000
  {
    var keysym := Flipped(value);
    var kind := keysym / 0x100;
    if kind < 0xF0 then None
    else if kind - 0xF0 == KT_DEAD then
      var index := keysym % 0x100;
      if index < |RET_DIACR| then Some(RET_DIACR[index]) else None
    else if kind - 0xF0 == KT_DEAD2 then Some((keysym % 0x100) as char)
    else None
  }

  /** The character a key types on the console, from what the kernel keeps. */
  function CharOf(k: Keysym, printable: Printable): Option<char> {
    match k
    case Bare(code) => IfPrintable(code, printable)
    case Typed(kind, value) =>
      if kind == KT_LATIN || kind == KT_LETTER then IfPrintable(value, printable) else None
  }

  /** And the accent a dead one starts. */
  function AccentOf(k: Keysym): Option<char> {
    match k
    case Bare(_) => None
    case Typed(kind, value) =>
      if kind == KT_DEAD then (if value < |RET_DIACR| then Some(RET_DIACR[value]) else None)
      else if kind == KT_DEAD2 && value < 0x100 then Some(value as char)
      else None
  }

  lemma FlippedTwice(value: nat)
    requires value < 0x10000
    ensures Flipped(Flipped(value)) == value
  {
    var low, high := value % 0x1000, value / 0x1000;
    assert value == low + 0x1000 * high;
    assert Flipped(value) % 0x1000 == low && Flipped(value) / 0x1000 == 15 - high;
  }

  /** Every entry is read as what the kernel keeps, letters as much as digits. */
  lemma EntriesAreRead(k: Keysym, printable: Printable)
    requires Stored(k)
    ensures KeysymToChar(Entry(k), printable) == CharOf(k, printable)
    ensures KeysymToDiacritic(Entry(k)) == AccentOf(k)
  {
    FlippedTwice(Internal(k));
    if k.Typed? {
      assert Internal(k) / 0x100 == 0xF0 + k.kind && Internal(k) % 0x100 == k.value;
    }
  }

  /** A number is a character exactly when it is that character's, and can be printed. */
  lemma IfPrintableIs(code: nat, printable: Printable, c: char)
    ensures IfPrintable(code, printable) == Some(c) <==> c as nat == code && printable(c)
  {
    assert IsScalar(c as nat);
  }

  // -- the scan ----------------------------------------------------------------

  const TABLE_COUNT: nat := 4
  const LAST_KEYCODE: nat := 127

  /** The tables worth scanning, fewest modifiers first. */
  function TableModifiers(table: nat): Modifiers
    requires table < TABLE_COUNT
  {
    if table == 0 then 0 else if table == 1 then MOD_LEFTSHIFT
    else if table == 2 then MOD_RIGHTALT else MOD_LEFTSHIFT | MOD_RIGHTALT
  }

  /** The kernel's index of a table is Shift's bit and AltGr's, which is Right Alt to the
      phone. */
  lemma TablesAre(table: nat)
    requires table < TABLE_COUNT
    ensures TableModifiers(table) & MOD_LEFTSHIFT != 0 <==> table % 2 == 1
    ensures TableModifiers(table) & MOD_RIGHTALT != 0 <==> table / 2 % 2 == 1
    ensures TableModifiers(table) & !(MOD_LEFTSHIFT | MOD_RIGHTALT) == 0
  {
    assert table in {0, 1, 2, 3};
  }

  datatype Position = Position(table: nat, keycode: nat)

  predicate Scanned(p: Position) { p.table < TABLE_COUNT && 1 <= p.keycode <= LAST_KEYCODE }

  /** The order in which entries are looked at. */
  function Scan(table: nat, upTo: nat): (positions: seq<Position>)
    requires table < TABLE_COUNT && upTo <= LAST_KEYCODE
    ensures |positions| == LAST_KEYCODE * table + upTo
    ensures forall i :: 0 <= i < |positions| ==> Scanned(positions[i])
    decreases table, upTo
  {
    if upTo > 0 then Scan(table, upTo - 1) + [Position(table, upTo)]
    else if table > 0 then Scan(table - 1, LAST_KEYCODE)
    else []
  }

  lemma {:induction false} ScanAt(table: nat, upTo: nat, i: nat)
    requires table < TABLE_COUNT && upTo <= LAST_KEYCODE && i < LAST_KEYCODE * table + upTo
    ensures Scan(table, upTo)[i] == Position(i / LAST_KEYCODE, i % LAST_KEYCODE + 1)
    decreases table, upTo
  {
    if upTo > 0 {
      if i < LAST_KEYCODE * table + upTo - 1 {
        ScanAt(table, upTo - 1, i);
      }
    } else {
      ScanAt(table - 1, LAST_KEYCODE, i);
    }
  }

  /** The loaded keymap; an entry that cannot be read is absent. */
  type Entries = map<Position, nat>

  predicate Readable(entries: Entries) {
    forall p :: p in entries ==> entries[p] < 0x10000
  }

  function CharAt(entries: Entries, printable: Printable, p: Position): Option<char>
    requires Readable(entries)
  {
    if p in entries then KeysymToChar(entries[p], printable) else None
  }

  /** A key that types a character is no dead key. */
  function AccentAt(entries: Entries, printable: Printable, p: Position): Option<char>
    requires Readable(entries)
  {
    if p in entries && CharAt(entries, printable, p).None? then KeysymToDiacritic(entries[p]) else None
  }

  function StepAt(p: Position): Step
    requires Scanned(p)
  {
    Step(p.keycode, TableModifiers(p.table))
  }

  datatype Heads = Heads(singles: map<char, Step>, deads: map<char, Step>)

  function FirstKept(known: map<char, Step>, c: Option<char>, step: Step): map<char, Step> {
    if c.None? || c.value in known then known else known[c.value := step]
  }

  function WithKey(entries: Entries, printable: Printable, p: Position, before: Heads): Heads
    requires Readable(entries) && Scanned(p)
  {
    Heads(FirstKept(before.singles, CharAt(entries, printable, p), StepAt(p)),
          FirstKept(before.deads, AccentAt(entries, printable, p), StepAt(p)))
  }

  function Inverted(entries: Entries, printable: Printable, positions: seq<Position>): Heads
    requires Readable(entries) && forall i :: 0 <= i < |positions| ==> Scanned(positions[i])
  {
    if positions == [] then Heads(map[], map[])
    else
      WithKey(entries, printable, positions[|positions| - 1],
              Inverted(entries, printable, positions[..|positions| - 1]))
  }

  // -- composition -------------------------------------------------------------

  /** One line of the kernel's composition table. */
  datatype Triple = Triple(accent: char, base: char, result: char)

  predicate Usable(t: Triple, heads: Heads) {
    t.result !in heads.singles && t.accent in heads.deads && t.base in heads.singles
  }

  function StepsOf(t: Triple, heads: Heads): seq<Step>
    requires Usable(t, heads)
  {
    [heads.deads[t.accent], heads.singles[t.base]]
  }

  function Composed(heads: Heads, triples: seq<Triple>): Keymap {
    if triples == [] then map[]
    else
      var front, t := Composed(heads, triples[..|triples| - 1]), triples[|triples| - 1];
      if t.result in front || !Usable(t, heads) then front else front[t.result := StepsOf(t, heads)]
  }

  method Compose(heads: Heads, triples: seq<Triple>) returns (composed: Keymap)
    ensures composed == Composed(heads, triples)
  {
    composed := map[];
    for i := 0 to |triples|
      invariant composed == Composed(heads, triples[..i])
    {
      assert triples[..i + 1][..i] == triples[..i];
      var t := triples[i];
      if t.result in heads.singles || t.result in composed {
        continue;
      }
      if t.accent !in heads.deads || t.base !in heads.singles {
        continue;
      }
      composed := composed[t.result := [heads.deads[t.accent], heads.singles[t.base]]];
    }
    assert triples[..|triples|] == triples;
  }

  // -- the whole keymap --------------------------------------------------------

  function Singly(singles: map<char, Step>): Keymap {
    map c | c in singles :: [singles[c]]
  }

  /** Single keys, then compositions, then the whitespace that nothing else types. */
  function Built(heads: Heads, triples: seq<Triple>, shiftNewline: bool): Keymap {
    Whitespace(shiftNewline) + (Singly(heads.singles) + Composed(heads, triples))
  }

  method Build(entries: Entries, printable: Printable, triples: seq<Triple>, shiftNewline: bool)
    returns (layout: Keymap)
    requires Readable(entries)
    ensures layout == Built(Inverted(entries, printable, Scan(TABLE_COUNT - 1, LAST_KEYCODE)), triples, shiftNewline)
  {
    var heads := Heads(map[], map[]);
    for table := 0 to TABLE_COUNT
      invariant table == 0 ==> heads == Heads(map[], map[])
      invariant table > 0 ==> heads == Inverted(entries, printable, Scan(table - 1, LAST_KEYCODE))
    {
      assert heads == Inverted(entries, printable, Scan(table, 0));
      heads := ScanTable(entries, printable, table, heads);
    }
    layout := Singly(heads.singles);
    var composed := Compose(heads, triples);
    layout := layout + composed;
    layout := Whitespace(shiftNewline) + layout;
  }

  /** One table's keys, added to what was found before; the first to have a character
      keeps it. */
  method ScanTable(entries: Entries, printable: Printable, table: nat, before: Heads) returns (heads: Heads)
    requires Readable(entries) && table < TABLE_COUNT
    requires before == Inverted(entries, printable, Scan(table, 0))
    ensures heads == Inverted(entries, printable, Scan(table, LAST_KEYCODE))
  {
    heads := before;
    for keycode := 1 to LAST_KEYCODE + 1
      invariant heads == Inverted(entries, printable, Scan(table, keycode - 1))
    {
      InvertedNext(entries, printable, Position(table, keycode));
      heads := ReadKey(entries, printable, Position(table, keycode), heads);
    }
  }

  /** One key: its character, or else its accent, if it is the first to have it. */
  method ReadKey(entries: Entries, printable: Printable, p: Position, before: Heads) returns (heads: Heads)
    requires Readable(entries) && Scanned(p)
    ensures heads == WithKey(entries, printable, p, before)
  {
    heads := before;
    if p !in entries {
      return;
    }
    var c := KeysymToChar(entries[p], printable);
    if c.Some? {
      heads := heads.(singles := FirstKept(heads.singles, c, StepAt(p)));
      return;
    }
    heads := heads.(deads := FirstKept(heads.deads, KeysymToDiacritic(entries[p]), StepAt(p)));
  }

  lemma InvertedNext(entries: Entries, printable: Printable, p: Position)
    requires Readable(entries) && Scanned(p)
    ensures Inverted(entries, printable, Scan(p.table, p.keycode))
         == WithKey(entries, printable, p, Inverted(entries, printable, Scan(p.table, p.keycode - 1)))
  {
    var all := Scan(p.table, p.keycode);
    assert all[..|all| - 1] == Scan(p.table, p.keycode - 1);
  }

  // -- sound and complete ------------------------------------------------------

  /** The first of these positions where `at` finds this character. */
  ghost predicate FirstAt(at: Position -> Option<char>, positions: seq<Position>, c: char, i: nat) {
    && i < |positions| && at(positions[i]) == Some(c)
    && forall j :: 0 <= j < i ==> at(positions[j]) != Some(c)
  }

  ghost function Chars(entries: Entries, printable: Printable): Position -> Option<char>
    requires Readable(entries)
  {
    p => CharAt(entries, printable, p)
  }

  ghost function Accents(entries: Entries, printable: Printable): Position -> Option<char>
    requires Readable(entries)
  {
    p => AccentAt(entries, printable, p)
  }

  function Firsts(at: Position -> Option<char>, positions: seq<Position>): map<char, Step>
    requires forall i :: 0 <= i < |positions| ==> Scanned(positions[i])
  {
    if positions == [] then map[]
    else
      FirstKept(Firsts(at, positions[..|positions| - 1]), at(positions[|positions| - 1]),
                StepAt(positions[|positions| - 1]))
  }

  lemma {:induction false} InvertedAreFirsts(entries: Entries, printable: Printable, positions: seq<Position>)
    requires Readable(entries) && forall i :: 0 <= i < |positions| ==> Scanned(positions[i])
    ensures Inverted(entries, printable, positions)
         == Heads(Firsts(Chars(entries, printable), positions), Firsts(Accents(entries, printable), positions))
    decreases |positions|
  {
    if positions != [] {
      InvertedAreFirsts(entries, printable, positions[..|positions| - 1]);
    }
  }

  /** A character is kept exactly when some position has it, and where it is first. */
  lemma {:induction false} FirstsAreFirst(at: Position -> Option<char>, positions: seq<Position>, c: char)
    requires forall i :: 0 <= i < |positions| ==> Scanned(positions[i])
    ensures c in Firsts(at, positions) <==> !Nowhere(at, positions, c)
    ensures c in Firsts(at, positions) ==>
      exists i: nat :: FirstAt(at, positions, c, i) && Firsts(at, positions)[c] == StepAt(positions[i])
    decreases |positions|
  {
    if positions != [] {
      var n := |positions| - 1;
      var front := positions[..n];
      FirstsAreFirst(at, front, c);
      assert positions == front + [positions[n]];
      if c in Firsts(at, front) {
        var i: nat :| FirstAt(at, front, c, i) && Firsts(at, front)[c] == StepAt(front[i]);
        FirstStays(at, front, positions[n], c, i);
      } else {
        FirstMayBeLast(at, front, positions[n], c);
      }
    }
  }

  lemma FirstStays(at: Position -> Option<char>, front: seq<Position>, p: Position, c: char, i: nat)
    requires FirstAt(at, front, c, i)
    ensures FirstAt(at, front + [p], c, i) && (front + [p])[i] == front[i]
  {}

  ghost predicate Nowhere(at: Position -> Option<char>, positions: seq<Position>, c: char) {
    forall i :: 0 <= i < |positions| ==> at(positions[i]) != Some(c)
  }

  lemma FirstMayBeLast(at: Position -> Option<char>, front: seq<Position>, p: Position, c: char)
    requires Nowhere(at, front, c)
    ensures if at(p) == Some(c) then FirstAt(at, front + [p], c, |front|) else Nowhere(at, front + [p], c)
  {}

  ghost function AllHeads(entries: Entries, printable: Printable): Heads
    requires Readable(entries)
  {
    Inverted(entries, printable, Scan(TABLE_COUNT - 1, LAST_KEYCODE))
  }

  /** Every character on a scanned key is there, at a key that types it, with no
      position before it that does: the fewest modifiers, and then the lowest key. */
  lemma SinglesAreCheapest(entries: Entries, printable: Printable, c: char)
    requires Readable(entries)
    ensures c in AllHeads(entries, printable).singles <==>
      exists p :: Scanned(p) && CharAt(entries, printable, p) == Some(c)
    ensures c in AllHeads(entries, printable).singles ==> exists p ::
      && CheapestAt(Chars(entries, printable), c, p) && CharAt(entries, printable, p) == Some(c)
      && AllHeads(entries, printable).singles[c] == StepAt(p)
  {
    FirstInScan(Chars(entries, printable), c);
    InvertedAreFirsts(entries, printable, Scan(TABLE_COUNT - 1, LAST_KEYCODE));
    assert forall p :: Chars(entries, printable)(p) == CharAt(entries, printable, p);
  }

  lemma DeadsAreCheapest(entries: Entries, printable: Printable, c: char)
    requires Readable(entries)
    ensures c in AllHeads(entries, printable).deads <==>
      exists p :: Scanned(p) && AccentAt(entries, printable, p) == Some(c)
    ensures c in AllHeads(entries, printable).deads ==> exists p ::
      && CheapestAt(Accents(entries, printable), c, p) && AccentAt(entries, printable, p) == Some(c)
      && AllHeads(entries, printable).deads[c] == StepAt(p)
  {
    FirstInScan(Accents(entries, printable), c);
    InvertedAreFirsts(entries, printable, Scan(TABLE_COUNT - 1, LAST_KEYCODE));
    assert forall p :: Accents(entries, printable)(p) == AccentAt(entries, printable, p);
  }

  function IndexOf(p: Position): nat
    requires Scanned(p)
  {
    LAST_KEYCODE * p.table + p.keycode - 1
  }

  lemma ScannedIsInScan(p: Position)
    requires Scanned(p)
    ensures IndexOf(p) < |Scan(TABLE_COUNT - 1, LAST_KEYCODE)|
    ensures Scan(TABLE_COUNT - 1, LAST_KEYCODE)[IndexOf(p)] == p
  {
    ScanAt(TABLE_COUNT - 1, LAST_KEYCODE, IndexOf(p));
    assert IndexOf(p) / LAST_KEYCODE == p.table && IndexOf(p) % LAST_KEYCODE == p.keycode - 1;
  }

  /** A position with this character that no other comes before: fewest modifiers,
      then lowest key. */
  ghost predicate CheapestAt(at: Position -> Option<char>, c: char, p: Position) {
    && Scanned(p) && at(p) == Some(c)
    && forall q :: Scanned(q) && at(q) == Some(c) ==>
         p.table < q.table || (p.table == q.table && p.keycode <= q.keycode)
  }

  lemma FirstIsCheapest(at: Position -> Option<char>, c: char, i: nat)
    requires FirstAt(at, Scan(TABLE_COUNT - 1, LAST_KEYCODE), c, i)
    ensures CheapestAt(at, c, Scan(TABLE_COUNT - 1, LAST_KEYCODE)[i])
  {
    var positions := Scan(TABLE_COUNT - 1, LAST_KEYCODE);
    ScanAt(TABLE_COUNT - 1, LAST_KEYCODE, i);
    forall q | Scanned(q) && at(q) == Some(c)
      ensures positions[i].table < q.table || (positions[i].table == q.table && positions[i].keycode <= q.keycode)
    {
      ScannedIsInScan(q);
      assert IndexOf(q) >= i;
    }
  }

  lemma FirstInScan(at: Position -> Option<char>, c: char)
    ensures var firsts := Firsts(at, Scan(TABLE_COUNT - 1, LAST_KEYCODE));
            && (c in firsts <==> exists p :: Scanned(p) && at(p) == Some(c))
            && (c in firsts ==> exists p :: CheapestAt(at, c, p) && firsts[c] == StepAt(p))
  {
    var positions := Scan(TABLE_COUNT - 1, LAST_KEYCODE);
    FirstsAreFirst(at, positions, c);
    if p :| Scanned(p) && at(p) == Some(c) {
      ScannedIsInScan(p);
    }
    if c in Firsts(at, positions) {
      var i: nat :| FirstAt(at, positions, c, i) && Firsts(at, positions)[c] == StepAt(positions[i]);
      FirstIsCheapest(at, c, i);
    }
  }

  // -- what the console makes of it --------------------------------------------

  /** The first of these triples for an accent and a base. */
  function FirstTriple(triples: seq<Triple>, accent: char, base: char): Option<Triple> {
    if triples == [] then None
    else
      var front, t := FirstTriple(triples[..|triples| - 1], accent, base), triples[|triples| - 1];
      if front.Some? then front else if t.accent == accent && t.base == base then Some(t) else None
  }

  /** An accent waits for the next character: the table says what they make, else the
      accent stands alone before a blank or itself, else before the character. */
  function Merged(triples: seq<Triple>, accent: char, c: char): string {
    match FirstTriple(triples, accent, c)
    case Some(t) => [t.result]
    case None => if c == ' ' || c == accent then [accent] else [accent, c]
  }

  datatype Console = Console(text: string, accent: Option<char>)

  function Hit(entries: Entries, printable: Printable, triples: seq<Triple>, s: Console, p: Position): Console
    requires Readable(entries)
  {
    match (CharAt(entries, printable, p), AccentAt(entries, printable, p))
    case (Some(c), _) =>
      if s.accent.None? then Console(s.text + [c], None)
      else Console(s.text + Merged(triples, s.accent.value, c), None)
    case (None, Some(a)) => Console(s.text, Some(a))
    case (None, None) => s
  }

  const BLANK: Console := Console([], None)

  /** Which position a step presses. */
  predicate Presses(step: Step, p: Position) { Scanned(p) && StepAt(p) == step }

  lemma PressesOne(p: Position, q: Position)
    requires Scanned(p) && Scanned(q) && StepAt(p) == StepAt(q)
    ensures p == q
  {
    assert MOD_LEFTSHIFT | MOD_RIGHTALT == 0x42;
  }

  /** The key kept for a character types it on the console, and leaves no accent. */
  lemma SingleTypesItself(entries: Entries, printable: Printable, triples: seq<Triple>, c: char, p: Position)
    requires Readable(entries) && c in AllHeads(entries, printable).singles
    requires Presses(AllHeads(entries, printable).singles[c], p)
    ensures Hit(entries, printable, triples, BLANK, p) == Console([c], None)
  {
    SinglesAreCheapest(entries, printable, c);
    var q :| Scanned(q) && CharAt(entries, printable, q) == Some(c)
      && AllHeads(entries, printable).singles[c] == StepAt(q);
    PressesOne(p, q);
  }

  /** The first triple by which a dead key and a base that are there make this. */
  predicate FirstUsable(heads: Heads, triples: seq<Triple>, c: char, i: nat) {
    && i < |triples| && triples[i].result == c && Usable(triples[i], heads)
    && forall j :: 0 <= j < i && triples[j].result == c ==> !Usable(triples[j], heads)
  }

  /** A composition is there exactly when no single key has the character and some
      triple has both its dead key and its base, and the first such triple wins. */
  lemma {:induction false} ComposedAreFirst(heads: Heads, triples: seq<Triple>, c: char)
    ensures c in Composed(heads, triples) <==>
      c !in heads.singles && exists i :: 0 <= i < |triples| && triples[i].result == c && Usable(triples[i], heads)
    ensures c in Composed(heads, triples) ==>
      exists i: nat :: FirstUsable(heads, triples, c, i) && Composed(heads, triples)[c] == StepsOf(triples[i], heads)
    decreases |triples|
  {
    if triples != [] {
      var n := |triples| - 1;
      var front, t := triples[..n], triples[n];
      assert forall j :: 0 <= j < n ==> front[j] == triples[j];
      ComposedAreFirst(heads, front, c);
      assert triples == front + [t];
      if c in Composed(heads, front) {
        var i: nat :| FirstUsable(heads, front, c, i) && Composed(heads, front)[c] == StepsOf(front[i], heads);
        UsableStays(heads, front, t, c, i);
      } else if t.result == c && Usable(t, heads) {
        assert FirstUsable(heads, triples, c, n);
      }
    }
  }

  lemma UsableStays(heads: Heads, front: seq<Triple>, t: Triple, c: char, i: nat)
    requires FirstUsable(heads, front, c, i)
    ensures FirstUsable(heads, front + [t], c, i) && (front + [t])[i] == front[i]
  {}

  /** No triple before this one is for the same accent and base. */
  predicate Unshadowed(triples: seq<Triple>, i: nat)
    requires i < |triples|
  {
    forall j :: 0 <= j < i ==> triples[j].accent != triples[i].accent || triples[j].base != triples[i].base
  }

  lemma {:induction false} FirstTripleIs(triples: seq<Triple>, i: nat)
    requires i < |triples|
    ensures exists j :: 0 <= j <= i && FirstTriple(triples, triples[i].accent, triples[i].base) == Some(triples[j])
              && triples[j].accent == triples[i].accent && triples[j].base == triples[i].base
              && (j == i <==> Unshadowed(triples, i))
    decreases |triples|
  {
    var n := |triples| - 1;
    var front := triples[..n];
    assert forall j :: 0 <= j < n ==> front[j] == triples[j];
    if i < n {
      FirstTripleIs(front, i);
      assert Unshadowed(front, i) <==> Unshadowed(triples, i);
      var j :| 0 <= j <= i && FirstTriple(front, front[i].accent, front[i].base) == Some(front[j])
        && front[j].accent == front[i].accent && front[j].base == front[i].base
        && (j == i <==> Unshadowed(front, i));
      assert FirstTriple(triples, triples[i].accent, triples[i].base) == Some(triples[j]);
    } else {
      NoEarlierTriple(front, triples[n].accent, triples[n].base);
      if Unshadowed(triples, n) {
        assert FirstTriple(front, triples[n].accent, triples[n].base) == None;
        assert FirstTriple(triples, triples[n].accent, triples[n].base) == Some(triples[n]);
      } else {
        var k :| 0 <= k < n && front[k].accent == triples[n].accent && front[k].base == triples[n].base;
        FirstTripleIs(front, k);
        var j :| 0 <= j <= k && FirstTriple(front, front[k].accent, front[k].base) == Some(front[j])
          && front[j].accent == front[k].accent && front[j].base == front[k].base;
        assert FirstTriple(triples, triples[n].accent, triples[n].base) == Some(triples[j]);
      }
    }
  }

  lemma {:induction false} NoEarlierTriple(triples: seq<Triple>, accent: char, base: char)
    ensures FirstTriple(triples, accent, base) == None
       <==> forall j :: 0 <= j < |triples| ==> triples[j].accent != accent || triples[j].base != base
    decreases |triples|
  {
    if triples != [] {
      var n := |triples| - 1;
      NoEarlierTriple(triples[..n], accent, base);
      assert forall j :: 0 <= j < n ==> triples[..n][j] == triples[j];
    }
  }

  /** The dead key and base kept for a character type it on the console - exactly when
      the kernel's table has no earlier line for the same accent and base. */
  lemma CompositionTypesItself(
      entries: Entries, printable: Printable, triples: seq<Triple>, c: char, i: nat, dead: Position, base: Position)
    requires Readable(entries)
    requires FirstUsable(AllHeads(entries, printable), triples, c, i)
    requires Presses(AllHeads(entries, printable).deads[triples[i].accent], dead)
    requires Presses(AllHeads(entries, printable).singles[triples[i].base], base)
    ensures Hit(entries, printable, triples, Hit(entries, printable, triples, BLANK, dead), base) == Console([c], None)
       <==> Unshadowed(triples, i)
  {
    var heads, t := AllHeads(entries, printable), triples[i];
    DeadsAreCheapest(entries, printable, t.accent);
    var d :| Scanned(d) && AccentAt(entries, printable, d) == Some(t.accent) && heads.deads[t.accent] == StepAt(d);
    PressesOne(dead, d);
    SinglesAreCheapest(entries, printable, t.base);
    var b :| Scanned(b) && CharAt(entries, printable, b) == Some(t.base) && heads.singles[t.base] == StepAt(b);
    PressesOne(base, b);
    FirstTripleIs(triples, i);
    var j :| 0 <= j <= i && FirstTriple(triples, t.accent, t.base) == Some(triples[j])
      && triples[j].accent == t.accent && triples[j].base == t.base && (j == i <==> Unshadowed(triples, i));
    assert Hit(entries, printable, triples, BLANK, dead) == Console([], Some(t.accent));
    assert [] + Merged(triples, t.accent, t.base) == [triples[j].result];
    assert triples[j].result == c ==> Usable(triples[j], heads);
  }

  /** Of the ways to one character a single key wins, then a composition, and the
      whitespace's own key only where neither has it; what none has is not there. */
  lemma BuiltPrefers(heads: Heads, triples: seq<Triple>, shiftNewline: bool, c: char)
    ensures var kept, whitespace := Built(heads, triples, shiftNewline), Whitespace(shiftNewline);
            && (c in heads.singles ==> c in kept && kept[c] == [heads.singles[c]])
            && (forall i: nat :: c !in heads.singles && FirstUsable(heads, triples, c, i) ==>
                  c in kept && kept[c] == StepsOf(triples[i], heads))
            && (c !in heads.singles && (forall i: nat :: !FirstUsable(heads, triples, c, i)) ==>
                  (c in kept <==> c in whitespace) && (c in kept ==> kept[c] == whitespace[c]))
  {
    ComposedAreFirst(heads, triples, c);
    forall i: nat, j: nat | FirstUsable(heads, triples, c, i) && FirstUsable(heads, triples, c, j) ensures i == j {}
  }

  // -- a keymap that goes wrong ------------------------------------------------

  const DEAD_KEY: Position := Position(0, 26)
  const BASE_KEY: Position := Position(0, 30)

  /** A dead circumflex and a letter, and nothing else on the keyboard. */
  const TWO_KEYS: Entries := map[DEAD_KEY := Entry(Typed(KT_DEAD, 2)), BASE_KEY := Entry(Typed(KT_LETTER, 97))]

  /** Two lines of the table for them. */
  const TWO_LINES: seq<Triple> := [Triple('^', 'a', 'x'), Triple('^', 'a', 'y')]

  const ANY: Printable := c => true

  lemma TwoKeysRead(p: Position)
    ensures Readable(TWO_KEYS)
    ensures CharAt(TWO_KEYS, ANY, p) == if p == BASE_KEY then Some('a') else None
    ensures AccentAt(TWO_KEYS, ANY, p) == if p == DEAD_KEY then Some('^') else None
  {
    EntriesAreRead(Typed(KT_DEAD, 2), ANY);
    EntriesAreRead(Typed(KT_LETTER, 97), ANY);
    assert 97 as char == 'a' && RET_DIACR[2] == '^';
  }

  lemma TwoKeysHeads()
    ensures Readable(TWO_KEYS) && AllHeads(TWO_KEYS, ANY) == Heads(map['a' := Step(30, 0)], map['^' := Step(26, 0)])
  {
    var heads := AllHeads(TWO_KEYS, ANY);
    TwoKeysRead(DEAD_KEY);
    forall c ensures c in heads.singles <==> c == 'a' {
      TwoKeysSingles(c);
    }
    forall c ensures c in heads.deads <==> c == '^' {
      TwoKeysDeads(c);
    }
    TwoKeysSingles('a');
    TwoKeysDeads('^');
  }

  lemma TwoKeysSingles(c: char)
    requires Readable(TWO_KEYS)
    ensures var singles := AllHeads(TWO_KEYS, ANY).singles;
            (c in singles <==> c == 'a') && (c in singles ==> singles[c] == Step(30, 0))
  {
    SinglesAreCheapest(TWO_KEYS, ANY, c);
    forall p ensures CharAt(TWO_KEYS, ANY, p) == if p == BASE_KEY then Some('a') else None {
      TwoKeysRead(p);
    }
    assert Scanned(BASE_KEY) && StepAt(BASE_KEY) == Step(30, 0);
  }

  lemma TwoKeysDeads(c: char)
    requires Readable(TWO_KEYS)
    ensures var deads := AllHeads(TWO_KEYS, ANY).deads;
            (c in deads <==> c == '^') && (c in deads ==> deads[c] == Step(26, 0))
  {
    DeadsAreCheapest(TWO_KEYS, ANY, c);
    forall p ensures AccentAt(TWO_KEYS, ANY, p) == if p == DEAD_KEY then Some('^') else None {
      TwoKeysRead(p);
    }
    assert Scanned(DEAD_KEY) && StepAt(DEAD_KEY) == Step(26, 0);
  }

  /** The corner that condition excludes: what is kept for the second line's result
      types the first line's. */
  lemma ShadowedComposition()
    ensures Readable(TWO_KEYS)
    ensures var kept := Built(AllHeads(TWO_KEYS, ANY), TWO_LINES, false);
            'y' in kept && kept['y'] == [StepAt(DEAD_KEY), StepAt(BASE_KEY)]
    ensures Hit(TWO_KEYS, ANY, TWO_LINES, Hit(TWO_KEYS, ANY, TWO_LINES, BLANK, DEAD_KEY), BASE_KEY)
         == Console("x", None)
  {
    TwoKeysHeads();
    TwoKeysRead(DEAD_KEY);
    TwoKeysRead(BASE_KEY);
    var heads, first := AllHeads(TWO_KEYS, ANY), TWO_LINES[..1];
    assert TWO_LINES[..1] == [TWO_LINES[0]] && first[..0] == [];
    assert Composed(heads, []) == map[] && Composed(heads, first) == map['x' := [Step(26, 0), Step(30, 0)]];
    assert Composed(heads, TWO_LINES)['y'] == [Step(26, 0), Step(30, 0)];
    assert FirstTriple([], '^', 'a') == None && FirstTriple(first, '^', 'a') == Some(TWO_LINES[0]);
    assert FirstTriple(TWO_LINES, '^', 'a') == Some(TWO_LINES[0]);
    assert [] + Merged(TWO_LINES, '^', 'a') == "x";
  }
}
