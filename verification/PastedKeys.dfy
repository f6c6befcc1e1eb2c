/** Text with keys among it: what a terminal sends of both, and the keystrokes that are
    queued for it. */
module PastedKeys {
  import opened Keycodes
  import opened Hid
  import opened Probe
  import opened Streaming
  import opened Escapes
  import opened EscapeKeys
  import opened Typing

  /** A character, or a key with no character, as it is sent. */
  datatype Piece = Plain(c: char) | Sent(text: string, key: Step)

  /** A character is no escape, and a key is sent as something read as that key whatever
      follows. */
  ghost predicate Proper(piece: Piece) {
    match piece
    case Plain(c) => c != ESC
    case Sent(text, key) => forall after :: ReadsAs(text, key, after)
  }

  predicate ReadsAs(text: string, key: Step, after: string) {
    text != [] && NextItem(text + after) == Complete(|text|, Steps([key]))
  }

  function TextOf(piece: Piece): string {
    match piece
    case Plain(c) => [c]
    case Sent(text, _) => text
  }

  function AllText(pieces: seq<Piece>): string {
    if pieces == [] then [] else TextOf(pieces[0]) + AllText(pieces[1..])
  }

  /** The keystrokes that type it: all of a character's, or none if any cannot be sent; the
      key itself, if it can. */
  function KeysOf(kb: Keyboard, keymap: Keymap, piece: Piece): seq<Stroke> {
    match piece
    case Plain(c) =>
      if c in keymap && forall i :: 0 <= i < |keymap[c]| ==> keymap[c][i].keycode in kb then
        seq(|keymap[c]|, i requires 0 <= i < |keymap[c]| => Stroke(keymap[c][i].mods, kb[keymap[c][i].keycode]))
      else []
    case Sent(_, key) => if key.keycode in kb then [Stroke(key.mods, kb[key.keycode])] else []
  }

  function AllKeys(kb: Keyboard, keymap: Keymap, pieces: seq<Piece>): seq<Stroke> {
    if pieces == [] then [] else KeysOf(kb, keymap, pieces[0]) + AllKeys(kb, keymap, pieces[1..])
  }

  lemma {:induction false} KnownAre(kb: Keyboard, steps: seq<Step>)
    requires AllKnown(kb, steps)
    ensures |KnownStrokes(kb, steps)| == |steps|
    ensures forall i :: 0 <= i < |steps| ==> KnownStrokes(kb, steps)[i] == Stroke(steps[i].mods, kb[steps[i].keycode])
    decreases |steps|
  {
    if steps != [] {
      KnownAre(kb, steps[..|steps| - 1]);
    }
  }

  function ItemOf(piece: Piece): Item {
    match piece
    case Plain(c) => Char(c)
    case Sent(_, key) => Steps([key])
  }

  lemma OneKnown(kb: Keyboard, key: Step)
    ensures KnownStrokes(kb, [key])
         == if key.keycode in kb then [Stroke(key.mods, kb[key.keycode])] else []
  {
    assert [key][..0] == [] && KnownStrokes(kb, []) == [];
  }

  lemma ItemIsTyped(kb: Keyboard, keymap: Keymap, piece: Piece)
    ensures ItemStrokes(kb, keymap, ItemOf(piece)) == KeysOf(kb, keymap, piece)
  {
    match piece
    case Plain(c) =>
      if c in keymap && AllKnown(kb, keymap[c]) {
        KnownAre(kb, keymap[c]);
        assert KnownStrokes(kb, keymap[c]) == KeysOf(kb, keymap, piece);
      }
    case Sent(_, key) => OneKnown(kb, key);
  }

  lemma PieceIsRead(piece: Piece, after: string)
    requires Proper(piece)
    ensures TextOf(piece) != []
    ensures NextItem(TextOf(piece) + after) == Complete(|TextOf(piece)|, ItemOf(piece))
  {
    if piece.Sent? {
      assert ReadsAs(piece.text, piece.key, after);
    }
  }

  lemma NoItems(kb: Keyboard, keymap: Keymap, items: seq<Item>)
    requires items == []
    ensures ItemsStrokes(kb, keymap, items) == []
  {}

  lemma OneItem(kb: Keyboard, keymap: Keymap, items: seq<Item>, item: Item)
    requires items == [item]
    ensures ItemsStrokes(kb, keymap, items) == ItemStrokes(kb, keymap, item)
  {
    var none := items[..0];
    var strokes := ItemStrokes(kb, keymap, item);
    NoItems(kb, keymap, none);
    assert items == none + [item];
    ItemsStrokesSnoc(kb, keymap, none, item);
    assert [] + strokes == strokes;
  }

  lemma ItemsFirst(kb: Keyboard, keymap: Keymap, item: Item, items: seq<Item>)
    ensures ItemsStrokes(kb, keymap, [item] + items)
         == ItemStrokes(kb, keymap, item) + ItemsStrokes(kb, keymap, items)
  {
    ItemsStrokesConcat(kb, keymap, [item], items);
    OneItem(kb, keymap, [item], item);
  }

  /** Text with keys among it is queued in order, each character by the keystrokes that type
      it and each key by its own with the modifiers held; none of it is held back. */
  lemma {:induction false} KeysAreQueued(kb: Keyboard, keymap: Keymap, pieces: seq<Piece>)
    requires forall i :: 0 <= i < |pieces| ==> Proper(pieces[i])
    ensures Bounded(NextItem)
    ensures var decoded := Decode(NextItem, AllText(pieces));
            decoded.tail == [] && ItemsStrokes(kb, keymap, decoded.items) == AllKeys(kb, keymap, pieces)
    decreases |pieces|
  {
    NextItemIsSteady();
    if pieces == [] {
      assert NextItem([]) == Incomplete;
    } else {
      var first, rest := pieces[0], AllText(pieces[1..]);
      KeysAreQueued(kb, keymap, pieces[1..]);
      PieceIsRead(first, rest);
      DecodeStep(NextItem, AllText(pieces));
      assert AllText(pieces)[|TextOf(first)|..] == rest;
      ItemIsTyped(kb, keymap, first);
      ItemsFirst(kb, keymap, ItemOf(first), Decode(NextItem, rest).items);
    }
  }

  // -- the ways a terminal sends a key -----------------------------------------

  lemma LettersAreProper(letter: char)
    requires letter in FINAL_LETTERS
    ensures Proper(Sent([ESC, '[', letter], Lettered(letter)))
    ensures Proper(Sent([ESC, 'O', letter], Lettered(letter)))
  {
    var key := Lettered(letter);
    forall after: string ensures ReadsAs([ESC, '[', letter], key, after) {
      PlainLettersAreRead(letter, after);
    }
    forall after: string ensures ReadsAs([ESC, 'O', letter], key, after) {
      PlainLettersAreRead(letter, after);
    }
  }

  lemma ModifiedLettersAreProper(letter: char, mask: nat)
    requires letter in FINAL_LETTERS
    ensures Proper(Sent(Sequence(1, mask + 1, letter),
                        Step(FINAL_LETTERS[letter], ParameterModifiers(mask + 1) | ImplicitModifiers(letter))))
  {
    var text := Sequence(1, mask + 1, letter);
    var key := Step(FINAL_LETTERS[letter], ParameterModifiers(mask + 1) | ImplicitModifiers(letter));
    forall after: string ensures ReadsAs(text, key, after) {
      LetterKeysAreRead(letter, mask, after);
    }
  }

  lemma NumbersAreProper(number: nat)
    requires number in FINAL_NUMBERS
    ensures Proper(Sent([ESC, '['] + Plainly(number) + ['~'], Step(FINAL_NUMBERS[number], 0)))
  {
    var text, key := [ESC, '['] + Plainly(number) + ['~'], Step(FINAL_NUMBERS[number], 0);
    assert |text| == |Plainly(number)| + 3;
    forall after: string ensures ReadsAs(text, key, after) {
      PlainNumbersAreRead(number, after);
    }
  }

  lemma ModifiedNumbersAreProper(number: nat, mask: nat)
    requires number in FINAL_NUMBERS
    ensures Proper(Sent(Sequence(number, mask + 1, '~'), Step(FINAL_NUMBERS[number], ParameterModifiers(mask + 1))))
  {
    var text, key := Sequence(number, mask + 1, '~'), Step(FINAL_NUMBERS[number], ParameterModifiers(mask + 1));
    forall after: string ensures ReadsAs(text, key, after) {
      NumberedKeysAreRead(number, mask, after);
    }
  }

  lemma ConsoleKeysAreProper(letter: char)
    requires letter in LINUX_FUNCTION
    ensures Proper(Sent([ESC, '[', '[', letter], Step(LINUX_FUNCTION[letter], 0)))
  {
    var key := Step(LINUX_FUNCTION[letter], 0);
    forall after: string ensures ReadsAs([ESC, '[', '[', letter], key, after) {
      ConsoleKeysAreRead(letter, after);
    }
  }
}
