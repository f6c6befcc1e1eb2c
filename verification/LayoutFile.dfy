/** The layout file: what was measured, written down as text a person can read,
    and read back as exactly what was measured. */
module LayoutFile {
  import opened Wrappers
  import opened Keycodes
  import opened Text
  import opened Numerals
  import opened Seqs
  import opened Probe
  import opened Capture
  import opened LayoutTable
  import opened Lines

  // -- words -------------------------------------------------------------------

  /** How far the first word reaches. */
  function WordEnd(text: string): (n: nat)
    ensures n <= |text|
    ensures text != [] && !IsSpace(text[0]) ==> n > 0
  {
    if text == [] || IsSpace(text[0]) then 0 else 1 + WordEnd(text[1..])
  }

  /** The words of a line, however much space lies around them. */
  function Words(text: string): seq<string>
    decreases |text|
  {
    if text == [] then []
    else if IsSpace(text[0]) then Words(text[1..])
    else [text[..WordEnd(text)]] + Words(text[WordEnd(text)..])
  }

  predicate IsWord(word: string) {
    word != [] && forall i :: 0 <= i < |word| ==> !IsSpace(word[i])
  }

  predicate IsGap(gap: string) {
    gap != [] && forall i :: 0 <= i < |gap| ==> gap[i] == ' '
  }

  lemma {:induction false} WordEndAt(word: string, rest: string)
    requires forall i :: 0 <= i < |word| ==> !IsSpace(word[i])
    requires rest == [] || IsSpace(rest[0])
    ensures WordEnd(word + rest) == |word|
  {
    if word == [] {
      assert word + rest == rest;
    } else {
      assert (word + rest)[1..] == word[1..] + rest;
      WordEndAt(word[1..], rest);
    }
  }

  lemma {:induction false} GapSkipped(gap: string, rest: string)
    requires forall i :: 0 <= i < |gap| ==> gap[i] == ' '
    ensures Words(gap + rest) == Words(rest)
  {
    if gap == [] {
      assert gap + rest == rest;
    } else {
      assert (gap + rest)[1..] == gap[1..] + rest;
      GapSkipped(gap[1..], rest);
    }
  }

  /** A word and the gap after it come off the front of a line. */
  lemma WordTaken(word: string, gap: string, rest: string)
    requires IsWord(word) && IsGap(gap)
    ensures Words(word + gap + rest) == [word] + Words(rest)
  {
    var text := word + gap + rest;
    assert text == word + (gap + rest);
    WordEndAt(word, gap + rest);
    assert text[..|word|] == word && text[|word|..] == gap + rest;
    GapSkipped(gap, rest);
  }

  // -- numbers -----------------------------------------------------------------

  function Spaces(n: nat): (s: string)
    ensures |s| == n && forall i :: 0 <= i < n ==> s[i] == ' '
  {
    if n == 0 then [] else Spaces(n - 1) + [' ']
  }

  function DecimalWord(n: nat): string { Digits(n, Decimal, false) }

  function HexWord(n: nat): string { "0x" + Padded(n, Hex, false, 2) }

  /** int(text, 0): the base is in the prefix, and a decimal number other than zero
      has no leading zero. */
  function ParseNumber(text: string): Option<nat> {
    if |text| > 2 && text[0] == '0' && (text[1] == 'x' || text[1] == 'X') then
      if AllHexDigits(text[2..]) then Some(Value(text[2..], Hex)) else None
    else if text != [] && AllDigits(text) && (text[0] == '0' ==> Value(text, Decimal) == 0)
    then Some(Value(text, Decimal))
    else None
  }

  lemma {:induction false} NoLeadingZero(n: nat)
    ensures n != 0 ==> DecimalWord(n)[0] != '0'
    decreases n
  {
    if n >= 10 {
      NoLeadingZero(Quotient(n, Decimal));
    }
  }

  lemma DecimalParses(n: nat)
    ensures ParseNumber(DecimalWord(n)) == Some(n) && IsWord(DecimalWord(n)) && '#' !in DecimalWord(n)
  {
    var word := DecimalWord(n);
    DigitsValue(n, Decimal, false);
    NoLeadingZero(n);
    assert |word| > 1 ==> IsDigit(word[1]);
  }

  lemma HexParses(n: nat)
    ensures ParseNumber(HexWord(n)) == Some(n)
  {
    PaddedValue(n, Hex, false, 2);
    assert HexWord(n)[2..] == Padded(n, Hex, false, 2);
  }

  lemma HexDigitsAreWords(prefix: string, digits: string)
    requires IsWord(prefix) && '#' !in prefix && AllHexDigits(digits)
    ensures IsWord(prefix + digits) && '#' !in prefix + digits
  {
    forall i | 0 <= i < |prefix + digits| ensures !IsSpace((prefix + digits)[i]) && (prefix + digits)[i] != '#' {
      if |prefix| <= i {
        assert IsHexDigit(digits[i - |prefix|]);
      }
    }
  }

  // -- writing -----------------------------------------------------------------

  /** %-3d, then two spaces, then 0x%02x. */
  function StepText(step: Step): string
    requires step.keycode >= 0
  {
    DecimalWord(step.keycode) + Filler(step.keycode) + HexWord(step.mods as nat)
  }

  function Filler(keycode: nat): string {
    var width := |DecimalWord(keycode)|;
    Spaces((if width < 3 then 3 - width else 0) + 2)
  }

  predicate Printable(steps: seq<Step>) {
    forall i :: 0 <= i < |steps| ==> 0 <= steps[i].keycode <= 0xFFFF
  }

  /** The keystrokes, the ones after the first set off by two spaces, and the gap
      before the comment. */
  function StepsText(steps: seq<Step>): string
    requires Printable(steps)
  {
    if steps == [] then " " else StepText(steps[0]) + "  " + StepsText(steps[1..])
  }

  function CharWord(c: char): string { "U+" + Padded(c as nat, Hex, true, 4) }

  function Commented(text: string, comment: string): string { text + "#" + (" " + comment) }

  function EntryLine(c: char, steps: seq<Step>, comment: string): string
    requires Printable(steps)
  {
    Commented(CharWord(c) + "  " + StepsText(steps), comment)
  }

  function DeadLine(dead: Step, name: string): string
    requires 0 <= dead.keycode
  {
    Commented("dead" + "    " + (StepText(dead) + "   "), name)
  }

  /** The words the two kinds of comment are made of come from elsewhere. */
  datatype Wording = Wording(name: char -> string, describe: (char, seq<Note>) -> string)

  predicate PrintableDeads(deads: seq<Candidate>) {
    forall i :: 0 <= i < |deads| ==> 0 <= deads[i].dead.keycode
  }

  function DeadLines(deads: seq<Candidate>, words: Wording): (r: seq<string>)
    requires PrintableDeads(deads)
  {
    seq(|deads|, i requires 0 <= i < |deads| => DeadLine(deads[i].dead, words.name(deads[i].accent)))
  }

  predicate PrintableTable(table: Table, order: seq<char>) {
    forall i :: 0 <= i < |order| ==>
      order[i] in table && table[order[i]].steps != [] && Printable(table[order[i]].steps)
  }

  /** One character's line. */
  function TableLine(table: Table, c: char, words: Wording): string
    requires c in table && Printable(table[c].steps)
  {
    EntryLine(c, table[c].steps, words.describe(c, table[c].notes))
  }

  function EntryLines(table: Table, order: seq<char>, words: Wording): (r: seq<string>)
    requires PrintableTable(table, order)
  {
    seq(|order|, i requires 0 <= i < |order| => TableLine(table, order[i], words))
  }

  // -- reading -----------------------------------------------------------------

  function BeforeHash(line: string): string {
    if line == [] || line[0] == '#' then [] else [line[0]] + BeforeHash(line[1..])
  }

  function Fields(line: string): seq<string> { Words(BeforeHash(line)) }

  /** Pairs of keycode and modifiers, each in its range. */
  function ParseSteps(fields: seq<string>): Option<seq<Step>>
    decreases |fields|
  {
    if fields == [] then Some([])
    else if |fields| == 1 then None
    else
      match (ParseNumber(fields[0]), ParseNumber(fields[1]), ParseSteps(fields[2..]))
      case (Some(keycode), Some(mods), Some(rest)) =>
        if keycode <= 0xFFFF && mods <= 0xFF then Some([Step(keycode, mods as bv8)] + rest) else None
      case _ => None
  }

  /** A character, literal or by its code point. */
  function ParseChar(field: string): Option<char> {
    if |field| > 2 && (field[0] == 'U' || field[0] == 'u') && field[1] == '+' then
      if AllHexDigits(field[2..]) then
        var code := Value(field[2..], Hex);
        if code < 0xD800 || 0xE000 <= code < 0x11_0000 then Some(code as char) else None
      else None
    else if |field| == 1 then Some(field[0])
    else None
  }

  datatype Entry = Entry(c: char, steps: seq<Step>)

  /** A line of the file, for the layout: dead-key lines are none of its business. */
  function FieldsAsEntry(fields: seq<string>): Said<Entry> {
    if fields == [] || fields[0] == "dead" then Nothing
    else if |fields| < 3 then Nonsense
    else
      match (ParseChar(fields[0]), ParseSteps(fields[1..]))
      case (Some(c), Some(steps)) => Says(Entry(c, steps))
      case _ => Nonsense
  }

  function ReadEntry(line: string): Said<Entry> { FieldsAsEntry(Fields(line)) }

  /** The same line, for the accent probe: nothing but the dead keys. */
  function FieldsAsDead(fields: seq<string>): Said<(nat, nat)> {
    if fields == [] || fields[0] != "dead" then Nothing
    else if |fields| != 3 then Nonsense
    else
      match (ParseNumber(fields[1]), ParseNumber(fields[2]))
      case (Some(keycode), Some(mods)) => Says((keycode, mods))
      case _ => Nonsense
  }

  function ReadDead(line: string): Said<(nat, nat)> { FieldsAsDead(Fields(line)) }

  /** A character listed twice is what it was listed as last. */
  function MapOf(entries: seq<Entry>): map<char, seq<Step>> {
    if entries == [] then map[]
    else
      var last := entries[|entries| - 1];
      MapOf(entries[..|entries| - 1])[last.c := last.steps]
  }

  function LayoutOf(lines: seq<string>): Result<map<char, seq<Step>>> {
    match Collect(ReadEntry, lines)
    case Ok(entries) => Ok(MapOf(entries))
    case Bad(number) => Bad(number)
  }

  lemma MapOfSnoc(entries: seq<Entry>, e: Entry)
    ensures MapOf(entries + [e]) == MapOf(entries)[e.c := e.steps]
  {
    assert (entries + [e])[..|entries|] == entries;
  }

  /** The layout in a file, or the number of the first line that is nonsense. */
  method LoadLayout(file: string) returns (result: Result<map<char, seq<Step>>>)
    ensures result == LayoutOf(FileSplit(file))
  {
    var lines := FileSplit(file);
    var layout: map<char, seq<Step>> := map[];
    ghost var entries: seq<Entry> := [];
    for i := 0 to |lines|
      invariant Collect(ReadEntry, lines[..i]) == Ok(entries) && layout == MapOf(entries)
    {
      CollectNext(ReadEntry, lines, i);
      match ReadEntry(lines[i]) {
        case Nothing =>
        case Says(entry) =>
          layout := layout[entry.c := entry.steps];
          MapOfSnoc(entries, entry);
          entries := entries + [entry];
        case Nonsense =>
          BadStays(ReadEntry, lines, i + 1);
          return Bad(i + 1);
      }
    }
    assert lines[..|lines|] == lines;
    return Ok(layout);
  }

  /** The dead keys in the same file. */
  method LoadDeadKeys(file: string) returns (result: Result<seq<(nat, nat)>>)
    ensures result == Collect(ReadDead, FileSplit(file))
  {
    var lines := FileSplit(file);
    var deads: seq<(nat, nat)> := [];
    for i := 0 to |lines|
      invariant Collect(ReadDead, lines[..i]) == Ok(deads)
    {
      CollectNext(ReadDead, lines, i);
      match ReadDead(lines[i]) {
        case Nothing =>
        case Says(dead) => deads := deads + [dead];
        case Nonsense =>
          BadStays(ReadDead, lines, i + 1);
          return Bad(i + 1);
      }
    }
    assert lines[..|lines|] == lines;
    return Ok(deads);
  }

  // -- reading back what was written -------------------------------------------

  lemma {:induction false} HashCut(text: string, comment: string)
    requires '#' !in text
    ensures BeforeHash(text + "#" + comment) == text
  {
    var all := text + "#" + comment;
    if text == [] {
      assert all[0] == '#';
    } else {
      assert all[1..] == text[1..] + "#" + comment;
      HashCut(text[1..], comment);
    }
  }

  function StepWords(steps: seq<Step>): seq<string>
    requires Printable(steps)
  {
    if steps == [] then []
    else [DecimalWord(steps[0].keycode), HexWord(steps[0].mods as nat)] + StepWords(steps[1..])
  }

  lemma StepTaken(step: Step, gap: string, rest: string)
    requires step.keycode >= 0 && IsGap(gap)
    ensures Words(StepText(step) + gap + rest)
         == [DecimalWord(step.keycode), HexWord(step.mods as nat)] + Words(rest)
    ensures '#' !in StepText(step)
  {
    DecimalParses(step.keycode);
    HexDigitsAreWords("0x", Padded(step.mods as nat, Hex, false, 2));
    TwoWordsTaken(DecimalWord(step.keycode), Filler(step.keycode), HexWord(step.mods as nat), gap, rest);
  }

  lemma RegroupFour(a: string, b: string, c: string, d: string)
    ensures a + b + c + d == a + (b + c + d)
  {}

  lemma TwoWordsTaken(a: string, gap: string, b: string, gap': string, rest: string)
    requires IsWord(a) && IsGap(gap) && IsWord(b) && IsGap(gap')
    ensures Words(a + gap + b + gap' + rest) == [a, b] + Words(rest)
  {
    WordTaken(b, gap', rest);
    WordTaken(a, gap, b + gap' + rest);
    RegroupFour(a + gap, b, gap', rest);
    assert [a] + ([b] + Words(rest)) == [a, b] + Words(rest);
  }

  lemma {:induction false} StepsTaken(steps: seq<Step>)
    requires Printable(steps)
    ensures Words(StepsText(steps)) == StepWords(steps) && '#' !in StepsText(steps)
  {
    if steps == [] {
      GapSkipped(" ", []);
      assert " " + [] == " ";
    } else {
      StepsTaken(steps[1..]);
      StepTaken(steps[0], "  ", StepsText(steps[1..]));
    }
  }

  lemma ByteSurvives(mods: Modifiers)
    ensures mods as nat <= 0xFF && (mods as nat) as bv8 == mods
  {}

  lemma {:induction false} StepWordsParse(steps: seq<Step>)
    requires Printable(steps)
    ensures ParseSteps(StepWords(steps)) == Some(steps)
  {
    if steps != [] {
      var rest := steps[1..];
      StepWordsParse(rest);
      PairParses(steps[0], StepWords(rest), rest);
      StepWordsFirst(steps);
    }
  }

  lemma StepWordsFirst(steps: seq<Step>)
    requires Printable(steps) && steps != []
    ensures StepWords(steps) == [DecimalWord(steps[0].keycode), HexWord(steps[0].mods as nat)] + StepWords(steps[1..])
    ensures steps == [steps[0]] + steps[1..]
  {}

  lemma PairParses(step: Step, words: seq<string>, rest: seq<Step>)
    requires 0 <= step.keycode <= 0xFFFF && ParseSteps(words) == Some(rest)
    ensures ParseSteps([DecimalWord(step.keycode), HexWord(step.mods as nat)] + words) == Some([step] + rest)
  {
    DecimalParses(step.keycode);
    HexParses(step.mods as nat);
    ByteSurvives(step.mods);
    var all := [DecimalWord(step.keycode), HexWord(step.mods as nat)] + words;
    assert all[2..] == words;
  }

  lemma CharParses(c: char)
    ensures ParseChar(CharWord(c)) == Some(c) && IsWord(CharWord(c)) && '#' !in CharWord(c)
    ensures CharWord(c) != "dead"
  {
    var digits := Padded(c as nat, Hex, true, 4);
    PaddedValue(c as nat, Hex, true, 4);
    assert CharWord(c)[2..] == digits;
    HexDigitsAreWords("U+", digits);
    assert CharWord(c)[0] == 'U';
  }

  lemma EntryFields(c: char, steps: seq<Step>, comment: string)
    requires Printable(steps)
    ensures Fields(EntryLine(c, steps, comment)) == [CharWord(c)] + StepWords(steps)
  {
    CharParses(c);
    StepsTaken(steps);
    WordTaken(CharWord(c), "  ", StepsText(steps));
    CommentCut(CharWord(c) + "  " + StepsText(steps), comment);
  }

  lemma CommentCut(text: string, comment: string)
    requires '#' !in text
    ensures Fields(Commented(text, comment)) == Words(text)
  {
    HashCut(text, " " + comment);
  }

  /** An entry line says its character and its keystrokes, whatever its comment. */
  lemma EntryParses(c: char, steps: seq<Step>)
    requires Printable(steps) && steps != []
    ensures FieldsAsEntry([CharWord(c)] + StepWords(steps)) == Says(Entry(c, steps))
    ensures FieldsAsDead([CharWord(c)] + StepWords(steps)) == Nothing
  {
    var fields := [CharWord(c)] + StepWords(steps);
    CharParses(c);
    StepWordsParse(steps);
    assert fields[0] == CharWord(c) && fields[1..] == StepWords(steps);
  }

  lemma DeadTaken(rest: string)
    ensures Words("dead" + "    " + rest) == ["dead"] + Words(rest)
    ensures '#' !in "dead" + "    "
  {
    WordTaken("dead", "    ", rest);
  }

  lemma DeadFields(dead: Step, name: string)
    requires 0 <= dead.keycode
    ensures Fields(DeadLine(dead, name)) == ["dead", DecimalWord(dead.keycode), HexWord(dead.mods as nat)]
  {
    var rest := StepText(dead) + "   ";
    StepTaken(dead, "   ", []);
    assert rest + [] == rest;
    DeadTaken(rest);
    CommentCut("dead" + "    " + rest, name);
  }

  /** A dead line says its key, and is none of the layout's business. */
  lemma DeadParses(dead: Step)
    requires 0 <= dead.keycode
    ensures var fields := ["dead", DecimalWord(dead.keycode), HexWord(dead.mods as nat)];
            FieldsAsEntry(fields) == Nothing && FieldsAsDead(fields) == Says((dead.keycode, dead.mods as nat))
  {
    DecimalParses(dead.keycode);
    HexParses(dead.mods as nat);
  }

  /** A blank line, or one that is all comment. */
  predicate IsRemark(line: string) { line == [] || line[0] == '#' }

  lemma RemarkSaysNothing(line: string)
    requires IsRemark(line)
    ensures ReadEntry(line) == Nothing && ReadDead(line) == Nothing
  {
    assert BeforeHash(line) == [];
    assert Fields(line) == [];
  }

  // -- the file as a whole -----------------------------------------------------

  ghost predicate Silent<T>(read: Lines.Reader<T>, lines: seq<string>) {
    forall i :: 0 <= i < |lines| ==> read(lines[i]) == Nothing
  }

  /** Lines that say something, wherever they stand among lines that do not. */
  lemma SaidAmongSilence<T>(read: Lines.Reader<T>, before: seq<string>, lines: seq<string>, after: seq<string>,
      items: seq<T>)
    requires Silent(read, before) && Silent(read, after)
    requires |lines| == |items| && forall i :: 0 <= i < |lines| ==> read(lines[i]) == Says(items[i])
    ensures Collect(read, before + lines + after) == Ok(items)
  {
    CollectAll(read, lines, items);
    SilenceBefore(read, before, lines, items);
    SilenceAfter(read, before + lines, after, items);
  }

  lemma SilenceBefore<T>(read: Lines.Reader<T>, before: seq<string>, lines: seq<string>, items: seq<T>)
    requires Silent(read, before) && Collect(read, lines) == Ok(items)
    ensures Collect(read, before + lines) == Ok(items)
  {
    CollectNothing(read, before);
    CollectConcat(read, before, lines);
    assert [] + items == items;
  }

  lemma SilenceAfter<T>(read: Lines.Reader<T>, lines: seq<string>, after: seq<string>, items: seq<T>)
    requires Silent(read, after) && Collect(read, lines) == Ok(items)
    ensures Collect(read, lines + after) == Ok(items)
  {
    CollectNothing(read, after);
    CollectConcat(read, lines, after);
    assert items + [] == items;
  }

  function DeadPairs(deads: seq<Candidate>): (r: seq<(nat, nat)>)
    requires PrintableDeads(deads)
    ensures |r| == |deads|
    ensures forall i :: 0 <= i < |r| ==> r[i] == (deads[i].dead.keycode, deads[i].dead.mods as nat)
  {
    if deads == [] then []
    else
      var n := |deads| - 1;
      DeadPairs(deads[..n]) + [(deads[n].dead.keycode, deads[n].dead.mods as nat)]
  }

  ghost predicate Listed(table: Table, order: seq<char>) {
    forall i :: 0 <= i < |order| ==> order[i] in table
  }

  ghost function EntriesOf(table: Table, order: seq<char>): (r: seq<Entry>)
    requires Listed(table, order)
    ensures |r| == |order|
    ensures forall i :: 0 <= i < |r| ==> r[i] == Entry(order[i], table[order[i]].steps)
  {
    seq(|order|, i requires 0 <= i < |order| => Entry(order[i], table[order[i]].steps))
  }

  lemma {:induction false} MapOfEntries(table: Table, order: seq<char>)
    requires Listed(table, order)
    ensures forall c :: c in MapOf(EntriesOf(table, order)) <==> c in order
    ensures forall c :: c in MapOf(EntriesOf(table, order)) ==> MapOf(EntriesOf(table, order))[c] == table[c].steps
    decreases |order|
  {
    if order != [] {
      var n := |order| - 1;
      MapOfEntries(table, order[..n]);
      assert EntriesOf(table, order)[..n] == EntriesOf(table, order[..n]);
      assert order == order[..n] + [order[n]];
    }
  }

  /** The file: remarks, the dead keys, remarks, and an entry for each character. */
  function FileLines(table: Table, order: seq<char>, deads: seq<Candidate>,
                           header: seq<string>, notes: seq<string>, words: Wording): seq<string>
    requires PrintableTable(table, order)
    requires PrintableDeads(deads)
  {
    header + DeadLines(deads, words) + (notes + EntryLines(table, order, words))
  }

  // -- writing it out ----------------------------------------------------------

  method RenderDeads(deads: seq<Candidate>, words: Wording) returns (lines: seq<string>)
    requires PrintableDeads(deads)
    ensures lines == DeadLines(deads, words)
  {
    lines := [];
    for i := 0 to |deads|
      invariant lines == DeadLines(deads, words)[..i]
    {
      lines := lines + [DeadLine(deads[i].dead, words.name(deads[i].accent))];
    }
  }

  method RenderEntries(table: Table, order: seq<char>, words: Wording) returns (lines: seq<string>)
    requires PrintableTable(table, order)
    ensures lines == EntryLines(table, order, words)
  {
    lines := [];
    for i := 0 to |order|
      invariant lines == EntryLines(table, order, words)[..i]
    {
      lines := lines + [TableLine(table, order[i], words)];
    }
  }

  method Render(table: Table, order: seq<char>, deads: seq<Candidate>,
                header: seq<string>, notes: seq<string>, words: Wording) returns (text: string)
    requires PrintableTable(table, order)
    requires PrintableDeads(deads)
    ensures text == Unlines(FileLines(table, order, deads, header, notes, words))
  {
    var deadLines := RenderDeads(deads, words);
    var entryLines := RenderEntries(table, order, words);
    text := Unlines(header + deadLines + (notes + entryLines));
  }

  /** No comment runs on into a line of its own. */
  ghost predicate OneLineEach(table: Table, order: seq<char>, deads: seq<Candidate>,
                              header: seq<string>, notes: seq<string>, words: Wording)
    requires PrintableTable(table, order)
  {
    && (forall i :: 0 <= i < |header| ==> OneLine(header[i]))
    && (forall i :: 0 <= i < |notes| ==> OneLine(notes[i]))
    && (forall i :: 0 <= i < |deads| ==> OneLine(words.name(deads[i].accent)))
    && (forall i :: 0 <= i < |order| ==> OneLine(words.describe(order[i], table[order[i]].notes)))
  }

  lemma WordIsOneLine(word: string)
    requires IsWord(word)
    ensures OneLine(word)
  {}

  lemma StepTextIsOneLine(step: Step)
    requires step.keycode >= 0
    ensures OneLine(StepText(step))
  {
    DecimalParses(step.keycode);
    HexDigitsAreWords("0x", Padded(step.mods as nat, Hex, false, 2));
    WordIsOneLine(DecimalWord(step.keycode));
    WordIsOneLine(HexWord(step.mods as nat));
  }

  lemma {:induction false} StepsTextIsOneLine(steps: seq<Step>)
    requires Printable(steps)
    ensures OneLine(StepsText(steps))
  {
    if steps != [] {
      StepTextIsOneLine(steps[0]);
      StepsTextIsOneLine(steps[1..]);
    }
  }

  lemma DeadLineIsOneLine(dead: Step, name: string)
    requires 0 <= dead.keycode && OneLine(name)
    ensures OneLine(DeadLine(dead, name))
  {
    StepTextIsOneLine(dead);
  }

  lemma EntryLineIsOneLine(c: char, steps: seq<Step>, comment: string)
    requires Printable(steps) && OneLine(comment)
    ensures OneLine(EntryLine(c, steps, comment))
  {
    CharParses(c);
    WordIsOneLine(CharWord(c));
    StepsTextIsOneLine(steps);
  }

  lemma LinesAreLines(table: Table, order: seq<char>, deads: seq<Candidate>,
                      header: seq<string>, notes: seq<string>, words: Wording)
    requires PrintableTable(table, order)
    requires PrintableDeads(deads)
    requires OneLineEach(table, order, deads, header, notes, words)
    ensures var lines := FileLines(table, order, deads, header, notes, words);
            forall i :: 0 <= i < |lines| ==> OneLine(lines[i])
  {
    forall i | 0 <= i < |deads| ensures OneLine(DeadLines(deads, words)[i]) {
      DeadLineIsOneLine(deads[i].dead, words.name(deads[i].accent));
    }
    forall i | 0 <= i < |order| ensures OneLine(EntryLines(table, order, words)[i]) {
      EntryLineIsOneLine(order[i], table[order[i]].steps, words.describe(order[i], table[order[i]].notes));
    }
    AllOneLine(header, DeadLines(deads, words), notes, EntryLines(table, order, words));
  }

  lemma AllOneLine(a: seq<string>, b: seq<string>, c: seq<string>, d: seq<string>)
    requires forall i :: 0 <= i < |a| ==> OneLine(a[i])
    requires forall i :: 0 <= i < |b| ==> OneLine(b[i])
    requires forall i :: 0 <= i < |c| ==> OneLine(c[i])
    requires forall i :: 0 <= i < |d| ==> OneLine(d[i])
    ensures var all := a + b + (c + d); forall i :: 0 <= i < |all| ==> OneLine(all[i])
  {}

  /** Whatever the comments say and in whatever order the characters are listed, the
      file reads back as the table's keystrokes and the dead keys in their order. */
  lemma LayoutFileRoundTrip(table: Table, order: seq<char>, deads: seq<Candidate>,
                            header: seq<string>, notes: seq<string>, words: Wording)
    requires forall c :: c in table <==> c in order
    requires PrintableTable(table, order)
    requires PrintableDeads(deads)
    requires forall i :: 0 <= i < |header| ==> IsRemark(header[i])
    requires forall i :: 0 <= i < |notes| ==> IsRemark(notes[i])
    requires OneLineEach(table, order, deads, header, notes, words)
    ensures var lines := FileSplit(Unlines(FileLines(table, order, deads, header, notes, words)));
            && LayoutOf(lines) == Ok(map c | c in table :: table[c].steps)
            && Collect(ReadDead, lines) == Ok(DeadPairs(deads))
  {
    LinesAreLines(table, order, deads, header, notes, words);
    FileSplitUnlines(FileLines(table, order, deads, header, notes, words));
    LinesRoundTrip(table, order, deads, header, notes, words);
  }

  /** The corner that OneLineEach excludes: a carriage return in a comment, as from the
      name of a capture in the header, starts a line that is no comment, and the file
      is refused for it. */
  lemma CarriageReturnIsNonsense()
    ensures IsRemark("#\rb")
    ensures FileSplit(Unlines(["#\rb"])) == ["#", "b"]
    ensures LayoutOf(FileSplit(Unlines(["#\rb"]))) == Bad(2)
  {
    UnlinesOne("#\rb");
    assert "#\rb" + "\n" == "#" + (['\r'] + "b\n") && "b\n" == "b" + (['\n'] + []);
    FileSplitFirst("#", '\r', "b\n");
    FileSplitFirst("b", '\n', []);
    LetterIsWord('b');
    RemarkThenWord("#", "b");
  }

  lemma LetterIsWord(c: char)
    requires 'a' <= c <= 'z'
    ensures IsWord([c]) && '#' !in [c] && [c] != "dead"
  {
    assert !IsSpace(c);
  }

  lemma RemarkThenWord(remark: string, word: string)
    requires IsRemark(remark) && IsWord(word) && '#' !in word && word != "dead"
    ensures LayoutOf([remark, word]) == Bad(2)
  {
    RemarkSaysNothing(remark);
    OneWordIsNonsense(word);
    CollectSnoc(ReadEntry, [], remark);
    CollectSnoc(ReadEntry, [remark], word);
    assert [] + [remark] == [remark] && [remark] + [word] == [remark, word];
  }

  lemma OneWordIsNonsense(word: string)
    requires IsWord(word) && '#' !in word && word != "dead"
    ensures ReadEntry(word) == Nonsense
  {
    NothingCut(word);
    WordEndAt(word, []);
    assert word + [] == word && word[..|word|] == word && word[|word|..] == [];
    assert !IsSpace(word[0]) && Words([]) == [];
    assert Words(word) == [word] + [] == [word];
  }

  lemma {:induction false} NothingCut(text: string)
    requires '#' !in text
    ensures BeforeHash(text) == text
  {
    if text != [] {
      assert text[0] in text;
      NothingCut(text[1..]);
    }
  }

  lemma LinesRoundTrip(table: Table, order: seq<char>, deads: seq<Candidate>,
                       header: seq<string>, notes: seq<string>, words: Wording)
    requires forall c :: c in table <==> c in order
    requires PrintableTable(table, order)
    requires PrintableDeads(deads)
    requires forall i :: 0 <= i < |header| ==> IsRemark(header[i])
    requires forall i :: 0 <= i < |notes| ==> IsRemark(notes[i])
    ensures var lines := FileLines(table, order, deads, header, notes, words);
            && LayoutOf(lines) == Ok(map c | c in table :: table[c].steps)
            && Collect(ReadDead, lines) == Ok(DeadPairs(deads))
  {
    RemarksAreSilent(header);
    RemarksAreSilent(notes);
    DeadLinesRead(deads, words);
    EntryLinesRead(table, order, words);
    FileReads(ReadDead, header, DeadLines(deads, words), notes, EntryLines(table, order, words), DeadPairs(deads));
    LayoutReads(ReadEntry, header, DeadLines(deads, words), notes, EntryLines(table, order, words),
                EntriesOf(table, order));
    EntriesMakeTable(table, order);
  }

  lemma EntriesMakeTable(table: Table, order: seq<char>)
    requires forall c :: c in table <==> c in order
    ensures Listed(table, order)
    ensures MapOf(EntriesOf(table, order)) == map c | c in table :: table[c].steps
  {
    assert Listed(table, order) by {
      assert forall i :: 0 <= i < |order| ==> order[i] in order;
    }
    MapOfEntries(table, order);
  }

  lemma FileReads<T>(read: Lines.Reader<T>, header: seq<string>, dead: seq<string>, notes: seq<string>,
      entry: seq<string>, items: seq<T>)
    requires Silent(read, header) && Silent(read, notes) && Silent(read, entry)
    requires |dead| == |items| && forall i :: 0 <= i < |dead| ==> read(dead[i]) == Says(items[i])
    ensures Collect(read, header + dead + (notes + entry)) == Ok(items)
  {
    SilentTogether(read, notes, entry);
    SaidAmongSilence(read, header, dead, notes + entry, items);
  }

  lemma LayoutReads<T>(read: Lines.Reader<T>, header: seq<string>, dead: seq<string>, notes: seq<string>,
      entry: seq<string>, items: seq<T>)
    requires Silent(read, header) && Silent(read, dead) && Silent(read, notes)
    requires |entry| == |items| && forall i :: 0 <= i < |entry| ==> read(entry[i]) == Says(items[i])
    ensures Collect(read, header + dead + (notes + entry)) == Ok(items)
  {
    SilentTogether(read, header, dead);
    SilentTogether(read, header + dead, notes);
    var nothing: seq<string> := [];
    SaidAmongSilence(read, header + dead + notes, entry, nothing, items);
    Regroup(header + dead, notes, entry);
    assert header + dead + notes + entry + nothing == header + dead + notes + entry;
  }

  lemma SilentTogether<T>(read: Lines.Reader<T>, a: seq<string>, b: seq<string>)
    requires Silent(read, a) && Silent(read, b)
    ensures Silent(read, a + b)
  {}

  lemma RemarksAreSilent(lines: seq<string>)
    requires forall i :: 0 <= i < |lines| ==> IsRemark(lines[i])
    ensures Silent(ReadEntry, lines) && Silent(ReadDead, lines)
  {
    forall i | 0 <= i < |lines| ensures ReadEntry(lines[i]) == Nothing && ReadDead(lines[i]) == Nothing {
      RemarkSaysNothing(lines[i]);
    }
  }

  lemma DeadLinesRead(deads: seq<Candidate>, words: Wording)
    requires PrintableDeads(deads)
    ensures Silent(ReadEntry, DeadLines(deads, words))
    ensures forall i :: 0 <= i < |deads| ==> ReadDead(DeadLines(deads, words)[i]) == Says(DeadPairs(deads)[i])
  {
    forall i | 0 <= i < |deads|
      ensures ReadEntry(DeadLines(deads, words)[i]) == Nothing
      ensures ReadDead(DeadLines(deads, words)[i]) == Says(DeadPairs(deads)[i])
    {
      DeadFields(deads[i].dead, words.name(deads[i].accent));
      DeadParses(deads[i].dead);
    }
  }

  lemma EntryLinesRead(table: Table, order: seq<char>, words: Wording)
    requires PrintableTable(table, order)
    ensures Silent(ReadDead, EntryLines(table, order, words))
    ensures forall i :: 0 <= i < |order| ==>
      ReadEntry(EntryLines(table, order, words)[i]) == Says(EntriesOf(table, order)[i])
  {
    forall i | 0 <= i < |order|
      ensures ReadDead(EntryLines(table, order, words)[i]) == Nothing
      ensures ReadEntry(EntryLines(table, order, words)[i]) == Says(EntriesOf(table, order)[i])
    {
      var c := order[i];
      EntryFields(c, table[c].steps, words.describe(c, table[c].notes));
      EntryParses(c, table[c].steps);
    }
  }
}
