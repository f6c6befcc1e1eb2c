/** The parts of string handling the readers lean on: breaking a mail into lines at
    everything that breaks a line, breaking a file into lines at universal newlines, and
    stripping blanks from both ends.  Each comes with what the round trips need of it:
    whole lines come apart from whatever follows them, lines written are lines read,
    and there is nothing to strip from a line that starts and ends with something. */
module Text {
  import opened Seqs


  /** What splitlines() breaks at: line feed, carriage return, vertical tab, form
      feed, the file, group and record separators, and the three Unicode ones. */
  predicate IsLineBreak(c: char) {
    || '\n' <= c <= '\r'
    || '\U{1C}' <= c <= '\U{1E}'
    || c == '\U{85}'
    || '\U{2028}' <= c <= '\U{2029}'
  }

  /** What isspace() accepts and strip() removes: every line break, and the blanks. */
  predicate IsSpace(c: char) {
    || IsLineBreak(c)
    || c == ' ' || c == '\t' || c == '\U{1F}' || c == '\U{A0}' || c == '\U{1680}'
    || '\U{2000}' <= c <= '\U{200A}'
    || c == '\U{202F}' || c == '\U{205F}' || c == '\U{3000}'
  }

  predicate NoBreak(text: string) {
    forall i :: 0 <= i < |text| ==> !IsLineBreak(text[i])
  }

  /** How far the first line reaches, its terminator not included. */
  function LineEnd(text: string): (n: nat)
    ensures n <= |text|
    ensures n < |text| ==> IsLineBreak(text[n])
  {
    if text == [] || IsLineBreak(text[0]) then 0 else 1 + LineEnd(text[1..])
  }

  function FirstLine(text: string): string { text[..LineEnd(text)] }

  /** What follows the first line; a carriage return and its line feed are one
      terminator. */
  function AfterLine(text: string): (rest: string)
    ensures text != [] ==> |rest| < |text|
  {
    var n := LineEnd(text);
    if n == |text| then []
    else if text[n] == '\r' && n + 1 < |text| && text[n + 1] == '\n' then text[n + 2..]
    else text[n + 1..]
  }

  /** The lines, without their terminators; nothing follows the last one. */
  function SplitLines(text: string): seq<string>
    decreases |text|
  {
    if text == [] then [] else [FirstLine(text)] + SplitLines(AfterLine(text))
  }

  lemma {:induction false} LineEndAt(line: string, rest: string)
    requires NoBreak(line) && (rest == [] || IsLineBreak(rest[0]))
    ensures LineEnd(line + rest) == |line|
  {
    if line == [] {
      assert line + rest == rest;
    } else {
      assert (line + rest)[1..] == line[1..] + rest;
      LineEndAt(line[1..], rest);
    }
  }

  lemma SplitFirstLine(line: string, rest: string)
    requires NoBreak(line)
    ensures SplitLines(line + "\n" + rest) == [line] + SplitLines(rest)
  {
    var text := line + "\n" + rest;
    assert text == line + ("\n" + rest);
    LineEndAt(line, "\n" + rest);
    assert FirstLine(text) == line;
    assert text[|line|] == '\n';
    assert AfterLine(text) == rest;
  }

  predicate EndsLine(text: string) {
    text == [] || text[|text| - 1] == '\n'
  }

  /** Whole lines come apart from what follows them. */
  lemma {:induction false} SplitConcat(a: string, b: string)
    requires EndsLine(a)
    ensures SplitLines(a + b) == SplitLines(a) + SplitLines(b)
    decreases |a|
  {
    if a == [] {
      assert a + b == b;
    } else {
      FirstLineOfConcat(a, b);
      var rest := AfterLine(a);
      SplitConcat(rest, b);
      Regroup([FirstLine(a)], SplitLines(rest), SplitLines(b));
    }
  }

  lemma FirstLineOfConcat(a: string, b: string)
    requires a != [] && EndsLine(a)
    ensures FirstLine(a + b) == FirstLine(a)
    ensures AfterLine(a + b) == AfterLine(a) + b
    ensures EndsLine(AfterLine(a))
  {
    LineEndStops(a);
    var n := LineEnd(a);
    LineEndPrefix(a, b);
    assert (a + b)[..n] == a[..n];
    assert (a + b)[n + 1..] == a[n + 1..] + b;
    if n + 1 < |a| {
      assert (a + b)[n + 2..] == a[n + 2..] + b;
    }
  }

  lemma {:induction false} LineEndStops(a: string)
    requires a != [] && EndsLine(a)
    ensures LineEnd(a) < |a|
  {
    if !IsLineBreak(a[0]) {
      LineEndStops(a[1..]);
    }
  }

  lemma {:induction false} LineEndPrefix(a: string, b: string)
    requires LineEnd(a) < |a|
    ensures LineEnd(a + b) == LineEnd(a)
  {
    if !IsLineBreak(a[0]) {
      assert (a + b)[1..] == a[1..] + b;
      LineEndPrefix(a[1..], b);
    }
  }

  // -- lines put together ------------------------------------------------------

  function Unlines(lines: seq<string>): string {
    if lines == [] then [] else Unlines(lines[..|lines| - 1]) + lines[|lines| - 1] + "\n"
  }

  lemma {:induction false} UnlinesConcat(a: seq<string>, b: seq<string>)
    ensures Unlines(a + b) == Unlines(a) + Unlines(b)
    decreases b
  {
    if b == [] {
      assert a + b == a;
    } else {
      var front := b[..|b| - 1];
      assert (a + b)[..|a + b| - 1] == a + front;
      UnlinesConcat(a, front);
    }
  }

  lemma UnlinesOne(line: string)
    ensures Unlines([line]) == line + "\n"
  {
    assert [line][..0] == [];
    assert [] + line + "\n" == line + "\n";
  }

  lemma UnlinesSnoc(lines: seq<string>, line: string)
    ensures Unlines(lines + [line]) == Unlines(lines) + (line + "\n")
  {
    assert (lines + [line])[..|lines|] == lines;
    assert Unlines(lines) + line + "\n" == Unlines(lines) + (line + "\n");
  }

  /** Where the first line feed is; the length where there is none. */
  function NewlineAt(text: string): (n: nat)
    ensures n <= |text|
    ensures n < |text| ==> text[n] == '\n'
  {
    if text == [] || text[0] == '\n' then 0 else 1 + NewlineAt(text[1..])
  }

  lemma {:induction false} NewlineAfter(line: string, rest: string)
    requires '\n' !in line
    ensures NewlineAt(line + ("\n" + rest)) == |line|
  {
    if line == [] {
      assert line + ("\n" + rest) == "\n" + rest;
    } else {
      assert (line + ("\n" + rest))[1..] == line[1..] + ("\n" + rest);
      NewlineAfter(line[1..], rest);
    }
  }

  /** What ends a line of an open text file: universal newlines. */
  predicate EndsFileLine(c: char) { c == '\n' || c == '\r' }

  /** Nothing in it ends a line of a file. */
  predicate OneLine(text: string) {
    forall i :: 0 <= i < |text| ==> !EndsFileLine(text[i])
  }

  /** How far the first line of a file reaches, its terminator not included. */
  function FileLineEnd(text: string): (n: nat)
    ensures n <= |text|
    ensures n < |text| ==> EndsFileLine(text[n])
    ensures OneLine(text[..n])
  {
    if text == [] || EndsFileLine(text[0]) then 0
    else
      var n := FileLineEnd(text[1..]);
      assert text[..1 + n] == [text[0]] + text[1..][..n];
      1 + n
  }

  /** What follows the first line; a carriage return and its line feed are one
      terminator. */
  function AfterFileLine(text: string): (rest: string)
    ensures text != [] ==> |rest| < |text|
  {
    var n := FileLineEnd(text);
    if n == |text| then []
    else if text[n] == '\r' && n + 1 < |text| && text[n + 1] == '\n' then text[n + 2..]
    else text[n + 1..]
  }

  /** The lines of an open text file, without their terminators. */
  function FileSplit(text: string): (lines: seq<string>)
    ensures forall i :: 0 <= i < |lines| ==> OneLine(lines[i])
    decreases |text|
  {
    if text == [] then [] else [text[..FileLineEnd(text)]] + FileSplit(AfterFileLine(text))
  }

  lemma {:induction false} FileLineEndAt(line: string, end: char, rest: string)
    requires OneLine(line) && EndsFileLine(end)
    ensures FileLineEnd(line + ([end] + rest)) == |line|
  {
    if line == [] {
      assert line + ([end] + rest) == [end] + rest;
    } else {
      assert (line + ([end] + rest))[1..] == line[1..] + ([end] + rest);
      FileLineEndAt(line[1..], end, rest);
    }
  }

  /** A line feed ends a line, and so does a carriage return that none follows. */
  lemma FileSplitFirst(line: string, end: char, rest: string)
    requires OneLine(line) && EndsFileLine(end) && (end == '\r' ==> rest == [] || rest[0] != '\n')
    ensures FileSplit(line + ([end] + rest)) == [line] + FileSplit(rest)
  {
    var text := line + ([end] + rest);
    FileLineEndAt(line, end, rest);
    assert text[..|line|] == line && text[|line|] == end && text[|line| + 1..] == rest;
  }

  /** Lines written out are the lines read back exactly when none of them holds
      anything that ends a line. */
  lemma FileSplitUnlines(lines: seq<string>)
    ensures FileSplit(Unlines(lines)) == lines <==> forall i :: 0 <= i < |lines| ==> OneLine(lines[i])
  {
    if forall i :: 0 <= i < |lines| ==> OneLine(lines[i]) {
      OneLinesReadBack(lines);
    }
  }

  lemma {:induction false} OneLinesReadBack(lines: seq<string>)
    requires forall i :: 0 <= i < |lines| ==> OneLine(lines[i])
    ensures FileSplit(Unlines(lines)) == lines
    decreases |lines|
  {
    if lines != [] {
      var first, rest := lines[0], lines[1..];
      assert lines == [first] + rest;
      UnlinesConcat([first], rest);
      UnlinesOne(first);
      assert first + "\n" + Unlines(rest) == first + ("\n" + Unlines(rest));
      FileSplitFirst(first, '\n', Unlines(rest));
      OneLinesReadBack(rest);
    }
  }

  // -- strip -------------------------------------------------------------------

  function StripLeft(text: string): string {
    if text != [] && IsSpace(text[0]) then StripLeft(text[1..]) else text
  }

  function StripRight(text: string): string {
    if text != [] && IsSpace(text[|text| - 1]) then StripRight(text[..|text| - 1]) else text
  }

  function Strip(text: string): string {
    StripRight(StripLeft(text))
  }

  /** Nothing to remove from a line that starts and ends with something. */
  lemma StripNothing(text: string)
    requires text == [] || (!IsSpace(text[0]) && !IsSpace(text[|text| - 1]))
    ensures Strip(text) == text
  {}
}
