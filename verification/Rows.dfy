/** Reading one row of a capture: fields that a doubled marker delimits. */
module Rows {
  import opened Wrappers

  /** One probed key as read back: what it produced, and whether it swallowed the
      space typed after it. */
  datatype Entry = Entry(output: Option<string>, dead: bool)

  const MISSING: Entry := Entry(None, false)

  // -- splitting on the doubled marker -----------------------------------------

  predicate DoubledAt(text: string, m: char, i: nat) {
    i + 1 < |text| && text[i] == m && text[i + 1] == m
  }

  /** Where the leftmost doubled marker starts; the length where there is none. */
  function Cut(text: string, m: char): (r: nat)
    ensures r <= |text|
    ensures r < |text| ==> DoubledAt(text, m, r)
    ensures forall i: nat :: i < r ==> !DoubledAt(text, m, i)
  {
    if text == [] then 0
    else if DoubledAt(text, m, 0) then 0
    else
      assert forall i: nat :: 0 < i ==> DoubledAt(text, m, i) == DoubledAt(text[1..], m, i - 1);
      1 + Cut(text[1..], m)
  }

  /** text.split(marker * 2): leftmost first, and never overlapping. */
  function SplitOn(text: string, m: char): (r: seq<string>)
    ensures r != []
    decreases |text|
  {
    var c := Cut(text, m);
    if c == |text| then [text] else [text[..c]] + SplitOn(text[c + 2..], m)
  }

  /** What may stand before a doubled marker without moving it. */
  ghost predicate Clean(field: string, m: char) {
    && (forall i: nat :: !DoubledAt(field, m, i))
    && (field != [] ==> field[|field| - 1] != m)
  }

  /** A row as the phone shows it. */
  function Joined(fields: seq<string>, m: char): string {
    if fields == [] then [] else fields[0] + [m, m] + Joined(fields[1..], m)
  }

  lemma CutAfterField(field: string, m: char, rest: string)
    ensures Clean(field, m) <==> Cut(field + [m, m] + rest, m) == |field|
    ensures Cut(field + [m, m] + rest, m) <= |field|
  {
    var text := field + [m, m] + rest;
    assert DoubledAt(text, m, |field|);
    assert forall i: nat :: i + 1 < |field| ==> DoubledAt(text, m, i) == DoubledAt(field, m, i);
    if field != [] {
      assert DoubledAt(text, m, |field| - 1) == (field[|field| - 1] == m);
    }
    if Cut(text, m) == |field| {
      assert forall i: nat :: i < |field| ==> !DoubledAt(text, m, i);
      assert forall i: nat :: i + 1 < |field| ==> !DoubledAt(field, m, i);
    }
  }

  lemma SplitStep(field: string, m: char, rest: string)
    ensures Clean(field, m) ==> SplitOn(field + [m, m] + rest, m) == [field] + SplitOn(rest, m)
    ensures !Clean(field, m) ==> |SplitOn(field + [m, m] + rest, m)[0]| < |field|
  {
    var text := field + [m, m] + rest;
    CutAfterField(field, m, rest);
    assert text[..|field|] == field;
    assert text[|field| + 2..] == rest;
  }

  ghost predicate AllClean(fields: seq<string>, m: char) {
    forall i :: 0 <= i < |fields| ==> Clean(fields[i], m)
  }

  lemma AllCleanStep(fields: seq<string>, m: char)
    requires fields != []
    ensures AllClean(fields, m) <==> Clean(fields[0], m) && AllClean(fields[1..], m)
  {
    assert forall i :: 1 <= i < |fields| ==> fields[i] == fields[1..][i - 1];
  }

  lemma SameTail(head: string, a: seq<string>, b: seq<string>)
    ensures [head] + a == [head] + b <==> a == b
  {
    assert ([head] + a)[1..] == a && ([head] + b)[1..] == b;
  }

  /** The fields come back exactly when none of them holds a doubled marker or
      ends in one: not even a result equal to the marker spoils it. */
  lemma {:induction false} SplitInvertsJoin(fields: seq<string>, m: char)
    ensures SplitOn(Joined(fields, m), m) == fields + [[]] <==> AllClean(fields, m)
  {
    if fields != [] {
      var head, rest := fields[0], fields[1..];
      SplitStep(head, m, Joined(rest, m));
      SplitInvertsJoin(rest, m);
      AllCleanStep(fields, m);
      assert fields + [[]] == [head] + (rest + [[]]);
      SameTail(head, SplitOn(Joined(rest, m), m), rest + [[]]);
    }
  }

  // -- decoding ----------------------------------------------------------------

  function DecodeField(field: string): Entry {
    if field == " " then MISSING
    else if field != [] && field[|field| - 1] == ' ' then Entry(Some(field[..|field| - 1]), false)
    else if field != [] then Entry(Some(field), true)
    else MISSING
  }

  function Decoded(fields: seq<string>): (r: seq<Entry>)
    ensures |r| == |fields|
    ensures forall i :: 0 <= i < |r| ==> r[i] == DecodeField(fields[i])
  {
    if fields == [] then [] else [DecodeField(fields[0])] + Decoded(fields[1..])
  }

  function Padding(n: nat): (r: seq<Entry>)
    ensures |r| == n && forall i :: 0 <= i < n ==> r[i] == MISSING
  {
    if n == 0 then [] else [MISSING] + Padding(n - 1)
  }

  function Taken(fields: seq<string>, count: nat): seq<string> {
    if |fields| <= count then fields else fields[..count]
  }

  /** One row as `count` entries, the ones it ran out of reading as nothing. */
  function Row(text: string, count: nat, m: char): (r: seq<Entry>)
    ensures |r| == count
  {
    var fields := Taken(SplitOn(text, m), count);
    Decoded(fields) + Padding(count - |fields|)
  }

  lemma DecodedSnoc(fields: seq<string>, i: nat)
    requires i < |fields|
    ensures Decoded(fields[..i + 1]) == Decoded(fields[..i]) + [DecodeField(fields[i])]
  {}

  method ReadRow(text: string, count: nat, m: char) returns (entries: seq<Entry>)
    ensures entries == Row(text, count, m)
  {
    var fields := Taken(SplitOn(text, m), count);
    entries := [];
    for i := 0 to |fields|
      invariant entries == Decoded(fields[..i])
    {
      var entry := ReadField(fields[i]);
      DecodedSnoc(fields, i);
      entries := entries + [entry];
    }
    assert fields[..|fields|] == fields;
    entries := entries + Padding(count - |entries|);
  }

  method ReadField(field: string) returns (entry: Entry)
    ensures entry == DecodeField(field)
  {
    if field == " " {
      entry := Entry(None, false);
    } else if field != [] && field[|field| - 1] == ' ' {
      entry := Entry(Some(field[..|field| - 1]), false);
    } else if field != [] {
      entry := Entry(Some(field), true);
    } else {
      entry := Entry(None, false);
    }
  }

  // -- encoding ----------------------------------------------------------------

  /** How a key's answer looks on the screen, its settling space included. */
  function FieldOf(entry: Entry): string {
    match entry.output
    case None => " "
    case Some(output) => if entry.dead then output else output + " "
  }

  /** An answer a phone can give: something came, and a dead key is one that
      really swallowed its space. */
  predicate Answer(entry: Entry) {
    match entry.output
    case None => !entry.dead
    case Some(output) => output != [] && (entry.dead ==> output[|output| - 1] != ' ')
  }

  function Fields(entries: seq<Entry>): (r: seq<string>)
    ensures |r| == |entries|
    ensures forall i :: 0 <= i < |r| ==> r[i] == FieldOf(entries[i])
  {
    if entries == [] then [] else [FieldOf(entries[0])] + Fields(entries[1..])
  }

  lemma DecodeInvertsEncode(entry: Entry)
    requires Answer(entry)
    ensures DecodeField(FieldOf(entry)) == entry
  {
    match entry.output
    case None =>
    case Some(output) =>
      assert (output + " ")[..|output|] == output;
      assert |output + " "| > 1;
  }

  lemma DecodedFields(entries: seq<Entry>)
    requires forall i :: 0 <= i < |entries| ==> Answer(entries[i])
    ensures Decoded(Fields(entries)) == entries
  {
    forall i | 0 <= i < |entries| ensures DecodeField(Fields(entries)[i]) == entries[i] {
      DecodeInvertsEncode(entries[i]);
    }
  }

  lemma {:induction false} DecodedConcat(a: seq<string>, b: seq<string>)
    ensures Decoded(a + b) == Decoded(a) + Decoded(b)
  {}

  /** Row decoding inverts row encoding: every entry in its place, and nothing
      where the row ran out. */
  lemma RowRoundTrip(entries: seq<Entry>, count: nat, m: char)
    requires |entries| <= count
    requires forall i :: 0 <= i < |entries| ==> Answer(entries[i]) && Clean(FieldOf(entries[i]), m)
    ensures Row(Joined(Fields(entries), m), count, m) == entries + Padding(count - |entries|)
  {
    var fields := Fields(entries);
    assert AllClean(fields, m);
    SplitInvertsJoin(fields, m);
    DecodedFields(entries);
    if |entries| < count {
      DecodedConcat(fields, [[]]);
      assert Taken(fields + [[]], count) == fields + [[]];
      assert Decoded([[]]) == [MISSING];
      assert [MISSING] + Padding(count - |entries| - 1) == Padding(count - |entries|);
      assert entries + [MISSING] + Padding(count - |entries| - 1)
          == entries + ([MISSING] + Padding(count - |entries| - 1));
    } else {
      assert Taken(fields + [[]], count) == fields;
    }
  }
}
