/** Reading a file line by line, where each line says one thing, nothing, or nonsense
    that ends the reading.  The reader of a single line is a parameter: the layout and
    the dead keys are read from the same lines by two readers that each pass over what
    the other takes.  What a file says is put together from what its parts say, and
    lines that say nothing can stand anywhere; that is all the round trip needs. */
module Lines {
  import opened Seqs

  datatype Said<+T> = Nothing | Says(item: T) | Nonsense

  /** What the lines say, or the number of the first that says nothing sensible. */
  datatype Result<+T> = Ok(value: T) | Bad(number: nat)

  type Reader<!T> = string -> Said<T>

  function Collect<T>(read: Reader<T>, lines: seq<string>): Result<seq<T>>
    decreases |lines|
  {
    if lines == [] then Ok([])
    else
      var n := |lines| - 1;
      match Collect(read, lines[..n])
      case Bad(number) => Bad(number)
      case Ok(items) =>
        match read(lines[n])
        case Nothing => Ok(items)
        case Says(item) => Ok(items + [item])
        case Nonsense => Bad(n + 1)
  }

  lemma CollectNext<T>(read: Reader<T>, lines: seq<string>, i: nat)
    requires i < |lines| && Collect(read, lines[..i]).Ok?
    ensures Collect(read, lines[..i + 1]) ==
      match read(lines[i])
      case Nothing => Collect(read, lines[..i])
      case Says(item) => Ok(Collect(read, lines[..i]).value + [item])
      case Nonsense => Bad(i + 1)
  {
    assert lines[..i + 1][..i] == lines[..i];
  }

  /** Reading stops for good at the first line that is nonsense. */
  lemma {:induction false} BadStays<T>(read: Reader<T>, lines: seq<string>, i: nat)
    requires i <= |lines| && Collect(read, lines[..i]).Bad?
    ensures Collect(read, lines) == Collect(read, lines[..i])
    decreases |lines|
  {
    if i == |lines| {
      assert lines[..i] == lines;
    } else {
      var n := |lines| - 1;
      assert lines[..n][..i] == lines[..i];
      BadStays(read, lines[..n], i);
    }
  }

  lemma {:induction false} CollectConcat<T>(read: Reader<T>, a: seq<string>, b: seq<string>)
    requires Collect(read, a).Ok? && Collect(read, b).Ok?
    ensures Collect(read, a + b) == Ok(Collect(read, a).value + Collect(read, b).value)
    decreases |b|
  {
    if b == [] {
      assert a + b == a && Collect(read, a).value + [] == Collect(read, a).value;
    } else {
      var front, last := b[..|b| - 1], b[|b| - 1];
      assert b == front + [last];
      CollectSnoc(read, front, last);
      CollectConcat(read, a, front);
      CollectSnoc(read, a + front, last);
      assert a + b == a + front + [last];
      if read(last).Says? {
        Regroup(Collect(read, a).value, Collect(read, front).value, [read(last).item]);
      }
    }
  }

  lemma CollectSnoc<T>(read: Reader<T>, lines: seq<string>, line: string)
    ensures Collect(read, lines + [line]) ==
      match Collect(read, lines)
      case Bad(number) => Bad(number)
      case Ok(items) =>
        match read(line)
        case Nothing => Ok(items)
        case Says(item) => Ok(items + [item])
        case Nonsense => Bad(|lines| + 1)
  {
    assert (lines + [line])[..|lines|] == lines;
  }

  lemma {:induction false} CollectNothing<T>(read: Reader<T>, lines: seq<string>)
    requires forall i :: 0 <= i < |lines| ==> read(lines[i]) == Nothing
    ensures Collect(read, lines) == Ok([])
    decreases |lines|
  {
    if lines != [] {
      CollectNothing(read, lines[..|lines| - 1]);
    }
  }

  lemma {:induction false} CollectAll<T>(read: Reader<T>, lines: seq<string>, items: seq<T>)
    requires |lines| == |items| && forall i :: 0 <= i < |lines| ==> read(lines[i]) == Says(items[i])
    ensures Collect(read, lines) == Ok(items)
    decreases |lines|
  {
    if lines != [] {
      var n := |lines| - 1;
      CollectAll(read, lines[..n], items[..n]);
      assert items == items[..n] + [items[n]];
    }
  }
}
