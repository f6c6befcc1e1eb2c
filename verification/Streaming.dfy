/** Reading a text token by token, when it arrives in pieces.  Nothing here knows
    what a token is: only that one, once complete, is settled by its own text. */
module Streaming {
  import opened Seqs

  /** The next token, and how much text it takes; or not all of it has arrived. */
  datatype Token<+I> = Incomplete | Complete(length: nat, item: I)

  type Reader<!I> = string -> Token<I>

  datatype Decoded<+I> = Decoded(items: seq<I>, tail: string)

  /** A token lies within the text it was read from. */
  ghost predicate Bounded<I(!new)>(next: Reader<I>) {
    forall text :: next(text).Complete? ==> 0 < next(text).length <= |text|
  }

  /** What follows a complete token does not change it. */
  ghost predicate Stable<I(!new)>(next: Reader<I>) {
    forall a, b :: StableAt(next, a, b)
  }

  ghost predicate StableAt<I>(next: Reader<I>, a: string, b: string) {
    next(a).Complete? ==> next(a + b) == next(a)
  }

  /** The tokens of a text, and the start of one whose remainder has not arrived. */
  function Decode<I(!new)>(next: Reader<I>, text: string): Decoded<I>
    requires Bounded(next)
    decreases |text|
  {
    match next(text)
    case Incomplete => Decoded([], text)
    case Complete(n, item) =>
      var rest := Decode(next, text[n..]);
      Decoded([item] + rest.items, rest.tail)
  }

  lemma DecodeStep<I(!new)>(next: Reader<I>, text: string)
    requires Bounded(next) && next(text).Complete?
    ensures var rest := Decode(next, text[next(text).length..]);
            Decode(next, text).items == [next(text).item] + rest.items && Decode(next, text).tail == rest.tail
  {}

  lemma StableStep<I(!new)>(next: Reader<I>, a: string, b: string)
    requires Bounded(next) && Stable(next) && next(a).Complete?
    ensures var rest := Decode(next, a[next(a).length..] + b);
            Decode(next, a + b).items == [next(a).item] + rest.items && Decode(next, a + b).tail == rest.tail
  {
    assert StableAt(next, a, b);
    DecodeStep(next, a + b);
    assert (a + b)[next(a).length..] == a[next(a).length..] + b;
  }

  /** Decoding what has arrived, and then its tail with what arrives next, is
      decoding the whole: a stream may be cut into reads anywhere. */
  lemma {:induction false} DecodeStream<I(!new)>(next: Reader<I>, a: string, b: string)
    requires Bounded(next) && Stable(next)
    ensures Decode(next, a + b).items == Decode(next, a).items + Decode(next, Decode(next, a).tail + b).items
    ensures Decode(next, a + b).tail == Decode(next, Decode(next, a).tail + b).tail
    decreases |a|
  {
    if next(a).Complete? {
      DecodeStream(next, a[next(a).length..], b);
      DecodeStep(next, a);
      StableStep(next, a, b);
      var tail := Decode(next, a).tail;
      Regroup([next(a).item], Decode(next, a[next(a).length..]).items, Decode(next, tail + b).items);
    }
  }

  /** All that a number of reads brings. */
  function Arrived(pieces: seq<string>): string {
    if pieces == [] then [] else Arrived(pieces[..|pieces| - 1]) + pieces[|pieces| - 1]
  }

  /** Read by read: each time what was held back is taken up again. */
  function Fed<I(!new)>(next: Reader<I>, pieces: seq<string>): Decoded<I>
    requires Bounded(next)
  {
    if pieces == [] then Decoded([], [])
    else
      var before := Fed(next, pieces[..|pieces| - 1]);
      var after := Decode(next, before.tail + pieces[|pieces| - 1]);
      Decoded(before.items + after.items, after.tail)
  }

  /** However a text is cut, and into however many reads, it is decoded as a whole. */
  lemma {:induction false} FedIsDecoded<I(!new)>(next: Reader<I>, pieces: seq<string>)
    requires Bounded(next) && Stable(next)
    ensures Fed(next, pieces) == Decode(next, Arrived(pieces))
    decreases |pieces|
  {
    if pieces == [] {
      assert next([]).Incomplete?;
    } else {
      var front := pieces[..|pieces| - 1];
      FedIsDecoded(next, front);
      DecodeStream(next, Arrived(front), pieces[|pieces| - 1]);
    }
  }

  /** The stretch of text each token was read from. */
  function Spans<I(!new)>(next: Reader<I>, text: string): seq<string>
    requires Bounded(next)
    decreases |text|
  {
    match next(text)
    case Incomplete => []
    case Complete(n, _) => [text[..n]] + Spans(next, text[n..])
  }

  function Concat(parts: seq<string>): string {
    if parts == [] then [] else parts[0] + Concat(parts[1..])
  }

  lemma SpansStep<I(!new)>(next: Reader<I>, text: string)
    requires Bounded(next) && next(text).Complete?
    ensures var n := next(text).length;
            Spans(next, text) == [text[..n]] + Spans(next, text[n..])
            && Concat(Spans(next, text)) == text[..n] + Concat(Spans(next, text[n..]))
  {
    assert Spans(next, text)[1..] == Spans(next, text[next(text).length..]);
  }

  /** Nothing is lost or read twice: there is one stretch of text for each item, and
      these and the tail are the text again; what is held back is no token yet. */
  lemma {:induction false} DecodeConserves<I(!new)>(next: Reader<I>, text: string)
    requires Bounded(next)
    ensures Concat(Spans(next, text)) + Decode(next, text).tail == text
    ensures |Spans(next, text)| == |Decode(next, text).items|
    ensures next(Decode(next, text).tail).Incomplete?
    decreases |text|
  {
    if next(text).Complete? {
      var span, rest := text[..next(text).length], text[next(text).length..];
      DecodeConserves(next, rest);
      DecodeStep(next, text);
      SpansStep(next, text);
      Rebuilt(span, Concat(Spans(next, rest)), Decode(next, rest).tail, text);
    }
  }

  lemma Rebuilt(span: string, middle: string, tail: string, text: string)
    requires text == span + (middle + tail)
    ensures span + middle + tail == text
  {}

  /** What each item was read as, from its own stretch on. */
  lemma {:induction false} ItemsFromSpans<I(!new)>(next: Reader<I>, text: string, i: nat)
    requires Bounded(next) && i < |Spans(next, text)|
    ensures |Spans(next, text)| == |Decode(next, text).items|
    ensures next(Concat(Spans(next, text)[i..]) + Decode(next, text).tail)
         == Complete(|Spans(next, text)[i]|, Decode(next, text).items[i])
    decreases |text|
  {
    DecodeConserves(next, text);
    if i == 0 {
      assert Spans(next, text)[0..] == Spans(next, text);
      DecodeStep(next, text);
    } else {
      var rest := text[next(text).length..];
      ItemsFromSpans(next, rest, i - 1);
      DecodeStep(next, text);
      SpansStep(next, text);
      assert Spans(next, text)[i..] == Spans(next, rest)[i - 1..];
    }
  }
}
