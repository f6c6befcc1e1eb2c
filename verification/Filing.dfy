/** What the guardian has on file, from the requests alone, and when it acts on it. */
module Filing {
  import opened Wrappers
  import opened Numerals
  import opened Text
  import opened Ledger
  import opened GuardianWire
  import opened Guardian

  function KillsAsked(requests: seq<Request>): seq<(nat, string)> {
    if requests == [] then []
    else
      var last := requests[|requests| - 1];
      KillsAsked(requests[..|requests| - 1]) + if last.Kill? then [(last.pid, last.comm)] else []
  }

  function UnitsAsked(requests: seq<Request>): seq<string> {
    if requests == [] then []
    else
      var last := requests[|requests| - 1];
      UnitsAsked(requests[..|requests| - 1]) + if last.Systemctl? then [last.unit] else []
  }

  function ConsolesAsked(requests: seq<Request>): seq<nat> {
    if requests == [] then []
    else
      var last := requests[|requests| - 1];
      ConsolesAsked(requests[..|requests| - 1]) + if last.ResetVt? then [last.vt] else []
  }

  /** The seconds of the last deadline asked for; 0 lifts it. */
  function Deadline(requests: seq<Request>): Option<nat> {
    if requests == [] then None
    else
      var last := requests[|requests| - 1];
      if last.Watchdog? then (if last.seconds == 0 then None else Some(last.seconds))
      else Deadline(requests[..|requests| - 1])
  }

  function FileOf(requests: seq<Request>): Standing {
    Standing(KillsAsked(requests), UnitsAsked(requests), ConsolesAsked(requests),
             Owed(AboutRepeats(requests)), Deadline(requests))
  }

  lemma FiledNext(requests: seq<Request>)
    requires requests != [] && !requests[|requests| - 1].Done?
    ensures Filed(FileOf(requests[..|requests| - 1]), requests[|requests| - 1]) == FileOf(requests)
  {
    var front := AboutRepeats(requests[..|requests| - 1]);
    match requests[|requests| - 1]
    case SetRepeat(path, delay, period) => OwedSnoc(front, Owe(path, Repeat(delay, period)));
    case NoRepeat(path) => OwedSnoc(front, Settle(path));
    case Kill(_, _) =>
    case Systemctl(_) =>
    case ResetVt(_) =>
    case Watchdog(_) =>
    case Ping =>
  }

  /** What is on file is what was asked for, in order, and the deadline the last one set; a
      heartbeat is neither. */
  lemma {:induction false} FileIsExact(requests: seq<Request>)
    requires forall i :: 0 <= i < |requests| ==> !requests[i].Done?
    ensures Obeyed(requests) == Listening(FileOf(requests))
    decreases |requests|
  {
    if requests != [] {
      FileIsExact(requests[..|requests| - 1]);
      FiledNext(requests);
    }
  }

  /** How many requests have arrived whole, `n` characters into their stream. */
  function Whole(requests: seq<Request>, n: nat): (k: nat)
    requires AllProper(requests) && n <= |Stream(requests)|
    ensures k <= |requests|
  {
    DeathAtAnyByte(requests, n);
    |WholeLines(Stream(requests)[..n])|
  }

  lemma OneMore(arrivals: seq<Arrival>, last: Arrival)
    requires Guarded(arrivals).Attending?
    ensures Guarded(arrivals + [last]) == Onward(Guarded(arrivals).received, last)
  {
    assert (arrivals + [last])[..|arrivals|] == arrivals;
  }

  lemma EndsAs(received: string, file: Standing)
    requires Heard(WholeLines(received)) == Listening(file)
    ensures Onward(received, Silence) == if file.watchdog.Some? then Cleaning(file, true) else Attending(received)
    ensures Onward(received, Closed) == Cleaning(file, false)
  {}

  /** Of what has been read so far, the part that asked for something. */
  lemma ReadSoFar(requests: seq<Request>, n: nat, arrivals: seq<Arrival>)
    requires AllProper(requests) && forall i :: 0 <= i < |requests| ==> !requests[i].Done?
    requires n <= |Stream(requests)| && AllText(arrivals) == Stream(requests)[..n]
    requires forall i :: 0 <= i < |arrivals| ==> arrivals[i].Chunk?
    ensures Heard(WholeLines(AllText(arrivals))) == Listening(FileOf(requests[..Whole(requests, n)]))
    ensures Guarded(arrivals) == Attending(AllText(arrivals))
  {
    CutsDoNotMatter(arrivals);
    DeathAtAnyByte(requests, n);
    FileIsExact(requests[..Whole(requests, n)]);
  }

  /** A silence after these requests, the last of them broken off anywhere, ends in the
      clean-up, the other end killed, exactly if a deadline stands, and else is waited
      through.  The pipe closing ends in it anyhow, with nobody killed. */
  lemma SilenceEndsIt(requests: seq<Request>, n: nat, arrivals: seq<Arrival>)
    requires AllProper(requests) && forall i :: 0 <= i < |requests| ==> !requests[i].Done?
    requires n <= |Stream(requests)| && AllText(arrivals) == Stream(requests)[..n]
    requires forall i :: 0 <= i < |arrivals| ==> arrivals[i].Chunk?
    ensures var whole := requests[..Whole(requests, n)];
            && Guarded(arrivals + [Silence]) == (if Deadline(whole).Some? then Cleaning(FileOf(whole), true)
                                                 else Attending(AllText(arrivals)))
            && Guarded(arrivals + [Closed]) == Cleaning(FileOf(whole), false)
  {
    ReadSoFar(requests, n, arrivals);
    EndsAs(AllText(arrivals), FileOf(requests[..Whole(requests, n)]));
    OneMore(arrivals, Silence);
    OneMore(arrivals, Closed);
  }

  // -- lines that ask for nothing ----------------------------------------------

  /** A line that is none of the guardian's own is passed over. */
  lemma OddLinesArePassed(lines: seq<string>, line: string)
    requires Strip(line) !in ["DONE", "PING"] && !StartsWithVerb(Strip(line))
    ensures Heard(lines + [line]) == Heard(lines)
  {
    HeardSnoc(lines, line);
    OthersAreUnknown(Strip(line));
  }

  /** One that asks for a deadline or a console by what is no number ends it. */
  lemma NoNumberEndsIt(lines: seq<string>, line: string, verb: string, text: string)
    requires Heard(lines).Listening? && (verb == "WATCHDOG" || verb == "RESETVT")
    requires Strip(line) == verb + " " + text && (text == [] || !AllDigits(text))
    ensures Heard(lines + [line]) == Crashed
  {
    HeardSnoc(lines, line);
    PartitionAt(verb, text);
  }

  // -- standing down -----------------------------------------------------------

  lemma {:induction false} ObeyedStops(requests: seq<Request>, i: nat)
    requires i < |requests| && requests[i].Done? && forall j :: 0 <= j < i ==> !requests[j].Done?
    ensures Obeyed(requests) == Dismissed
    decreases |requests|
  {
    var front := requests[..|requests| - 1];
    if i < |front| {
      ObeyedStops(front, i);
    } else {
      FileIsExact(front);
    }
  }

  lemma {:induction false} OverIsOver(arrivals: seq<Arrival>, later: seq<Arrival>)
    requires Guarded(arrivals).Over?
    ensures Guarded(arrivals + later) == Guarded(arrivals)
    decreases |later|
  {
    if later == [] {
      assert arrivals + later == arrivals;
    } else {
      OverIsOver(arrivals, later[..|later| - 1]);
      assert (arrivals + later)[..|arrivals + later| - 1] == arrivals + later[..|later| - 1];
    }
  }

  /** Told that all is well, the guardian stands down and cleans nothing up, whatever comes
      of the pipe after. */
  lemma DoneStandsDown(requests: seq<Request>, i: nat, n: nat, arrivals: seq<Arrival>, later: seq<Arrival>)
    requires AllProper(requests) && n <= |Stream(requests)| && i < Whole(requests, n)
    requires requests[i].Done? && forall j :: 0 <= j < i ==> !requests[j].Done?
    requires AllText(arrivals) == Stream(requests)[..n] && forall k :: 0 <= k < |arrivals| ==> arrivals[k].Chunk?
    ensures Guarded(arrivals + later) == Over(Dismissed)
  {
    CutsDoNotMatter(arrivals);
    DeathAtAnyByte(requests, n);
    ObeyedStops(requests[..Whole(requests, n)], i);
    OverIsOver(arrivals, later);
  }
}
