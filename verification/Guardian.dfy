/** The process that outlives the program: it reads requests from a pipe that cuts
    the stream wherever it likes, files them, and acts on what it has when the other
    end falls silent for good. */
module Guardian {
  import opened Wrappers
  import opened Text
  import opened Ledger
  import opened GuardianWire

  // -- what is on file ---------------------------------------------------------

  datatype Standing = Standing(
    kills: seq<(nat, string)>, units: seq<string>, consoles: seq<nat>,
    repeats: map<Path, Repeat>, watchdog: Option<nat>)

  const IDLE: Standing := Standing([], [], [], map[], None)

  /** One request filed; a heartbeat files nothing. */
  function Filed(s: Standing, r: Request): Standing {
    match r
    case Kill(pid, comm) => s.(kills := s.kills + [(pid, comm)])
    case Watchdog(seconds) => s.(watchdog := if seconds > 0 then Some(seconds) else None)
    case Ping => s
    case Systemctl(unit) => s.(units := s.units + [unit])
    case ResetVt(vt) => s.(consoles := s.consoles + [vt])
    case NoRepeat(path) => s.(repeats := s.repeats - {path})
    case SetRepeat(path, delay, period) => s.(repeats := s.repeats[path := Repeat(delay, period)])
    case Done => s
  }

  /** Still reading; told to stand down; or ended by a number that was none. */
  datatype Attention = Listening(standing: Standing) | Dismissed | Crashed

  function Attended(a: Attention, r: Request): Attention {
    if !a.Listening? then a else if r.Done? then Dismissed else Listening(Filed(a.standing, r))
  }

  function Heeded(a: Attention, line: string): Attention {
    if !a.Listening? then a
    else
      match Understand(Strip(line))
      case Asks(r) => Attended(a, r)
      case Unknown => a
      case Raises => Crashed
  }

  /** All these lines, in order, as far as the first that ends it. */
  function Heard(lines: seq<string>): Attention {
    if lines == [] then Listening(IDLE) else Heeded(Heard(lines[..|lines| - 1]), lines[|lines| - 1])
  }

  /** The same for requests rather than lines. */
  function Obeyed(requests: seq<Request>): Attention {
    if requests == [] then Listening(IDLE)
    else Attended(Obeyed(requests[..|requests| - 1]), requests[|requests| - 1])
  }

  lemma HeardSnoc(lines: seq<string>, line: string)
    ensures Heard(lines + [line]) == Heeded(Heard(lines), line)
  {
    assert (lines + [line])[..|lines|] == lines;
  }

  /** Nothing is heard after the end. */
  lemma {:induction false} HeardStops(lines: seq<string>, more: seq<string>)
    requires !Heard(lines).Listening?
    ensures Heard(lines + more) == Heard(lines)
    decreases |more|
  {
    if more == [] {
      assert lines + more == lines;
    } else {
      HeardStops(lines, more[..|more| - 1]);
      HeardSnoc(lines + more[..|more| - 1], more[|more| - 1]);
      assert lines + more == lines + more[..|more| - 1] + [more[|more| - 1]];
    }
  }

  // -- lines out of a stream ---------------------------------------------------

  /** The lines that have arrived whole. */
  function WholeLines(text: string): seq<string>
    decreases |text|
  {
    var n := NewlineAt(text);
    if n == |text| then [] else [text[..n]] + WholeLines(text[n + 1..])
  }

  /** What follows the last whole line. */
  function Torn(text: string): (torn: string)
    ensures |torn| <= |text|
    decreases |text|
  {
    var n := NewlineAt(text);
    if n == |text| then text else Torn(text[n + 1..])
  }

  lemma {:induction false} NewlineStays(a: string, b: string)
    requires NewlineAt(a) < |a|
    ensures NewlineAt(a + b) == NewlineAt(a)
  {
    if a[0] != '\n' {
      assert (a + b)[1..] == a[1..] + b;
      NewlineStays(a[1..], b);
    }
  }

  lemma {:induction false} NoNewline(text: string)
    ensures NewlineAt(text) == |text| <==> '\n' !in text
  {
    if text != [] && text[0] != '\n' {
      assert text == [text[0]] + text[1..];
      NoNewline(text[1..]);
    }
  }

  /** More of the stream adds lines after those there were, the torn one completed. */
  lemma {:induction false} WholeLinesConcat(a: string, b: string)
    ensures WholeLines(a + b) == WholeLines(a) + WholeLines(Torn(a) + b)
    ensures Torn(a + b) == Torn(Torn(a) + b)
    decreases |a|
  {
    var n := NewlineAt(a);
    if n < |a| {
      NewlineStays(a, b);
      assert (a + b)[..n] == a[..n];
      assert (a + b)[n + 1..] == a[n + 1..] + b;
      WholeLinesConcat(a[n + 1..], b);
    }
  }

  lemma {:induction false} TornIsTorn(text: string)
    ensures '\n' !in Torn(text) && WholeLines(Torn(text)) == []
    ensures Torn(Torn(text)) == Torn(text)
    decreases |text|
  {
    NoNewline(text);
    if NewlineAt(text) < |text| {
      TornIsTorn(text[NewlineAt(text) + 1..]);
    }
  }

  lemma FirstWholeLine(line: string, rest: string)
    requires '\n' !in line
    ensures WholeLines(line + ("\n" + rest)) == [line] + WholeLines(rest)
    ensures Torn(line + ("\n" + rest)) == Torn(rest)
  {
    NewlineAfter(line, rest);
    var text := line + ("\n" + rest);
    assert text[..|line|] == line && text[|line| + 1..] == rest;
  }

  /** Lines sent are the lines that arrive, and a torn one after them is none. */
  lemma {:induction false} LinesArrive(lines: seq<string>, torn: string)
    requires (forall i :: 0 <= i < |lines| ==> '\n' !in lines[i]) && '\n' !in torn
    ensures WholeLines(Unlines(lines) + torn) == lines && Torn(Unlines(lines) + torn) == torn
    decreases |lines|
  {
    if lines == [] {
      assert Unlines(lines) + torn == torn;
      NoNewline(torn);
    } else {
      var first, rest := lines[0], lines[1..];
      UnlinesFirst(first, rest);
      assert lines == [first] + rest;
      assert first + ("\n" + Unlines(rest)) + torn == first + ("\n" + (Unlines(rest) + torn));
      FirstWholeLine(first, Unlines(rest) + torn);
      LinesArrive(rest, torn);
    }
  }

  lemma UnlinesFirst(first: string, rest: seq<string>)
    ensures Unlines([first] + rest) == first + ("\n" + Unlines(rest))
  {
    UnlinesConcat([first], rest);
    UnlinesOne(first);
  }

  // -- the guardian ------------------------------------------------------------

  /** How reading goes on, or why it stopped. */
  datatype Ending = Waiting | StoodDown | Raised | CleansUp

  /** What one wait for the pipe brings. */
  datatype Arrival = Chunk(text: string) | Silence | Closed

  predicate Matches(ending: Ending, standing: Standing, a: Attention) {
    match a
    case Listening(s) => ending == Waiting && standing == s
    case Dismissed => ending == StoodDown
    case Crashed => ending == Raised
  }

  class Process {
    var kills: seq<(nat, string)>
    var units: seq<string>
    var consoles: seq<nat>
    var repeats: map<Path, Repeat>
    var watchdog: Option<nat>
    var buffer: string
    var killedParent: bool          // SIGKILL, for its silence

    function OnFile(): Standing
      reads this
    {
      Standing(kills, units, consoles, repeats, watchdog)
    }

    constructor ()
      ensures OnFile() == IDLE && buffer == [] && !killedParent
    {
      kills, units, consoles, repeats, watchdog, buffer, killedParent := [], [], [], map[], None, [], false;
    }

    /** File one request; the pipe's own business stays with Heed. */
    method Record(request: Request)
      requires !request.Watchdog? && !request.Ping? && !request.Done?
      modifies this`kills, this`units, this`consoles, this`repeats
      ensures OnFile() == Filed(old(OnFile()), request)
    {
      match request
      case Kill(pid, comm) => kills := kills + [(pid, comm)];
      case Systemctl(unit) => units := units + [unit];
      case ResetVt(vt) => consoles := consoles + [vt];
      case NoRepeat(path) => repeats := repeats - {path};
      case SetRepeat(path, delay, period) => repeats := repeats[path := Repeat(delay, period)];
    }

    /** One line of the stream. */
    method Heed(line: string) returns (ending: Ending)
      modifies this`kills, this`units, this`consoles, this`repeats, this`watchdog
      ensures Matches(ending, OnFile(), Heeded(Listening(old(OnFile())), line))
    {
      ending := Waiting;
      match Understand(Strip(line)) {
        case Unknown =>
        case Raises => ending := Raised;
        case Asks(request) =>
          if request.Done? {
            ending := StoodDown;
          } else if request.Watchdog? {
            watchdog := if request.seconds > 0 then Some(request.seconds) else None;
          } else if !request.Ping? {
            Record(request);
          }
      }
    }

    /** The buffer holds what is torn of all that was received, and the file what the
        rest of it asked for. */
    ghost predicate UpTo(received: string)
      reads this
    {
      Heard(WholeLines(received)) == Listening(OnFile()) && buffer == Torn(received)
    }

    /** The buffer's first line, taken off it. */
    method CutLine() returns (line: string)
      requires '\n' in buffer
      modifies this`buffer
      ensures NewlineAt(old(buffer)) < |old(buffer)|
      ensures line == old(buffer)[..NewlineAt(old(buffer))] && buffer == old(buffer)[NewlineAt(old(buffer)) + 1..]
    {
      NoNewline(buffer);
      var n := NewlineAt(buffer);
      line := buffer[..n];
      buffer := buffer[n + 1..];
    }

    /** A piece of the stream: every line it completes, at once. */
    method Receive(chunk: string, ghost received: string) returns (ending: Ending)
      requires UpTo(received)
      modifies this`kills, this`units, this`consoles, this`repeats, this`watchdog, this`buffer
      ensures Matches(ending, OnFile(), Heard(WholeLines(received + chunk)))
      ensures ending == Waiting ==> UpTo(received + chunk)
    {
      ghost var all := received + chunk;
      ghost var read := WholeLines(received);
      WholeLinesConcat(received, chunk);
      buffer := buffer + chunk;
      ending := Waiting;
      while '\n' in buffer
        invariant ending == Waiting && Heard(read) == Listening(OnFile())
        invariant WholeLines(all) == read + WholeLines(buffer) && Torn(all) == Torn(buffer)
        decreases |buffer|
      {
        LineRead(read, buffer, WholeLines(all));
        var line := CutLine();
        HeardSnoc(read, line);
        ending := Heed(line);
        if ending != Waiting {
          HeardStops(read + [line], WholeLines(buffer));
          return;
        }
        read := read + [line];
      }
      NoNewline(buffer);
      assert read + [] == read;
    }

    /** Read until told to stand down, until the other end is gone or too long silent,
        or as far as these reads go. */
    method Guard(arrivals: seq<Arrival>) returns (ending: Ending)
      requires OnFile() == IDLE && buffer == [] && !killedParent
      modifies this
      ensures Matched(ending, OnFile(), killedParent, Guarded(arrivals))
    {
      ending := Waiting;
      ghost var received := "";
      assert arrivals[..0] == [];
      var i := 0;
      while i < |arrivals| && ending == Waiting
        invariant i <= |arrivals| && Matched(ending, OnFile(), killedParent, Guarded(arrivals[..i]))
        invariant ending == Waiting ==> UpTo(received) && Guarded(arrivals[..i]) == Attending(received)
        invariant ending != Waiting ==> Guarded(arrivals) == Guarded(arrivals[..i])
        decreases |arrivals| - i
      {
        GuardedNext(arrivals, i);
        match arrivals[i] {
          case Chunk(text) =>
            ending := Receive(text, received);
            received := received + text;
          case Closed => ending := CleansUp;
          case Silence =>
            if watchdog.Some? {
              killedParent := true;
              ending := CleansUp;
            }
        }
        i := i + 1;
        if ending != Waiting {
          GuardedStops(arrivals, i);
        }
      }
      assert arrivals[..|arrivals|] == arrivals;
    }
  }

  lemma LineRead(read: seq<string>, buffer: string, all: seq<string>)
    requires '\n' in buffer && all == read + WholeLines(buffer)
    ensures var n := NewlineAt(buffer);
            && n < |buffer|
            && all == read + [buffer[..n]] + WholeLines(buffer[n + 1..])
            && Torn(buffer) == Torn(buffer[n + 1..])
  {
    NoNewline(buffer);
  }

  /** How far a run of reads has come. */
  datatype Progress = Attending(received: string) | Cleaning(standing: Standing, killed: bool) | Over(how: Attention)

  /** The clean-up starts with what is on file when the pipe closes - or when it is
      silent while a deadline stands, the other end being killed first. */
  function Guarded(arrivals: seq<Arrival>): Progress
    decreases |arrivals|
  {
    if arrivals == [] then Attending("")
    else
      match Guarded(arrivals[..|arrivals| - 1])
      case Cleaning(standing, killed) => Cleaning(standing, killed)
      case Over(how) => Over(how)
      case Attending(received) => Onward(received, arrivals[|arrivals| - 1])
  }

  function Onward(received: string, arrival: Arrival): Progress {
    var heard := Heard(WholeLines(received));
    match arrival
    case Chunk(text) =>
      if Heard(WholeLines(received + text)).Listening? then Attending(received + text)
      else Over(Heard(WholeLines(received + text)))
    case Closed => if heard.Listening? then Cleaning(heard.standing, false) else Over(heard)
    case Silence =>
      if !heard.Listening? then Over(heard)
      else if heard.standing.watchdog.Some? then Cleaning(heard.standing, true)
      else Attending(received)
  }

  predicate Matched(ending: Ending, standing: Standing, killed: bool, progress: Progress) {
    match progress
    case Attending(received) => Matches(ending, standing, Heard(WholeLines(received))) && !killed
    case Cleaning(s, silenced) => ending == CleansUp && standing == s && killed == silenced
    case Over(how) => !how.Listening? && Matches(ending, standing, how) && !killed
  }

  lemma GuardedNext(arrivals: seq<Arrival>, i: nat)
    requires i < |arrivals| && Guarded(arrivals[..i]).Attending?
    ensures Guarded(arrivals[..i + 1]) == Onward(Guarded(arrivals[..i]).received, arrivals[i])
  {
    assert arrivals[..i + 1][..i] == arrivals[..i];
  }

  lemma {:induction false} GuardedStops(arrivals: seq<Arrival>, i: nat)
    requires i <= |arrivals| && !Guarded(arrivals[..i]).Attending?
    ensures Guarded(arrivals) == Guarded(arrivals[..i])
    decreases |arrivals|
  {
    if i == |arrivals| {
      assert arrivals[..i] == arrivals;
    } else {
      assert arrivals[..|arrivals| - 1][..i] == arrivals[..i];
      GuardedStops(arrivals[..|arrivals| - 1], i);
    }
  }

  // -- what the pipe does not change -------------------------------------------

  function AllText(arrivals: seq<Arrival>): string {
    if arrivals == [] then []
    else
      AllText(arrivals[..|arrivals| - 1])
      + match arrivals[|arrivals| - 1] case Chunk(text) => text case _ => []
  }

  /** Only the text counts, not how it was cut: while the pipe keeps delivering, the
      file is what the whole lines of it say, and reading is over as soon as they
      end it. */
  lemma {:induction false} CutsDoNotMatter(arrivals: seq<Arrival>)
    requires forall i :: 0 <= i < |arrivals| ==> arrivals[i].Chunk?
    ensures var heard := Heard(WholeLines(AllText(arrivals)));
            Guarded(arrivals) == if heard.Listening? then Attending(AllText(arrivals)) else Over(heard)
    decreases |arrivals|
  {
    if arrivals != [] {
      var front, last := arrivals[..|arrivals| - 1], arrivals[|arrivals| - 1];
      CutsDoNotMatter(front);
      WholeLinesConcat(AllText(front), last.text);
      if !Heard(WholeLines(AllText(front))).Listening? {
        HeardStops(WholeLines(AllText(front)), WholeLines(Torn(AllText(front)) + last.text));
      }
    }
  }

  // -- requests end to end -----------------------------------------------------

  function Formatted(requests: seq<Request>): (lines: seq<string>)
    ensures |lines| == |requests| && forall i :: 0 <= i < |lines| ==> lines[i] == Format(requests[i])
  {
    seq(|requests|, i requires 0 <= i < |requests| => Format(requests[i]))
  }

  predicate AllProper(requests: seq<Request>) {
    forall i :: 0 <= i < |requests| ==> Proper(requests[i])
  }

  function Stream(requests: seq<Request>): string { Unlines(Formatted(requests)) }

  lemma {:induction false} FormattedIsObeyed(requests: seq<Request>)
    requires AllProper(requests)
    ensures Heard(Formatted(requests)) == Obeyed(requests)
    decreases |requests|
  {
    if requests != [] {
      var front, last := requests[..|requests| - 1], requests[|requests| - 1];
      FormattedIsObeyed(front);
      FormattedSnoc(requests);
      HeardSnoc(Formatted(front), Format(last));
      FormattedIsAttended(Obeyed(front), last);
    }
  }

  lemma FormattedSnoc(requests: seq<Request>)
    requires requests != []
    ensures Formatted(requests) == Formatted(requests[..|requests| - 1]) + [Format(requests[|requests| - 1])]
  {}

  lemma FormattedIsAttended(a: Attention, r: Request)
    requires Proper(r)
    ensures Heeded(a, Format(r)) == Attended(a, r)
  {
    FormatIsOneLine(r);
    UnderstandInvertsFormat(r);
  }

  lemma StreamArrives(requests: seq<Request>)
    requires AllProper(requests)
    ensures WholeLines(Stream(requests)) == Formatted(requests)
  {
    forall i | 0 <= i < |requests| ensures '\n' !in Formatted(requests)[i] {
      FormatIsOneLine(requests[i]);
    }
    LinesArrive(Formatted(requests), []);
    assert Stream(requests) + [] == Stream(requests);
  }

  /** However far the stream of requests got - in the middle of one, say - what is on
      file is exactly the requests that arrived whole. */
  lemma DeathAtAnyByte(requests: seq<Request>, n: nat)
    requires AllProper(requests) && n <= |Stream(requests)|
    ensures var k := |WholeLines(Stream(requests)[..n])|;
            && k <= |requests|
            && Heard(WholeLines(Stream(requests)[..n])) == Obeyed(requests[..k])
            && Stream(requests)[..n] == Stream(requests[..k]) + Torn(Stream(requests)[..n])
  {
    var got := Stream(requests)[..n];
    assert got + Stream(requests)[n..] == Stream(requests);
    PrefixIsObeyed(requests, got, Stream(requests)[n..]);
    PutTogether(got);
  }

  lemma PrefixIsObeyed(requests: seq<Request>, got: string, rest: string)
    requires AllProper(requests) && got + rest == Stream(requests)
    ensures var k := |WholeLines(got)|;
            && k <= |requests|
            && WholeLines(got) == Formatted(requests[..k])
            && Heard(WholeLines(got)) == Obeyed(requests[..k])
  {
    var k := |WholeLines(got)|;
    StreamArrives(requests);
    WholeLinesConcat(got, rest);
    FormattedPrefix(requests, k);
    FormattedIsObeyed(requests[..k]);
  }

  lemma FormattedPrefix(requests: seq<Request>, k: nat)
    requires k <= |requests|
    ensures Formatted(requests)[..k] == Formatted(requests[..k])
  {}

  /** The whole lines and the torn one are all of the text. */
  lemma {:induction false} PutTogether(text: string)
    ensures text == Unlines(WholeLines(text)) + Torn(text)
    decreases |text|
  {
    var n := NewlineAt(text);
    if n < |text| {
      var rest := text[n + 1..];
      PutTogether(rest);
      Resumed(text[..n], WholeLines(rest), Torn(rest), rest);
      CutAtNewline(text, n);
    } else {
      assert Unlines([]) + text == text;
    }
  }

  lemma CutAtNewline(text: string, n: nat)
    requires n < |text| && text[n] == '\n'
    ensures text == text[..n] + ("\n" + text[n + 1..])
  {}

  lemma Resumed(line: string, lines: seq<string>, torn: string, rest: string)
    requires rest == Unlines(lines) + torn
    ensures line + ("\n" + rest) == Unlines([line] + lines) + torn
  {
    UnlinesFirst(line, lines);
    var more := Unlines(lines);
    assert line + ("\n" + (more + torn)) == line + ("\n" + more) + torn;
  }

  // -- the ledger over the wire ------------------------------------------------

  /** The requests among these that are about a keyboard's repeat. */
  function AboutRepeats(requests: seq<Request>): seq<Message> {
    if requests == [] then []
    else
      var front := AboutRepeats(requests[..|requests| - 1]);
      match requests[|requests| - 1]
      case SetRepeat(path, delay, period) => front + [Owe(path, Repeat(delay, period))]
      case NoRepeat(path) => front + [Settle(path)]
      case _ => front
  }

  /** Whatever else is asked in between, the repeats on file are the debts reported. */
  lemma {:induction false} RepeatsAreOwed(requests: seq<Request>)
    requires forall i :: 0 <= i < |requests| ==> !requests[i].Done?
    ensures Obeyed(requests).Listening?
    ensures Obeyed(requests).standing.repeats == Owed(AboutRepeats(requests))
    decreases |requests|
  {
    if requests != [] {
      var front, last := requests[..|requests| - 1], requests[|requests| - 1];
      RepeatsAreOwed(front);
      match last
      case SetRepeat(path, delay, period) => OwedSnoc(AboutRepeats(front), Owe(path, Repeat(delay, period)));
      case NoRepeat(path) => OwedSnoc(AboutRepeats(front), Settle(path));
      case _ =>
    }
  }

  // -- which paths can be told -------------------------------------------------

  lemma {:induction false} StripRightEnds(text: string)
    ensures StripRight(text) == [] || Trimmed(StripRight(text))
    ensures forall c :: c in StripRight(text) ==> c in text
  {
    if text != [] && IsSpace(text[|text| - 1]) {
      StripRightEnds(text[..|text| - 1]);
    }
  }

  lemma {:induction false} StripLeftKeeps(text: string)
    ensures forall c :: c in StripLeft(text) ==> c in text
  {
    if text != [] && IsSpace(text[0]) {
      StripLeftKeeps(text[1..]);
    }
  }

  lemma TailIsSendable(text: string)
    requires Sendable(text) && Partition(text).Some?
    ensures Sendable(Partition(text).value.1)
  {
    PartitionParts(text);
    var (head, tail) := Partition(text).value;
    assert text[|text| - 1] == if tail == [] then ' ' else tail[|tail| - 1];
    assert forall c :: c in tail ==> c in text;
  }

  /** No line can ask for a repeat at a path that could not be sent whole. */
  lemma OnlySendableAsked(line: string)
    requires '\n' !in line && Understand(Strip(line)).Asks? && Understand(Strip(line)).request.SetRepeat?
    ensures Sendable(Understand(Strip(line)).request.path)
  {
    var command := Strip(line);
    StripLeftKeeps(line);
    StripRightEnds(StripLeft(line));
    TailIsSendable(command);
    var fields := Partition(command).value.1;
    TailIsSendable(fields);
    TailIsSendable(Partition(fields).value.1);
  }

  lemma {:induction false} OnlySendableOnFile(lines: seq<string>)
    requires forall i :: 0 <= i < |lines| ==> '\n' !in lines[i]
    ensures Heard(lines).Listening? ==> forall path :: path in Heard(lines).standing.repeats ==> Sendable(path)
    decreases |lines|
  {
    if lines != [] {
      var line := lines[|lines| - 1];
      OnlySendableOnFile(lines[..|lines| - 1]);
      var understood := Understand(Strip(line));
      if understood.Asks? && understood.request.SetRepeat? {
        OnlySendableAsked(line);
      }
    }
  }

  lemma {:induction false} WholeLinesAreLines(text: string)
    ensures forall i :: 0 <= i < |WholeLines(text)| ==> '\n' !in WholeLines(text)[i]
    decreases |text|
  {
    var n := NewlineAt(text);
    if n < |text| {
      FirstLineHasNone(text);
      WholeLinesAreLines(text[n + 1..]);
    }
  }

  lemma {:induction false} FirstLineHasNone(text: string)
    ensures '\n' !in text[..NewlineAt(text)]
  {
    if text != [] && text[0] != '\n' {
      FirstLineHasNone(text[1..]);
      assert text[..NewlineAt(text)] == [text[0]] + text[1..][..NewlineAt(text[1..])];
    }
  }

  /** A debt sent arrives as that debt exactly when its path holds no newline, is not
      empty, and does not end in a blank. */
  lemma PathSurvives(path: Path, delay: nat, period: nat)
    ensures Heard(WholeLines(Stream([SetRepeat(path, delay, period)])))
              == Listening(IDLE.(repeats := map[path := Repeat(delay, period)]))
       <==> Sendable(path)
  {
    var request := SetRepeat(path, delay, period);
    if Sendable(path) {
      StreamArrives([request]);
      FormattedIsObeyed([request]);
      assert [request][..0] == [];
      assert Obeyed([request]) == Attended(Obeyed([]), request);
    } else {
      WholeLinesAreLines(Stream([request]));
      OnlySendableOnFile(WholeLines(Stream([request])));
      assert path in map[path := Repeat(delay, period)];
    }
  }

  /** A path that ends in a blank loses it on the way. */
  lemma TrailingBlankIsLost(delay: nat, period: nat)
    ensures Heard(WholeLines(Stream([SetRepeat("/dev/input/by-id/a ", delay, period)])))
         != Listening(IDLE.(repeats := map["/dev/input/by-id/a " := Repeat(delay, period)]))
  {
    var path := "/dev/input/by-id/a ";
    assert path[|path| - 1] == ' ';
    PathSurvives(path, delay, period);
  }
}
