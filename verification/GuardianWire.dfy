/** The pipe to the guardian, character by character: requests are lines, the pipe
    delivers them in whatever pieces it likes, and what counts is the lines that
    arrived whole before the parent said it was done or died. */
module GuardianWire {
  import opened Wrappers
  import opened Text
  import opened Numerals

  // -- one request -------------------------------------------------------------

  /** What the parent can ask for. */
  datatype Request =
    | Kill(pid: nat, comm: string)
    | Watchdog(seconds: nat)
    | Ping
    | Systemctl(unit: string)
    | ResetVt(vt: nat)
    | NoRepeat(path: string)
    | SetRepeat(path: string, delay: nat, period: nat)
    | Done

  function Decimal(n: nat): string { Digits(n, Numerals.Decimal, false) }

  /** The name each line starts with. */
  function Verb(r: Request): string {
    match r
    case Kill(_, _) => "KILL"
    case Watchdog(_) => "WATCHDOG"
    case Ping => "PING"
    case Systemctl(_) => "SYSTEMCTL"
    case ResetVt(_) => "RESETVT"
    case NoRepeat(_) => "NOREPEAT"
    case SetRepeat(_, _, _) => "REPEAT"
    case Done => "DONE"
  }

  /** What follows the name and a space.  Only the last field may hold spaces. */
  function Rest(r: Request): string {
    match r
    case Kill(pid, comm) => Decimal(pid) + " " + comm
    case Watchdog(n) => Decimal(n)
    case Systemctl(unit) => unit
    case ResetVt(n) => Decimal(n)
    case NoRepeat(path) => path
    case SetRepeat(path, delay, period) => Decimal(delay) + " " + (Decimal(period) + " " + path)
    case _ => []
  }

  /** The line each request is sent as, its newline not included. */
  function Format(r: Request): string {
    if r.Ping? || r.Done? then Verb(r) else Verb(r) + " " + Rest(r)
  }

  /** What lies before the first space, and what after it; None without a space. */
  function Partition(text: string): Option<(string, string)> {
    if text == [] then None
    else if text[0] == ' ' then Some(([], text[1..]))
    else
      match Partition(text[1..])
      case None => None
      case Some((head, tail)) => Some(([text[0]] + head, tail))
  }

  /** A number in plain digits; anything else is an error. */
  function ParseInt(text: string): Option<nat> {
    if text != [] && AllDigits(text) then Some(Value(text, Numerals.Decimal)) else None
  }

  /** What a line, stripped, asks for: a request, nothing known, or an error that
      ends the guardian. */
  datatype Understood = Asks(request: Request) | Unknown | Raises

  /** A line starts with the request's name and a space, or is one of the two that
      are nothing but a name. */
  function Understand(command: string): Understood {
    match Partition(command)
    case None =>
      if command == "DONE" then Asks(Done) else if command == "PING" then Asks(Ping) else Unknown
    case Some((verb, rest)) =>
      if verb == "WATCHDOG" then UnderstandNumber(rest, (n: nat) => Watchdog(n))
      else if verb == "KILL" then UnderstandKill(rest)
      else if verb == "SYSTEMCTL" then Asks(Systemctl(rest))
      else if verb == "RESETVT" then UnderstandNumber(rest, (n: nat) => ResetVt(n))
      else if verb == "NOREPEAT" then Asks(NoRepeat(rest))
      else if verb == "REPEAT" then UnderstandRepeat(rest)
      else Unknown
  }

  function UnderstandNumber(text: string, request: nat -> Request): Understood {
    match ParseInt(text)
    case Some(n) => Asks(request(n))
    case None => Raises
  }

  function UnderstandKill(fields: string): Understood {
    var (pid, comm) := match Partition(fields) case Some(pair) => pair case None => (fields, []);
    match ParseInt(pid)
    case Some(n) => Asks(Kill(n, comm))
    case None => Raises
  }

  /** Two numbers, and all the rest is the path. */
  function UnderstandRepeat(fields: string): Understood {
    match Partition(fields)
    case None => Raises
    case Some((delay, rest)) =>
      match Partition(rest)
      case None => Raises
      case Some((period, path)) =>
        match (ParseInt(delay), ParseInt(period))
        case (Some(d), Some(p)) => Asks(SetRepeat(path, d, p))
        case _ => Raises
  }

  // -- a request survives the wire ---------------------------------------------

  predicate Trimmed(text: string) {
    text != [] && !IsSpace(text[|text| - 1])
  }

  /** What may be sent as the last field of a line. */
  predicate Sendable(text: string) {
    Trimmed(text) && '\n' !in text
  }

  lemma DecimalReads(n: nat)
    ensures ParseInt(Decimal(n)) == Some(n)
    ensures Trimmed(Decimal(n)) && ' ' !in Decimal(n) && '\n' !in Decimal(n)
  {
    DigitsValue(n, Numerals.Decimal, false);
    var s := Decimal(n);
    assert forall i :: 0 <= i < |s| ==> IsDigit(s[i]);
  }

  lemma {:induction false} PartitionAt(head: string, tail: string)
    requires ' ' !in head
    ensures Partition(head + " " + tail) == Some((head, tail))
  {
    var text := head + " " + tail;
    if head == [] {
      assert text == " " + tail;
      assert text[1..] == tail;
    } else {
      assert head[0] in head && text[0] == head[0];
      assert text[1..] == head[1..] + " " + tail;
      PartitionAt(head[1..], tail);
      assert [text[0]] + head[1..] == head;
    }
  }

  /** Whether a request's last field, where it is free text, may be sent. */
  predicate Proper(r: Request) {
    match r
    case Kill(_, comm) => Sendable(comm)
    case Systemctl(unit) => Sendable(unit)
    case NoRepeat(path) => Sendable(path)
    case SetRepeat(path, _, _) => Sendable(path)
    case _ => true
  }

  lemma EndsTrimmed(head: string, tail: string)
    requires Trimmed(tail)
    ensures Trimmed(head + tail)
  {
    assert (head + tail)[|head + tail| - 1] == tail[|tail| - 1];
  }

  lemma RestIsSendable(r: Request)
    requires Proper(r) && !r.Ping? && !r.Done?
    ensures Sendable(Rest(r))
  {
    match r
    case Kill(pid, comm) => DecimalReads(pid); EndsTrimmed(Decimal(pid) + " ", comm);
    case Watchdog(n) => DecimalReads(n);
    case ResetVt(n) => DecimalReads(n);
    case SetRepeat(path, delay, period) =>
      DecimalReads(delay);
      DecimalReads(period);
      EndsTrimmed(Decimal(period) + " ", path);
      EndsTrimmed(Decimal(delay) + " ", Decimal(period) + " " + path);
    case _ =>
  }

  /** A line that neither starts nor ends in space is its own stripped self. */
  lemma FormatIsOneLine(r: Request)
    requires Proper(r)
    ensures Strip(Format(r)) == Format(r) && '\n' !in Format(r)
  {
    VerbIsPlain(r);
    if r.Ping? || r.Done? {
      StripNothing(Verb(r));
    } else {
      RestIsSendable(r);
      StartsAndEnds(Verb(r), Rest(r));
    }
  }

  lemma VerbIsPlain(r: Request)
    ensures Verb(r) != [] && !IsSpace(Verb(r)[0]) && Sendable(Verb(r))
  {}

  lemma StartsAndEnds(verb: string, rest: string)
    requires verb != [] && !IsSpace(verb[0]) && '\n' !in verb && Sendable(rest)
    ensures Strip(verb + " " + rest) == verb + " " + rest && '\n' !in verb + " " + rest
  {
    var line := verb + " " + rest;
    EndsTrimmed(verb + " ", rest);
    assert line[0] == verb[0];
    StripNothing(line);
  }

  lemma KillUnderstood(pid: nat, comm: string)
    ensures UnderstandKill(Decimal(pid) + " " + comm) == Asks(Kill(pid, comm))
  {
    DecimalReads(pid);
    PartitionAt(Decimal(pid), comm);
  }

  lemma RepeatUnderstood(path: string, delay: nat, period: nat)
    ensures UnderstandRepeat(Decimal(delay) + " " + (Decimal(period) + " " + path))
         == Asks(SetRepeat(path, delay, period))
  {
    DecimalReads(delay);
    DecimalReads(period);
    PartitionAt(Decimal(delay), Decimal(period) + " " + path);
    PartitionAt(Decimal(period), path);
  }

  lemma FormatSplits(r: Request)
    requires !r.Ping? && !r.Done?
    ensures Partition(Format(r)) == Some((Verb(r), Rest(r)))
  {
    assert ' ' !in Verb(r);
    PartitionAt(Verb(r), Rest(r));
  }

  lemma {:induction false} PartitionNone(text: string)
    requires ' ' !in text
    ensures Partition(text) == None
  {
    if text != [] {
      assert text[0] in text;
      PartitionNone(text[1..]);
    }
  }

  /** Every request is understood as itself, spaces in its last field included. */
  lemma UnderstandInvertsFormat(r: Request)
    ensures Understand(Format(r)) == Asks(r)
  {
    if r.Ping? || r.Done? {
      PartitionNone(Format(r));
    } else {
      FormatSplits(r);
    }
    match r
    case Kill(pid, comm) => KillUnderstood(pid, comm);
    case Watchdog(n) => DecimalReads(n);
    case Ping =>
    case Systemctl(unit) =>
    case ResetVt(n) => DecimalReads(n);
    case NoRepeat(path) =>
    case SetRepeat(path, delay, period) => RepeatUnderstood(path, delay, period);
    case Done =>
  }

  // -- what else a line may be -------------------------------------------------

  lemma {:induction false} PartitionParts(text: string)
    ensures Partition(text).Some? ==> text == Partition(text).value.0 + " " + Partition(text).value.1
    ensures Partition(text).Some? <==> ' ' in text
  {
    if text != [] && text[0] != ' ' {
      PartitionParts(text[1..]);
      if Partition(text[1..]).Some? {
        var (head, tail) := Partition(text[1..]).value;
        assert text == [text[0]] + (head + " " + tail) == [text[0]] + head + " " + tail;
      }
    }
  }

  const VERBS: seq<string> := ["WATCHDOG", "KILL", "SYSTEMCTL", "RESETVT", "NOREPEAT", "REPEAT"]

  lemma VerbFirst(verb: string, command: string)
    requires ' ' !in verb && verb + " " <= command
    ensures Partition(command).Some? && Partition(command).value.0 == verb
  {
    PartitionAt(verb, command[|verb| + 1..]);
    assert command == verb + " " + command[|verb| + 1..];
  }

  lemma VerbLeads(command: string)
    requires Partition(command).Some?
    ensures Partition(command).value.0 + " " <= command
  {
    PartitionParts(command);
  }

  ghost predicate StartsWithVerb(command: string) {
    exists i :: 0 <= i < |VERBS| && VERBS[i] + " " <= command
  }

  lemma VerbStarts(command: string)
    ensures StartsWithVerb(command) <==> Partition(command).Some? && Partition(command).value.0 in VERBS
  {
    if i :| 0 <= i < |VERBS| && VERBS[i] + " " <= command {
      VerbsArePlain(i);
      VerbFirst(VERBS[i], command);
    }
    if Partition(command).Some? && Partition(command).value.0 in VERBS {
      VerbLeads(command);
    }
  }

  /** The guardian stands down at DONE and nothing else, and passes over exactly the lines
      that are neither that nor PING and start with none of its verbs. */
  lemma OthersAreUnknown(command: string)
    ensures Understand(command) == Asks(Done) <==> command == "DONE"
    ensures Understand(command) == Asks(Ping) <==> command == "PING"
    ensures Understand(command).Unknown? <==> command !in ["DONE", "PING"] && !StartsWithVerb(command)
  {
    PartitionParts(command);
    VerbStarts(command);
    assert ' ' !in "DONE" && ' ' !in "PING";
    if Partition(command).Some? {
      VerbsAsk(Partition(command).value.0, Partition(command).value.1, command);
    }
  }

  lemma VerbsAsk(verb: string, rest: string, command: string)
    requires Partition(command) == Some((verb, rest))
    ensures Understand(command).Unknown? <==> verb !in VERBS
    ensures Understand(command).Asks? ==> !Understand(command).request.Done? && !Understand(command).request.Ping?
  {}

  lemma VerbsArePlain(i: nat)
    requires i < |VERBS|
    ensures ' ' !in VERBS[i]
  {}
}
