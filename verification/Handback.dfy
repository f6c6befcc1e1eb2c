/** What the phone is left holding after a paste, however it ends. */
module Handback {
  import opened Hid
  import opened Coalescing
  import opened Typing

  const AT_FIRST: Paste := Paste(false, [], [], false, NOTHING_DOWN)

  function Run(done: seq<Doing>): Paste {
    if done == [] then AT_FIRST else Do(Run(done[..|done| - 1]), done[|done| - 1])
  }

  function LastReport(sent: seq<Report>): Report {
    if sent == [] then NOTHING_DOWN else sent[|sent| - 1]
  }

  // -- by the events -----------------------------------------------------------

  /** The last of these sends a report of the paste. */
  predicate Pastes(done: seq<Doing>)
    requires done != []
  {
    var p := Run(done[..|done| - 1]);
    done[|done| - 1].Ticks? && p.timer && p.up && p.queue != []
  }

  /** The last of these tells the phone what the keyboards hold, or leaves both with
      nothing. */
  predicate HandsBack(done: seq<Doing>)
    requires done != []
  {
    var p, d := Run(done[..|done| - 1]), done[|done| - 1];
    || d.LinkLost?
    || (p.up && (d.Holds? || (d.Clears? && p.queue != []) || (d.Ticks? && p.timer && p.queue == [])))
  }

  /** The last report is the paste's. */
  predicate Pasted(done: seq<Doing>) {
    done != [] && (Pastes(done) || (!HandsBack(done) && Pasted(done[..|done| - 1])))
  }

  function PastedReport(done: seq<Doing>): Report {
    if done == [] then NOTHING_DOWN
    else if Pastes(done) then Run(done[..|done| - 1]).queue[0]
    else PastedReport(done[..|done| - 1])
  }

  /** Something changed on the keyboards that the phone was not told - the link was down,
      or the session kept it to itself - and they have not been told of since. */
  predicate Untold(done: seq<Doing>) {
    && done != [] && !HandsBack(done)
    && (|| done[|done| - 1].Quietly?
        || (done[|done| - 1].Holds? && !Run(done[..|done| - 1]).up)
        || Untold(done[..|done| - 1]))
  }

  /** The paste is abandoned between its last press and the end it would have had: the
      queue is empty, so there is nothing to drop and nothing is said. */
  predicate StrayClear(done: seq<Doing>)
    requires done != []
  {
    var front := done[..|done| - 1];
    done[|done| - 1].Clears? && Run(front).timer && Run(front).queue == [] && Pasted(front)
  }

  predicate HandsBackAt(done: seq<Doing>, j: nat)
    requires j < |done|
  {
    HandsBack(done[..j + 1])
  }

  predicate StrayAt(done: seq<Doing>, i: nat) {
    && i < |done| && StrayClear(done[..i + 1])
    && forall j :: i < j < |done| ==> !HandsBackAt(done, j)
  }

  /** That has happened, and the keyboards have not been told of since. */
  ghost predicate Strayed(done: seq<Doing>) {
    exists i: nat :: StrayAt(done, i)
  }

  // -- what holds over every run -----------------------------------------------

  ghost predicate Sound(p: Paste, pasted: bool, untold: bool, report: Report) {
    && (p.queue != [] ==> p.timer)
    && (!p.up ==> !pasted && p.sent == [])
    && (pasted ==> LastReport(p.sent) == report)
    && (!pasted && !untold ==> LastReport(p.sent) == p.held)
  }

  lemma HandedBack(p: Paste)
    ensures p.up ==> LastReport(HandBack(p).sent) == p.held
    ensures !p.up ==> HandBack(p) == p
  {}

  /** What each event does to that. */
  lemma SoundNext(p: Paste, d: Doing, pasted: bool, untold: bool, report: Report)
    requires Sound(p, pasted, untold, report)
    ensures var pastes := d.Ticks? && p.timer && p.up && p.queue != [];
            var back := d.LinkLost?
              || (p.up && (d.Holds? || (d.Clears? && p.queue != []) || (d.Ticks? && p.timer && p.queue == [])));
            Sound(Do(p, d), pastes || (!back && pasted), !back && (d.Quietly? || (d.Holds? && !p.up) || untold),
                  if pastes then p.queue[0] else report)
  {
    match d
    case Ticks => HandedBack(p.(queue := [], timer := false));
    case Clears => HandedBack(p.(queue := [], timer := false));
    case Holds(held) => HandedBack(p.(held := held));
    case TypesText(strokes) =>
    case GivesUp(strokes) =>
    case Probes(strokes) =>
    case Quietly(held) =>
    case LinkLost =>
    case LinkUp =>
  }

  lemma {:induction false} RunIsSound(done: seq<Doing>)
    ensures Sound(Run(done), Pasted(done), Untold(done), PastedReport(done))
    decreases |done|
  {
    if done != [] {
      var front := done[..|done| - 1];
      RunIsSound(front);
      SoundNext(Run(front), done[|done| - 1], Pasted(front), Untold(front), PastedReport(front));
    }
  }

  lemma StrayNext(done: seq<Doing>, i: nat)
    requires i + 1 < |done|
    ensures StrayAt(done, i) <==> StrayAt(done[..|done| - 1], i) && !HandsBack(done)
  {
    var front := done[..|done| - 1];
    assert done[..|done| - 1 + 1] == done;
    assert front[..i + 1] == done[..i + 1];
    forall j | 0 <= j < |front| ensures HandsBackAt(front, j) == HandsBackAt(done, j) {
      assert front[..j + 1] == done[..j + 1];
    }
    assert HandsBackAt(done, |done| - 1) == HandsBack(done);
  }

  /** With no tick armed the last report is the paste's exactly after a stray clear. */
  lemma {:induction false} PastedIsStrayed(done: seq<Doing>)
    ensures Strayed(done) ==> Pasted(done)
    ensures !Run(done).timer ==> (Pasted(done) <==> Strayed(done))
    decreases |done|
  {
    if done != [] {
      var front, n := done[..|done| - 1], |done| - 1;
      PastedIsStrayed(front);
      RunIsSound(front);
      assert done[..n + 1] == done;
      if i: nat :| StrayAt(done, i) {
        if i < n {
          StrayNext(done, i);
        }
      }
      if Pasted(done) && !Run(done).timer {
        if StrayClear(done) {
          assert StrayAt(done, n);
        } else {
          var i: nat :| StrayAt(front, i);
          StrayNext(done, i);
        }
      }
    }
  }

  /** With no tick armed the phone was last told what the keyboards hold - unless that
      changed without a word since - exactly if no paste was abandoned between its
      last press and its end since: then it is left with that press. */
  lemma LinkIsHandedBack(done: seq<Doing>)
    requires !Run(done).timer && !Untold(done)
    ensures Run(done).queue == []
    ensures LastReport(Run(done).sent) == if Strayed(done) then PastedReport(done) else Run(done).held
  {
    RunIsSound(done);
    PastedIsStrayed(done);
  }

  /** The case it is not: one key pasted, its press sent, and the paste abandoned. */
  lemma ClearedTooLate(s: Stroke)
    ensures var p := Run([LinkUp, TypesText([s]), Ticks, Clears]);
            && !p.timer && p.held == NOTHING_DOWN
            && LastReport(p.sent) == Report(s.mods, [s.usage]) != NOTHING_DOWN
  {
    var done := [LinkUp, TypesText([s]), Ticks, Clears];
    assert done[..3][..2] == done[..2] && done[..2][..1] == done[..1] && done[..1][..0] == [];
    var press := Report(s.mods, [s.usage]);
    assert PushAll([], [s]) == [press] by {
      PushIs([], s);
      assert [s][1..] == [] && [] + [press] == [press];
    }
    assert Run(done[..1]) == AT_FIRST.(up := true);
    assert Run(done[..2]) == Paste(true, [], [press], true, NOTHING_DOWN);
    assert Run(done[..3]) == Paste(true, [press], [], true, NOTHING_DOWN);
    assert Run(done) == Paste(true, [press], [], false, NOTHING_DOWN);
  }
}
