/**
 * What a relayed request delivers: which pieces a client is sent over any run of a stream, when a
 * stream ends and with which status, and where the request thread ends for any answers it gets.
 */
module RelayDelivery {
  import opened Options
  import opened RelayRun

  // --- what a stream delivers -------------------------------------------------------------

  /** A read answered to the pull of a stream that is not over. */
  predicate Live(s: Run, e: Event) {
    e.ReadAnswered? && s.pull == PullReading && !s.finished
  }

  function LiveReads(s: Run, events: seq<Event>): seq<Read>
    decreases |events|
  {
    if events == [] then []
    else (if Live(s, events[0]) then [events[0].read] else []) + LiveReads(Next(s, events[0]), events[1..])
  }

  /** The client hung up on an open stream. */
  predicate HangsUp(s: Run, e: Event) {
    e.CancelCalled? && s.main == Streaming && s.controller == Open
  }

  predicate HungUpIn(s: Run, events: seq<Event>)
    decreases |events|
  {
    events != [] && (HangsUp(s, events[0]) || HungUpIn(Next(s, events[0]), events[1..]))
  }

  /** A read after which the stream goes on: an item that translates and is not the last. */
  predicate GoesOn(r: Read) {
    r.Item? && r.translates && !r.terminal
  }

  /** What one read puts on the stream. */
  function Written(r: Read): seq<Piece> {
    match r
    case ReadFault => [ErrorNote, Tail]
    case EndOfStream => [Tail]
    case Item(translates, payload, terminal) =>
      if !translates then [ErrorNote, Tail]
      else (if payload == "" then [] else [Payload(payload)]) + if terminal then [Tail] else []
  }

  function WrittenBy(seen: seq<Read>): seq<Piece> {
    if seen == [] then [] else WrittenBy(seen[..|seen| - 1]) + Written(seen[|seen| - 1])
  }

  function StatusOf(r: Read): Status {
    if r.ReadFault? || (r.Item? && !r.translates) then Failed else Succeeded
  }

  predicate Ended(seen: seq<Read>) {
    seen != [] && !GoesOn(seen[|seen| - 1])
  }

  /** A stream whose live reads were `seen` so far, and that was hung up on or not. */
  predicate Delivered(s: Run, seen: seq<Read>, hungUp: bool) {
    && (forall i :: 0 <= i < |seen| - 1 ==> GoesOn(seen[i]))
    && if s.main != Streaming then s.log.sent == [] && s.log.ended == None && seen == [] && !hungUp
       else
         && s.log.sent == [Head] + WrittenBy(seen)
         && (s.finished <==> hungUp || Ended(seen))
         && (!s.finished ==> s.controller == Open)
         && s.log.ended == (if Ended(seen) then Some(StatusOf(seen[|seen| - 1])) else if hungUp then Some(Aborted) else None)
  }

  lemma OneMoreRead(seen: seq<Read>, r: Read)
    ensures WrittenBy(seen + [r]) == WrittenBy(seen) + Written(r)
  {
    assert (seen + [r])[..|seen|] == seen;
  }

  lemma ReadDelivers(s: Run, seen: seq<Read>, hungUp: bool, read: Read)
    requires Inv(s) && s.stream && Delivered(s, seen, hungUp) && Live(s, ReadAnswered(read))
    ensures Delivered(Next(s, ReadAnswered(read)), seen + [read], hungUp)
  {
    ReadSends(s, read);
    ReadEnds(s, read);
    OneMoreRead(seen, read);
    assert [Head] + WrittenBy(seen) + Written(read) == [Head] + (WrittenBy(seen) + Written(read));
    AllButLast(seen, read);
  }

  lemma AllButLast(seen: seq<Read>, read: Read)
    requires (forall i :: 0 <= i < |seen| - 1 ==> GoesOn(seen[i])) && !Ended(seen)
    ensures forall i :: 0 <= i < |seen + [read]| - 1 ==> GoesOn((seen + [read])[i])
  {
  }

  /** A live read ends the stream, with its status, exactly when the stream does not go on after it. */
  lemma ReadEnds(s: Run, read: Read)
    requires Inv(s) && s.stream && Live(s, ReadAnswered(read)) && s.log.ended == None
    ensures var next := Next(s, ReadAnswered(read));
      && next.main == s.main == Streaming
      && (next.finished <==> !GoesOn(read)) && next.controller == s.controller
      && next.log.ended == if GoesOn(read) then None else Some(StatusOf(read))
  {
  }

  lemma ReadSends(s: Run, read: Read)
    requires Inv(s) && s.stream && Live(s, ReadAnswered(read))
    ensures Next(s, ReadAnswered(read)).log.sent == s.log.sent + Written(read)
  {
    var sent := s.log.sent;
    assert sent + [ErrorNote] + [Tail] == sent + [ErrorNote, Tail];
    if read.Item? {
      assert sent + [Payload(read.payload)] + [Tail] == sent + [Payload(read.payload), Tail];
    }
  }

  lemma MainDelivers(s: Run, seen: seq<Read>, hungUp: bool, answer: Answer)
    requires Inv(s) && s.stream && Delivered(s, seen, hungUp)
    ensures Delivered(Next(s, MainAnswered(answer)), seen, hungUp)
  {
    if s.main == Electing && answer == Fine {
      assert [] + [Head] == [Head] + WrittenBy([]);
    }
  }

  lemma StepDelivers(s: Run, seen: seq<Read>, hungUp: bool, e: Event)
    requires Inv(s) && s.stream && Delivered(s, seen, hungUp)
    ensures Delivered(Next(s, e), seen + (if Live(s, e) then [e.read] else []), hungUp || HangsUp(s, e))
  {
    assert seen + [] == seen;
    match e
    case MainAnswered(answer) => MainDelivers(s, seen, hungUp, answer);
    case ReadAnswered(read) =>
      if Live(s, e) {
        ReadDelivers(s, seen, hungUp, read);
      }
    case _ =>
  }

  lemma Associates(a: seq<Read>, b: seq<Read>, c: seq<Read>)
    ensures a + b + c == a + (b + c)
  {
  }

  lemma {:induction false} RunDelivers(s: Run, seen: seq<Read>, hungUp: bool, events: seq<Event>)
    requires Inv(s) && s.stream && Delivered(s, seen, hungUp)
    ensures Delivered(RunFrom(s, events), seen + LiveReads(s, events), hungUp || HungUpIn(s, events))
    decreases |events|
  {
    if events == [] {
      assert seen + [] == seen;
    } else {
      var now := if Live(s, events[0]) then [events[0].read] else [];
      StepDelivers(s, seen, hungUp, events[0]);
      StepKeepsInv(s, events[0]);
      RunDelivers(Next(s, events[0]), seen + now, hungUp || HangsUp(s, events[0]), events[1..]);
      Associates(seen, now, LiveReads(Next(s, events[0]), events[1..]));
    }
  }

  /**
   * In every run of a stream the client is sent the head and then what each live read puts on it,
   * in order; the stream is over exactly when a live read failed, ended it, could not be translated
   * or was the last item, or when the client hung up; and it is settled with the status of what
   * came first. A request whose stream never opened is sent nothing.
   */
  lemma StreamDelivers(events: seq<Event>)
    ensures Delivered(RunFrom(Begin(true), events), LiveReads(Begin(true), events), HungUpIn(Begin(true), events))
  {
    RunDelivers(Begin(true), [], false, events);
    assert [] + LiveReads(Begin(true), events) == LiveReads(Begin(true), events);
  }

  // --- an undisturbed stream --------------------------------------------------------------

  /** The client pulls, the upstream answers. */
  function Pulls(seen: seq<Read>): seq<Event> {
    if seen == [] then [] else [PullCalled, ReadAnswered(seen[0])] + Pulls(seen[1..])
  }

  const OPENING := [MainAnswered(Fine), MainAnswered(Fine), MainAnswered(Fine), MainAnswered(Fine)]

  /** The answers to the awaits of a settlement, of which the first is to finalizing. */
  function Settling(finalized: bool): seq<Event> {
    [PullSettleAnswered(finalized), PullSettleAnswered(true), PullSettleAnswered(true), PullSettleAnswered(true), PullSettleAnswered(true)]
  }

  predicate OpenStream(s: Run) {
    Inv(s) && s.stream && s.main == Streaming && s.controller == Open && !s.finished
  }

  lemma Opens()
    ensures OpenStream(RunFrom(Begin(true), OPENING)) && LiveReads(Begin(true), OPENING) == [] && !HungUpIn(Begin(true), OPENING)
  {
    var s1 := FineOnce(Begin(true), OPENING);
    var s2 := FineOnce(s1, OPENING[1..]);
    var s3 := FineOnce(s2, OPENING[2..]);
    var s4 := FineOnce(s3, OPENING[3..]);
    assert OPENING[1..][1..] == OPENING[2..] && OPENING[2..][1..] == OPENING[3..] && OPENING[3..][1..] == [];
    assert s4.main == Streaming && s4.controller == Open && !s4.finished;
  }

  lemma FineOnce(s: Run, events: seq<Event>) returns (next: Run)
    requires Inv(s) && s.stream && s.main in {Pricing, Budgeting, Reserving, Electing}
    requires events != [] && events[0] == MainAnswered(Fine)
    ensures next == MainNext(s, Fine) && Inv(next) && next.stream
    ensures next.main == match s.main { case Pricing => Budgeting case Budgeting => Reserving case Reserving => Electing case _ => Streaming }
    ensures next.controller == s.controller && next.finished == s.finished
    ensures RunFrom(s, events) == RunFrom(next, events[1..])
    ensures LiveReads(s, events) == LiveReads(next, events[1..]) && HungUpIn(s, events) == HungUpIn(next, events[1..])
  {
    next := Next(s, MainAnswered(Fine));
    StepKeepsInv(s, MainAnswered(Fine));
    assert [] + LiveReads(next, events[1..]) == LiveReads(next, events[1..]);
  }

  /** An open stream that is pulled reads on. */
  lemma PullReads(s: Run, read: Read, rest: seq<Event>)
    requires OpenStream(s)
    ensures var events := [PullCalled, ReadAnswered(read)] + rest;
      var next := Next(Next(s, PullCalled), ReadAnswered(read));
      && Next(s, PullCalled).pull == PullReading && Live(Next(s, PullCalled), ReadAnswered(read))
      && RunFrom(s, events) == RunFrom(next, rest)
      && LiveReads(s, events) == [read] + LiveReads(next, rest)
      && HungUpIn(s, events) == HungUpIn(next, rest)
      && Inv(next) && next.stream && (GoesOn(read) ==> OpenStream(next))
  {
    var events := [PullCalled, ReadAnswered(read)] + rest;
    var pulled := Next(s, PullCalled);
    StepKeepsInv(s, PullCalled);
    StepKeepsInv(pulled, ReadAnswered(read));
    assert events[1..] == [ReadAnswered(read)] + rest && events[1..][1..] == rest;
    var next := Next(pulled, ReadAnswered(read));
    assert RunFrom(s, events) == RunFrom(pulled, events[1..]) == RunFrom(next, rest);
    assert [] + LiveReads(pulled, events[1..]) == LiveReads(pulled, events[1..]);
  }

  lemma {:induction false} PullsReadAll(s: Run, seen: seq<Read>)
    requires OpenStream(s) && forall i :: 0 <= i < |seen| ==> GoesOn(seen[i])
    ensures OpenStream(RunFrom(s, Pulls(seen))) && LiveReads(s, Pulls(seen)) == seen && !HungUpIn(s, Pulls(seen))
    decreases |seen|, 0
  {
    if seen != [] {
      PullReads(s, seen[0], Pulls(seen[1..]));
      var next := Next(Next(s, PullCalled), ReadAnswered(seen[0]));
      assert forall i :: 0 <= i < |seen[1..]| ==> seen[1..][i] == seen[i + 1];
      PullsReadRest(s, next, seen[0], seen[1..]);
      assert [seen[0]] + seen[1..] == seen;
    }
  }

  lemma {:induction false} PullsReadRest(s: Run, next: Run, first: Read, rest: seq<Read>)
    requires OpenStream(next) && forall i :: 0 <= i < |rest| ==> GoesOn(rest[i])
    requires var events := [PullCalled, ReadAnswered(first)] + Pulls(rest);
      && RunFrom(s, events) == RunFrom(next, Pulls(rest))
      && LiveReads(s, events) == [first] + LiveReads(next, Pulls(rest))
      && HungUpIn(s, events) == HungUpIn(next, Pulls(rest))
    ensures var events := [PullCalled, ReadAnswered(first)] + Pulls(rest);
      OpenStream(RunFrom(s, events)) && LiveReads(s, events) == [first] + rest && !HungUpIn(s, events)
    decreases |rest|, 1
  {
    PullsReadAll(next, rest);
  }

  lemma {:induction false} LiveAppended(s: Run, a: seq<Event>, b: seq<Event>)
    ensures LiveReads(s, a + b) == LiveReads(s, a) + LiveReads(RunFrom(s, a), b)
    ensures HungUpIn(s, a + b) <==> HungUpIn(s, a) || HungUpIn(RunFrom(s, a), b)
    decreases |a|
  {
    if a == [] {
      assert a + b == b;
    } else {
      assert (a + b)[0] == a[0] && (a + b)[1..] == a[1..] + b;
      LiveAppended(Next(s, a[0]), a[1..], b);
      var now := if Live(s, a[0]) then [a[0].read] else [];
      assert now + (LiveReads(Next(s, a[0]), a[1..]) + LiveReads(RunFrom(s, a), b))
          == now + LiveReads(Next(s, a[0]), a[1..]) + LiveReads(RunFrom(s, a), b);
    }
  }

  /** Five answered awaits take a stream from its last read to its close, or to an error when finalizing failed. */
  lemma SettlesAndCloses(s: Run, finalized: bool)
    requires Inv(s) && s.stream && s.main == Streaming && s.pull == PullSettling(Finalizing) && s.controller == Open
    requires !s.cancelled
    ensures var end := RunFrom(s, Settling(finalized));
      && Terminated(end) && end.main == Streaming && end.controller == (if finalized then Closed else Errored)
      && end.log.sent == s.log.sent && end.log.ended == s.log.ended
  {
    var events := Settling(finalized);
    var s1 := SettledOnce(s, events, finalized);
    var s2 := SettledOnce(s1, events[1..], true);
    var s3 := SettledOnce(s2, events[2..], true);
    var s4 := SettledOnce(s3, events[3..], true);
    var s5 := SettledOnce(s4, events[4..], true);
    assert events[1..][1..] == events[2..] && events[2..][1..] == events[3..] && events[3..][1..] == events[4..];
    assert events[4..][1..] == [];
  }

  lemma SettledOnce(s: Run, events: seq<Event>, ok: bool) returns (next: Run)
    requires Inv(s) && s.stream && events != [] && events[0] == PullSettleAnswered(ok)
    ensures next == Next(s, PullSettleAnswered(ok)) && Inv(next) && next.stream
    ensures RunFrom(s, events) == RunFrom(next, events[1..])
  {
    next := Next(s, PullSettleAnswered(ok));
    StepKeepsInv(s, PullSettleAnswered(ok));
  }

  /**
   * Nobody interfering, a stream hands on every item of the upstream, whatever their number, then
   * settles once with the status of its last read, and closes, or errors when it was not finalized.
   */
  lemma UndisturbedStream(seen: seq<Read>, last: Read, finalized: bool)
    requires (forall i :: 0 <= i < |seen| ==> GoesOn(seen[i])) && !GoesOn(last)
    ensures var end := RunFrom(Begin(true), OPENING + Pulls(seen) + [PullCalled, ReadAnswered(last)] + Settling(finalized));
      && Terminated(end) && end.controller == (if finalized then Closed else Errored)
      && end.log.sent == [Head] + WrittenBy(seen) + Written(last) && end.log.ended == Some(StatusOf(last))
      && end.log.finalizes == 1 && end.log.releases == 0 && end.log.leaseReleases == 1 && end.log.records == 1
  {
    var s := ReadThrough(seen);
    var over := ReadToTheEnd(s, seen, last);
    ClosesAfter(OPENING + Pulls(seen) + [PullCalled, ReadAnswered(last)], over, finalized);
  }

  lemma ClosesAfter(pulled: seq<Event>, over: Run, finalized: bool)
    requires over == RunFrom(Begin(true), pulled) && Inv(over) && over.stream
    requires over.main == Streaming && over.pull == PullSettling(Finalizing) && over.controller == Open && !over.cancelled
    ensures var end := RunFrom(Begin(true), pulled + Settling(finalized));
      && Terminated(end) && end.controller == (if finalized then Closed else Errored)
      && end.log.sent == over.log.sent && end.log.ended == over.log.ended
      && end.log.finalizes == 1 && end.log.releases == 0 && end.log.leaseReleases == 1 && end.log.records == 1
  {
    SettlesAndCloses(over, finalized);
    RunAppended(Begin(true), pulled, Settling(finalized));
    FinishedRunIsResolved(true, pulled + Settling(finalized));
    StreamIsSettled(pulled + Settling(finalized));
  }

  lemma StreamIsSettled(events: seq<Event>)
    ensures var end := RunFrom(Begin(true), events);
      Terminated(end) && end.main == Streaming ==> end.log.finalizes == 1 && end.log.releases == 0 && end.log.records == 1
  {
    RunKeepsInv(Begin(true), events);
  }

  lemma ReadThrough(seen: seq<Read>) returns (s: Run)
    requires forall i :: 0 <= i < |seen| ==> GoesOn(seen[i])
    ensures s == RunFrom(Begin(true), OPENING + Pulls(seen)) && OpenStream(s)
    ensures LiveReads(Begin(true), OPENING + Pulls(seen)) == seen && !HungUpIn(Begin(true), OPENING + Pulls(seen))
  {
    Opens();
    var open := RunFrom(Begin(true), OPENING);
    PullsReadAll(open, seen);
    RunAppended(Begin(true), OPENING, Pulls(seen));
    LiveAppended(Begin(true), OPENING, Pulls(seen));
    assert [] + seen == seen;
    s := RunFrom(Begin(true), OPENING + Pulls(seen));
  }

  lemma ReadToTheEnd(s: Run, seen: seq<Read>, last: Read) returns (over: Run)
    requires s == RunFrom(Begin(true), OPENING + Pulls(seen)) && OpenStream(s) && !GoesOn(last)
    requires LiveReads(Begin(true), OPENING + Pulls(seen)) == seen && !HungUpIn(Begin(true), OPENING + Pulls(seen))
    ensures over == RunFrom(Begin(true), OPENING + Pulls(seen) + [PullCalled, ReadAnswered(last)])
    ensures Inv(over) && over.stream && over.main == Streaming && over.pull == PullSettling(Finalizing)
    ensures over.controller == Open && !over.cancelled
    ensures over.log.sent == [Head] + WrittenBy(seen) + Written(last) && over.log.ended == Some(StatusOf(last))
  {
    var started, more := OPENING + Pulls(seen), [PullCalled, ReadAnswered(last)];
    assert more + [] == more;
    PullReads(s, last, []);
    RunAppended(Begin(true), started, more);
    LiveAppended(Begin(true), started, more);
    over := RunFrom(Begin(true), started + more);
    LastReadSettles(s, last);
    LiveReadsSent(started + more, seen, last);
  }

  lemma LiveReadsSent(events: seq<Event>, seen: seq<Read>, last: Read)
    requires RunFrom(Begin(true), events).main == Streaming && !GoesOn(last)
    requires LiveReads(Begin(true), events) == seen + [last]
    ensures var over := RunFrom(Begin(true), events);
      over.log.sent == [Head] + WrittenBy(seen) + Written(last) && over.log.ended == Some(StatusOf(last))
  {
    StreamDelivers(events);
    OneMoreRead(seen, last);
    assert [Head] + (WrittenBy(seen) + Written(last)) == [Head] + WrittenBy(seen) + Written(last);
  }

  lemma LastReadSettles(s: Run, last: Read)
    requires OpenStream(s) && !GoesOn(last)
    ensures var over := Next(Next(s, PullCalled), ReadAnswered(last));
      over.main == Streaming && over.pull == PullSettling(Finalizing) && over.controller == Open && !over.cancelled
  {
  }

  // --- the request thread -----------------------------------------------------------------

  predicate FineUpTo(answers: seq<Answer>, n: nat) {
    n <= |answers| && forall i :: 0 <= i < n ==> answers[i] == Fine
  }

  lemma OneFineLess(answers: seq<Answer>, n: nat)
    requires n > 0 && answers != []
    ensures FineUpTo(answers, n) <==> answers[0] == Fine && FineUpTo(answers[1..], n - 1)
  {
    if answers[0] == Fine && FineUpTo(answers[1..], n - 1) {
      forall i | 0 <= i < n
        ensures answers[i] == Fine
      {
        assert i > 0 ==> answers[i] == answers[1..][i - 1];
      }
    }
  }

  /** How many of the next answers must be fine for a hold, for an answer or an open stream, for the return. */
  predicate WillHold(s: Run, answers: seq<Answer>) {
    match s.main
    case Pricing => FineUpTo(answers, 3)
    case Budgeting => FineUpTo(answers, 2)
    case Reserving => FineUpTo(answers, 1)
    case _ => s.log.everReserved
  }

  predicate WillServe(s: Run, answers: seq<Answer>) {
    var more := if s.stream then 0 else 1;
    match s.main
    case Pricing => FineUpTo(answers, 4 + more)
    case Budgeting => FineUpTo(answers, 3 + more)
    case Reserving => FineUpTo(answers, 2 + more)
    case Electing => FineUpTo(answers, 1 + more)
    case ReadingBody => FineUpTo(answers, 1)
    case MainSettling(_) => true
    case Streaming => true
    case _ => s.settled
  }

  predicate WillReturn(s: Run, answers: seq<Answer>) {
    match s.main
    case Pricing => !s.stream && FineUpTo(answers, 6)
    case Budgeting => !s.stream && FineUpTo(answers, 5)
    case Reserving => !s.stream && FineUpTo(answers, 4)
    case Electing => !s.stream && FineUpTo(answers, 3)
    case ReadingBody => FineUpTo(answers, 2)
    case MainSettling(at) => if at.Finalizing? then FineUpTo(answers, 1) else !at.fault
    case Returned => true
    case _ => false
  }

  predicate Alike(s: Run, answers: seq<Answer>, next: Run, rest: seq<Answer>) {
    && (WillHold(s, answers) <==> WillHold(next, rest))
    && (WillServe(s, answers) <==> WillServe(next, rest))
    && (WillReturn(s, answers) <==> WillReturn(next, rest))
  }

  lemma AnswerKeepsCourse(s: Run, answers: seq<Answer>)
    requires Inv(s) && answers != []
    ensures Alike(s, answers, MainNext(s, answers[0]), answers[1..])
  {
    OneFineLess(answers, 1);
    OneFineLess(answers, 2);
    OneFineLess(answers, 3);
    OneFineLess(answers, 4);
    OneFineLess(answers, 5);
    OneFineLess(answers, 6);
  }

  lemma {:induction false} RunKeepsCourse(s: Run, events: seq<Event>)
    requires Inv(s)
    ensures Alike(s, Answers(events), RunFrom(s, events), [])
    decreases |events|
  {
    if events != [] {
      var e := events[0];
      StepKeepsInv(s, e);
      RunKeepsCourse(Next(s, e), events[1..]);
      if e.MainAnswered? {
        assert Answers(events)[0] == e.answer && Answers(events)[1..] == Answers(events[1..]);
        AnswerKeepsCourse(s, Answers(events));
      } else {
        assert Answers(events) == Answers(events[1..]);
        CallbacksKeepCourse(s, e, Answers(events));
      }
    }
  }

  lemma CallbacksKeepCourse(s: Run, e: Event, answers: seq<Answer>)
    requires Inv(s) && !e.MainAnswered?
    ensures Alike(s, answers, Next(s, e), answers)
  {
    if s.main == Streaming {
      assert Next(s, e).main == Streaming && Next(s, e).log.everReserved == s.log.everReserved && Next(s, e).stream == s.stream;
    } else {
      assert Next(s, e) == s;
    }
  }

  /**
   * For any answers, a finished request took a hold exactly when its first three awaits went well;
   * it is settled exactly when the upstream call went well too, and for a buffered answer its
   * reading; a hold that is not settled is released; and only a buffered answer that was also
   * finalized well is returned.
   */
  lemma RequestFollowsAnswers(stream: bool, events: seq<Event>)
    ensures var s, a := RunFrom(Begin(stream), events), Answers(events);
      Terminated(s) ==>
        && (s.log.everReserved <==> FineUpTo(a, 3))
        && (s.log.finalizes == 1 <==> FineUpTo(a, if stream then 4 else 5))
        && (s.log.releases == 1 <==> FineUpTo(a, 3) && !FineUpTo(a, if stream then 4 else 5))
        && (s.main == Returned <==> !stream && FineUpTo(a, 6))
        && (s.main == Streaming <==> stream && FineUpTo(a, 4))
  {
    RunKeepsCourse(Begin(stream), events);
    RunKeepsInv(Begin(stream), events);
    var a := Answers(events);
    assert FineUpTo(a, 4) ==> FineUpTo(a, 3);
    assert FineUpTo(a, 5) ==> FineUpTo(a, 3);
  }
}
