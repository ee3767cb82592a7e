/**
 * One relayed request after its concurrency lease was granted: the request thread, the stream's
 * pull and cancel callbacks, and the awaits at which they interleave. Everything a callback does
 * between two awaits is one atomic step. The log counts the calls that must not be repeated, and
 * keeps what was written to the client and the status the request was settled with.
 */
module RelayRun {
  import opened Options

  // --- states --------------------------------------------------------------------------

  /** Where a caller is inside `settle`; `fault` remembers that finalizing failed. */
  datatype Settle = Finalizing | Charging(fault: bool) | Recording(fault: bool) | Unleasing(fault: bool) | Settled(fault: bool)

  datatype Main =
    | Pricing | Budgeting | Reserving | Electing | ReadingBody
    | Refunding | RefundUnleasing
    | MainSettling(at: Settle)
    | CatchRefunding | CatchRecording | CatchUnleasing
    | Returned | Threw | Streaming

  datatype Pull = PullIdle | PullReading | PullSettling(at: Settle)

  datatype Cancel = NoCancel | CancelSettling(at: Settle) | CancelDone

  datatype Controller = Open | Closed | Errored | Cancelled

  datatype Status = Succeeded | Failed | Aborted

  /** What is written to the client. The texts of head, error note and tail are the framer's, and may be empty. */
  datatype Piece = Head | Payload(text: string) | ErrorNote | Tail

  datatype Log = Log(everReserved: bool, finalizes: nat, releases: nat, leaseReleases: nat, records: nat, misuse: bool,
                     sent: seq<Piece>, ended: Option<Status>)

  const NEW_LOG := Log(false, 0, 0, 0, 0, false, [], None)

  datatype Run = Run(
    stream: bool, main: Main, pull: Pull, cancel: Cancel, controller: Controller,
    reserved: bool, settled: bool, finished: bool, cancelled: bool, leaseReleased: bool, log: Log)

  function Begin(stream: bool): Run {
    Run(stream, Pricing, PullIdle, NoCancel, Open, false, false, false, false, false, NEW_LOG)
  }

  /** What the awaited call of the request thread answered. */
  datatype Answer =
    | Fine
    | Fault
    | NoBody           // a streamed response without a body
    | NotJson          // a buffered response that does not parse
    | CannotTransform  // a buffered response that cannot be converted

  datatype Read =
    | ReadFault
    | EndOfStream
    | Item(translates: bool, payload: string, terminal: bool)

  datatype Event =
    | MainAnswered(answer: Answer)
    | PullCalled
    | ReadAnswered(read: Read)
    | PullSettleAnswered(ok: bool)
    | CancelCalled
    | CancelSettleAnswered(ok: bool)

  // --- shared pieces ----------------------------------------------------------------------

  function ReleaseLease(s: Run): Run {
    if s.leaseReleased then s
    else s.(leaseReleased := true, log := s.log.(leaseReleases := s.log.leaseReleases + 1))
  }

  function ReleaseQuota(s: Run): Run {
    s.(log := s.log.(releases := s.log.releases + 1))
  }

  function RecordUsage(s: Run): Run {
    s.(log := s.log.(records := s.log.records + 1))
  }

  /** `settle` up to its first await. */
  function SettleBegin(s: Run, status: Status): (Run, Settle) {
    if s.settled then (s, Settled(false))
    else
      (s.(settled := true, reserved := false, log := s.log.(finalizes := s.log.finalizes + 1, ended := Some(status))), Finalizing)
  }

  /** `settle` from one await to the next. */
  function SettleNext(s: Run, at: Settle, ok: bool): (Run, Settle) {
    match at
    case Finalizing => (s, Charging(!ok))
    case Charging(fault) => (RecordUsage(s), Recording(fault))
    case Recording(fault) => (ReleaseLease(s), Unleasing(fault))
    case Unleasing(fault) => (s, Settled(fault))
    case Settled(_) => (s, at)
  }

  /** The catch block up to its first await. */
  function Catch(s: Run): Run {
    if s.reserved then ReleaseQuota(s).(main := CatchRefunding)
    else RecordUsage(s).(main := CatchRecording)
  }

  function Enqueue(s: Run, piece: Piece): Run {
    if s.controller == Open then s.(log := s.log.(sent := s.log.sent + [piece])) else s.(log := s.log.(misuse := true))
  }

  function CloseController(s: Run): Run {
    if s.controller == Open then s.(controller := Closed) else s.(log := s.log.(misuse := true))
  }

  /** `finishStream` up to its await. */
  function FinishStream(s: Run, status: Status): Run {
    if s.finished then s.(pull := PullIdle)
    else
      var s1 := s.(finished := true);
      var s2 := if s1.cancelled then s1 else Enqueue(s1, Tail);
      var (s3, at) := SettleBegin(s2, status);
      s3.(pull := PullSettling(at))
  }

  // --- the three threads ---------------------------------------------------------------------

  function MainNext(s: Run, answer: Answer): Run {
    match s.main
    case Pricing => if answer == Fine then s.(main := Budgeting) else Catch(s)
    case Budgeting => if answer == Fine then s.(main := Reserving) else Catch(s)
    case Reserving =>
      if answer == Fine then s.(reserved := true, main := Electing, log := s.log.(everReserved := true)) else Catch(s)
    case Electing =>
      if answer == NoBody && s.stream then ReleaseQuota(s).(main := Refunding)
      else if answer != Fine then Catch(s)
      else if s.stream then Enqueue(s.(reserved := false, main := Streaming), Head)
      else s.(main := ReadingBody)
    case ReadingBody =>
      if answer == NotJson then ReleaseQuota(s).(main := Refunding)
      else if answer != Fine then Catch(s)
      else
        var (s1, at) := SettleBegin(s, Succeeded);
        s1.(main := MainSettling(at))
    case Refunding => ReleaseLease(s.(reserved := false)).(main := RefundUnleasing)
    case RefundUnleasing => Catch(s)
    case MainSettling(at) =>
      if at.Settled? then
        if at.fault then Catch(s) else s.(reserved := false, main := Returned)
      else
        var (s1, next) := SettleNext(s, at, answer == Fine);
        s1.(main := MainSettling(next))
    case CatchRefunding => RecordUsage(s).(main := CatchRecording)
    case CatchRecording => ReleaseLease(s).(main := CatchUnleasing)
    case CatchUnleasing => s.(main := Threw)
    case _ => s
  }

  /** One round of the pull loop, from the answer of a read. */
  function ReadNext(s: Run, read: Read): Run {
    if s.finished then s.(pull := PullIdle)
    else match read
      case ReadFault => FinishStream(Enqueue(s, ErrorNote), Failed)
      case EndOfStream => FinishStream(s, Succeeded)
      case Item(translates, payload, terminal) =>
        if !translates then FinishStream(Enqueue(s, ErrorNote), Failed)
        else
          var s1 := if payload != "" then Enqueue(s, Payload(payload)) else s;
          if terminal then FinishStream(s1, Succeeded)
          else if payload != "" then s1.(pull := PullIdle)
          else s1
  }

  /** A settlement fault rejects the pull, which errors a stream that is still open. */
  function PullSettleNext(s: Run, at: Settle, ok: bool): Run {
    if !at.Settled? then
      var (s1, next) := SettleNext(s, at, ok);
      s1.(pull := PullSettling(next))
    else if at.fault then s.(pull := PullIdle, controller := if s.controller == Open then Errored else s.controller)
    else (if s.cancelled then s else CloseController(s)).(pull := PullIdle)
  }

  function CancelNext(s: Run): Run {
    var (s1, at) := SettleBegin(s.(cancelled := true, finished := true, controller := Cancelled), Aborted);
    s1.(cancel := CancelSettling(at))
  }

  function CancelSettleNext(s: Run, at: Settle, ok: bool): Run {
    if at.Settled? then s.(cancel := CancelDone)
    else
      var (s1, next) := SettleNext(s, at, ok);
      s1.(cancel := CancelSettling(next))
  }

  /**
   * One step. The stream calls `pull` only while it is open and no pull is pending, and `cancel`
   * only while it is open; an event that cannot happen changes nothing.
   */
  function Next(s: Run, e: Event): Run {
    match e
    case MainAnswered(answer) => MainNext(s, answer)
    case PullCalled =>
      if s.main == Streaming && s.controller == Open && s.pull == PullIdle && !s.finished then s.(pull := PullReading) else s
    case ReadAnswered(read) => if s.pull == PullReading then ReadNext(s, read) else s
    case PullSettleAnswered(ok) => if s.pull.PullSettling? then PullSettleNext(s, s.pull.at, ok) else s
    case CancelCalled => if s.main == Streaming && s.controller == Open then CancelNext(s) else s
    case CancelSettleAnswered(ok) => if s.cancel.CancelSettling? then CancelSettleNext(s, s.cancel.at, ok) else s
  }

  function RunFrom(s: Run, events: seq<Event>): Run
    decreases |events|
  {
    if events == [] then s else RunFrom(Next(s, events[0]), events[1..])
  }

  /** The request was answered and, for a stream, the stream is over and no callback is pending. */
  predicate Terminated(s: Run) {
    s.main in {Returned, Threw}
    || (s.main == Streaming && s.controller != Open && s.pull == PullIdle && !s.cancel.CancelSettling?)
  }

  // --- the invariant -----------------------------------------------------------------------

  predicate Busy(at: Settle) {
    at.Finalizing? || at.Charging? || at.Recording?
  }

  function BusyRecords(at: Settle): nat {
    if at.Recording? then 1 else 0
  }

  predicate PullBusy(s: Run) {
    s.pull.PullSettling? && Busy(s.pull.at)
  }

  predicate CancelBusy(s: Run) {
    s.cancel.CancelSettling? && Busy(s.cancel.at)
  }

  predicate CountsMatch(s: Run) {
    && s.log.finalizes == (if s.settled then 1 else 0)
    && s.log.leaseReleases == (if s.leaseReleased then 1 else 0)
    && !s.log.misuse
    && (s.settled ==> s.log.everReserved && s.log.releases == 0 && !s.reserved)
  }

  predicate QuietStream(s: Run) {
    s.pull == PullIdle && s.cancel == NoCancel && s.controller == Open && !s.finished && !s.cancelled
  }

  /** At most one of settle and release so far, exactly one if a hold was taken. */
  predicate Resolved(s: Run) {
    s.log.finalizes + s.log.releases == (if s.log.everReserved then 1 else 0)
  }

  predicate MainInv(s: Run) {
    match s.main
    case Pricing => Fresh(s) && !s.reserved && !s.log.everReserved
    case Budgeting => Fresh(s) && !s.reserved && !s.log.everReserved
    case Reserving => Fresh(s) && !s.reserved && !s.log.everReserved
    case Electing => Fresh(s) && s.reserved && s.log.everReserved
    case ReadingBody => Fresh(s) && s.reserved && s.log.everReserved && !s.stream
    case Refunding =>
      !s.settled && s.reserved && s.log.everReserved && s.log.releases == 1 && !s.leaseReleased && s.log.records == 0
    case RefundUnleasing => !s.reserved && Resolved(s) && s.leaseReleased && !s.settled && s.log.records == 0
    case MainSettling(at) =>
      && s.settled && !s.stream
      && s.leaseReleased == !Busy(at) && s.log.records == (if Busy(at) then BusyRecords(at) else 1)
    case CatchRefunding =>
      !s.settled && s.reserved && s.log.everReserved && s.log.releases == 1 && !s.leaseReleased && s.log.records == 0
    case CatchRecording => Resolved(s) && s.log.records == (if s.settled then 2 else 1) && (s.settled ==> !s.stream)
    case CatchUnleasing => Resolved(s) && s.log.records == (if s.settled then 2 else 1) && (s.settled ==> !s.stream) && s.leaseReleased
    case Threw => Resolved(s) && s.log.records == (if s.settled then 2 else 1) && (s.settled ==> !s.stream) && s.leaseReleased
    case Returned => Resolved(s) && s.settled && s.leaseReleased && s.log.records == 1
    case Streaming => StreamInv(s)
  }

  predicate Fresh(s: Run) {
    !s.settled && !s.leaseReleased && s.log.releases == 0 && s.log.records == 0
  }

  function StreamRecords(s: Run): nat {
    if PullBusy(s) then BusyRecords(s.pull.at) else if CancelBusy(s) then BusyRecords(s.cancel.at) else 1
  }

  predicate StreamInv(s: Run) {
    && s.stream && s.log.everReserved && !s.reserved && s.log.releases == 0
    && s.settled == s.finished
    && s.cancelled == (s.controller == Cancelled)
    && (!s.finished ==> s.controller == Open && s.cancel == NoCancel && !s.pull.PullSettling? && Fresh(s))
    && (s.cancel != NoCancel ==> s.cancelled)
    && (s.pull.PullSettling? ==> s.finished && (s.controller == Open || s.cancelled))
    && (s.finished && s.controller == Open ==> s.pull.PullSettling?)
    && (s.settled ==> (s.leaseReleased <==> !PullBusy(s) && !CancelBusy(s)))
    && !(PullBusy(s) && CancelBusy(s))
    && (s.settled ==> s.log.records == StreamRecords(s))
  }

  predicate Inv(s: Run) {
    CountsMatch(s) && MainInv(s) && (s.main != Streaming ==> QuietStream(s))
  }

  lemma SettlingKeepsInv(s: Run, answer: Answer)
    requires Inv(s) && s.main.MainSettling?
    ensures var n := MainNext(s, answer); Inv(n) && n.stream == s.stream
  {
  }

  lemma StartingKeepsInv(s: Run, answer: Answer)
    requires Inv(s) && s.main in {Pricing, Budgeting, Reserving}
    ensures var n := MainNext(s, answer); Inv(n) && n.stream == s.stream
  {
  }

  lemma RelayingKeepsInv(s: Run, answer: Answer)
    requires Inv(s) && s.main in {Electing, ReadingBody}
    ensures var n := MainNext(s, answer); Inv(n) && n.stream == s.stream
  {
  }

  lemma FailingKeepsInv(s: Run, answer: Answer)
    requires Inv(s) && s.main in {Refunding, RefundUnleasing, CatchRefunding, CatchRecording, CatchUnleasing}
    ensures var n := MainNext(s, answer); Inv(n) && n.stream == s.stream
  {
  }

  lemma ReadKeepsInv(s: Run, read: Read)
    requires Inv(s) && s.pull == PullReading
    ensures var n := ReadNext(s, read); Inv(n) && n.stream == s.stream
  {
  }

  lemma PullSettleKeepsInv(s: Run, ok: bool)
    requires Inv(s) && s.pull.PullSettling?
    ensures var n := PullSettleNext(s, s.pull.at, ok); Inv(n) && n.stream == s.stream
  {
  }

  lemma CancelKeepsInv(s: Run)
    requires Inv(s) && s.main == Streaming && s.controller == Open
    ensures var n := CancelNext(s); Inv(n) && n.stream == s.stream
  {
  }

  lemma CancelSettleKeepsInv(s: Run, ok: bool)
    requires Inv(s) && s.cancel.CancelSettling?
    ensures var n := CancelSettleNext(s, s.cancel.at, ok); Inv(n) && n.stream == s.stream
  {
    assert s.main == Streaming && s.finished && s.cancelled;
  }

  lemma StepKeepsInv(s: Run, e: Event)
    requires Inv(s)
    ensures var n := Next(s, e); Inv(n) && n.stream == s.stream
  {
    match e
    case MainAnswered(answer) =>
      if s.main.MainSettling? {
        SettlingKeepsInv(s, answer);
      } else if s.main in {Pricing, Budgeting, Reserving} {
        StartingKeepsInv(s, answer);
      } else if s.main in {Electing, ReadingBody} {
        RelayingKeepsInv(s, answer);
      } else if s.main !in {Returned, Threw, Streaming} {
        FailingKeepsInv(s, answer);
      }
    case ReadAnswered(read) => if s.pull == PullReading { ReadKeepsInv(s, read); }
    case PullSettleAnswered(ok) => if s.pull.PullSettling? { PullSettleKeepsInv(s, ok); }
    case CancelCalled => if s.main == Streaming && s.controller == Open { CancelKeepsInv(s); }
    case CancelSettleAnswered(ok) => if s.cancel.CancelSettling? { CancelSettleKeepsInv(s, ok); }
    case _ =>
  }

  lemma {:induction false} RunKeepsInv(s: Run, events: seq<Event>)
    requires Inv(s)
    ensures var n := RunFrom(s, events); Inv(n) && n.stream == s.stream
    decreases |events|
  {
    if events != [] {
      StepKeepsInv(s, events[0]);
      RunKeepsInv(Next(s, events[0]), events[1..]);
    }
  }

  // --- what every run guarantees ---------------------------------------------------------------

  /**
   * In every interleaving the hold is finalized or released at most once in all, never released
   * once settling began, never touched without a hold; the lease is released at most once; and
   * nothing is written to a stream that was closed, errored or cancelled.
   */
  lemma RunIsSafe(stream: bool, events: seq<Event>)
    ensures var s := RunFrom(Begin(stream), events);
      && s.log.finalizes + s.log.releases <= (if s.log.everReserved then 1 else 0)
      && (s.settled ==> s.log.releases == 0)
      && s.log.leaseReleases <= 1
      && !s.log.misuse
  {
    RunKeepsInv(Begin(stream), events);
  }

  /**
   * A run that is over resolved its hold exactly once, released its lease exactly once and
   * recorded usage; a second row is attempted only after a buffered answer failed to settle.
   */
  lemma FinishedRunIsResolved(stream: bool, events: seq<Event>)
    ensures var s := RunFrom(Begin(stream), events);
      Terminated(s) ==>
        && s.log.finalizes + s.log.releases == (if s.log.everReserved then 1 else 0)
        && s.log.leaseReleases == 1
        && s.log.records == (if s.main == Threw && s.settled then 2 else 1)
        && (s.main == Threw && s.settled ==> !stream)
  {
    RunKeepsInv(Begin(stream), events);
  }

  // --- when a second row is attempted -----------------------------------------------------------

  /** What the request thread's awaits were answered, in order. */
  function Answers(events: seq<Event>): seq<Answer> {
    if events == [] then []
    else (if events[0].MainAnswered? then [events[0].answer] else []) + Answers(events[1..])
  }

  function RunAnswers(s: Run, answers: seq<Answer>): Run
    decreases |answers|
  {
    if answers == [] then s else RunAnswers(MainNext(s, answers[0]), answers[1..])
  }

  /** A buffered run is decided by the answers of its request thread. */
  lemma {:induction false} BufferedRunIsAnswered(s: Run, events: seq<Event>)
    requires Inv(s) && !s.stream
    ensures RunFrom(s, events) == RunAnswers(s, Answers(events))
    decreases |events|
  {
    if events != [] {
      StepKeepsInv(s, events[0]);
      BufferedRunIsAnswered(Next(s, events[0]), events[1..]);
      if events[0].MainAnswered? {
        assert Answers(events)[0] == events[0].answer && Answers(events)[1..] == Answers(events[1..]);
      } else {
        assert Next(s, events[0]) == s;
        assert Answers(events) == Answers(events[1..]);
      }
    }
  }

  /** `k` awaits went well and the next one did not. */
  predicate FaultsAfter(answers: seq<Answer>, k: nat) {
    |answers| > k && (forall i :: 0 <= i < k ==> answers[i] == Fine) && answers[k] != Fine
  }

  /** How many answers a buffered run is away from the one that finalizes; none when it is past it. */
  function AwaitsToFinalize(main: Main): int {
    match main
    case Pricing => 5
    case Budgeting => 4
    case Reserving => 3
    case Electing => 2
    case ReadingBody => 1
    case MainSettling(at) => if at.Finalizing? then 0 else -1
    case _ => -1
  }

  /** Finalizing has failed already. */
  predicate HasFaulted(s: Run) {
    match s.main
    case MainSettling(at) => !at.Finalizing? && at.fault
    case CatchRecording => s.settled
    case CatchUnleasing => s.settled
    case Threw => s.settled
    case _ => false
  }

  predicate WillFault(s: Run, answers: seq<Answer>) {
    HasFaulted(s) || (AwaitsToFinalize(s.main) >= 0 && FaultsAfter(answers, AwaitsToFinalize(s.main)))
  }

  lemma AnswerDecides(s: Run, answers: seq<Answer>)
    requires Inv(s) && !s.stream && answers != []
    ensures WillFault(s, answers) <==> WillFault(MainNext(s, answers[0]), answers[1..])
  {
    var k := AwaitsToFinalize(s.main);
    if k > 0 && answers[0] == Fine {
      ShiftFaults(answers, k);
    }
  }

  lemma ShiftFaults(answers: seq<Answer>, k: nat)
    requires k > 0 && answers != [] && answers[0] == Fine
    ensures FaultsAfter(answers, k) <==> FaultsAfter(answers[1..], k - 1)
  {
    if FaultsAfter(answers[1..], k - 1) {
      forall i | 0 <= i < k
        ensures answers[i] == Fine
      {
        if i > 0 {
          assert answers[i] == answers[1..][i - 1];
        }
      }
    }
  }

  lemma {:induction false} AnswersDecide(s: Run, answers: seq<Answer>)
    requires Inv(s) && !s.stream
    ensures var end := RunAnswers(s, answers);
      Terminated(end) ==> (end.log.records == 2 <==> WillFault(s, answers))
    decreases |answers|
  {
    if answers != [] {
      AnswerDecides(s, answers);
      StepKeepsInv(s, MainAnswered(answers[0]));
      AnswersDecide(MainNext(s, answers[0]), answers[1..]);
    }
  }

  /**
   * A finished run attempts a second row exactly when it is buffered and its sixth await, which is
   * the finalize call after five that went well, was answered with a fault.
   */
  lemma SecondRowExactly(stream: bool, events: seq<Event>)
    ensures var s := RunFrom(Begin(stream), events);
      Terminated(s) ==> (s.log.records == 2 <==> !stream && FaultsAfter(Answers(events), 5))
  {
    FinishedRunIsResolved(stream, events);
    if !stream {
      BufferedRunIsAnswered(Begin(stream), events);
      AnswersDecide(Begin(stream), Answers(events));
    }
  }

  // --- every run can end ---------------------------------------------------------------------

  function SettleRank(at: Settle): nat {
    match at
    case Finalizing => 5
    case Charging(_) => 4
    case Recording(_) => 3
    case Unleasing(_) => 2
    case Settled(_) => 1
  }

  function Rank(s: Run): nat {
    match s.main
    case Returned => 0
    case Threw => 0
    case CatchUnleasing => 1
    case CatchRecording => 2
    case CatchRefunding => 3
    case RefundUnleasing => 3
    case MainSettling(at) => 3 + SettleRank(at)
    case Streaming =>
      (if s.controller == Open then 10 else 0)
      + (if s.pull.PullSettling? then SettleRank(s.pull.at) else if s.pull == PullReading then 1 else 0)
      + (if s.cancel.CancelSettling? then SettleRank(s.cancel.at) else 0)
    case _ => 4
  }

  /** A call that is still awaited, or the client hanging up. */
  function Ending(s: Run): Event {
    if s.main != Streaming then MainAnswered(Fault)
    else if s.pull == PullReading && s.finished then ReadAnswered(EndOfStream)
    else if s.pull.PullSettling? then PullSettleAnswered(true)
    else if s.cancel.CancelSettling? then CancelSettleAnswered(true)
    else CancelCalled
  }

  lemma EndingProgresses(s: Run)
    requires Inv(s) && !Terminated(s)
    ensures Rank(Next(s, Ending(s))) < Rank(s)
  {
    if s.pull.PullSettling? {
      assert s.main == Streaming;
    }
  }

  /** No reachable state is stuck: answering what is awaited, and hanging up, ends the run. */
  lemma {:induction false} EveryRunCanEnd(s: Run) returns (events: seq<Event>)
    requires Inv(s)
    ensures Terminated(RunFrom(s, events))
    decreases Rank(s)
  {
    if Terminated(s) {
      events := [];
    } else {
      EndingProgresses(s);
      StepKeepsInv(s, Ending(s));
      var rest := EveryRunCanEnd(Next(s, Ending(s)));
      events := [Ending(s)] + rest;
      assert events[1..] == rest;
    }
  }

  lemma {:induction false} RunAppended(s: Run, a: seq<Event>, b: seq<Event>)
    ensures RunFrom(s, a + b) == RunFrom(RunFrom(s, a), b)
    decreases |a|
  {
    if a == [] {
      assert a + b == b;
    } else {
      assert (a + b)[1..] == a[1..] + b;
      RunAppended(Next(s, a[0]), a[1..], b);
    }
  }

  lemma {:induction false} AnswersAppended(a: seq<Event>, b: seq<Event>)
    ensures Answers(a + b) == Answers(a) + Answers(b)
  {
    if a == [] {
      assert a + b == b;
    } else {
      assert (a + b)[0] == a[0] && (a + b)[1..] == a[1..] + b;
      AnswersAppended(a[1..], b);
      var first := if a[0].MainAnswered? then [a[0].answer] else [];
      assert first + (Answers(a[1..]) + Answers(b)) == first + Answers(a[1..]) + Answers(b);
    }
  }

  function FineAnswers(n: nat): (events: seq<Event>)
    ensures |Answers(events)| == n && forall i :: 0 <= i < n ==> Answers(events)[i] == Fine
  {
    if n == 0 then [] else
      var rest := FineAnswers(n - 1);
      assert ([MainAnswered(Fine)] + rest)[1..] == rest;
      [MainAnswered(Fine)] + rest
  }

  /** There are runs that attempt a second row: all goes well until finalizing fails. */
  lemma SecondRowHappens() returns (events: seq<Event>)
    ensures Terminated(RunFrom(Begin(false), events)) && RunFrom(Begin(false), events).log.records == 2
  {
    var start := FineAnswers(5) + [MainAnswered(Fault)];
    RunKeepsInv(Begin(false), start);
    var rest := EveryRunCanEnd(RunFrom(Begin(false), start));
    events := start + rest;
    RunAppended(Begin(false), start, rest);
    AnswersAppended(FineAnswers(5), [MainAnswered(Fault)]);
    AnswersAppended(start, rest);
    assert [MainAnswered(Fault)][1..] == [];
    assert Answers([MainAnswered(Fault)]) == [Fault];
    SecondRowExactly(false, events);
  }

  // --- the run with its captured variables -------------------------------------------------------

  class Relay {
    const stream: bool
    var main: Main
    var pull: Pull
    var cancel: Cancel
    var controller: Controller
    var reserved: bool
    var settled: bool
    var finished: bool
    var cancelled: bool
    var leaseReleased: bool
    var log: Log

    ghost function State(): Run
      reads this
    {
      Run(stream, main, pull, cancel, controller, reserved, settled, finished, cancelled, leaseReleased, log)
    }

    constructor (stream: bool)
      ensures State() == Begin(stream) && Inv(State())
    {
      this.stream := stream;
      main, pull, cancel, controller := Pricing, PullIdle, NoCancel, Open;
      reserved, settled, finished, cancelled, leaseReleased := false, false, false, false, false;
      log := NEW_LOG;
    }

    method ReleaseTheLease()
      modifies this`leaseReleased, this`log
      ensures State() == ReleaseLease(old(State()))
    {
      if leaseReleased {
        return;
      }
      leaseReleased := true;
      log := log.(leaseReleases := log.leaseReleases + 1);
    }

    /** `settle` from its call to its first await. */
    method SettleStart(status: Status) returns (at: Settle)
      modifies this`settled, this`reserved, this`log
      ensures (State(), at) == SettleBegin(old(State()), status)
    {
      if settled {
        return Settled(false);
      }
      settled := true;
      reserved := false;
      log := log.(finalizes := log.finalizes + 1, ended := Some(status));
      at := Finalizing;
    }

    /** `settle` from the answer of one await to the next. */
    method SettleResume(at: Settle, ok: bool) returns (next: Settle)
      modifies this`leaseReleased, this`log
      ensures (State(), next) == SettleNext(old(State()), at, ok)
    {
      match at
      case Finalizing =>
        next := Charging(!ok);
      case Charging(fault) =>
        log := log.(records := log.records + 1);
        next := Recording(fault);
      case Recording(fault) =>
        ReleaseTheLease();
        next := Unleasing(fault);
      case Unleasing(fault) =>
        next := Settled(fault);
      case Settled(_) =>
        next := at;
    }

    method CatchError()
      modifies this`main, this`log
      ensures State() == Catch(old(State()))
    {
      if reserved {
        log := log.(releases := log.releases + 1);
        main := CatchRefunding;
      } else {
        log := log.(records := log.records + 1);
        main := CatchRecording;
      }
    }

    method EnqueueBytes(piece: Piece)
      modifies this`log
      ensures State() == Enqueue(old(State()), piece)
    {
      if controller == Open {
        log := log.(sent := log.sent + [piece]);
      } else {
        log := log.(misuse := true);
      }
    }

    method Finish(status: Status)
      modifies this`finished, this`settled, this`reserved, this`pull, this`log
      ensures State() == FinishStream(old(State()), status)
    {
      if finished {
        pull := PullIdle;
        return;
      }
      finished := true;
      if !cancelled {
        EnqueueBytes(Tail);
      }
      var at := SettleStart(status);
      pull := PullSettling(at);
    }

    /** The request thread before it holds a reservation. */
    method ResumeStarting(answer: Answer)
      requires main in {Pricing, Budgeting, Reserving}
      modifies this
      ensures State() == MainNext(old(State()), answer)
    {
      if answer != Fine {
        CatchError();
        return;
      }
      match main
      case Pricing =>
        main := Budgeting;
      case Budgeting =>
        main := Reserving;
      case Reserving =>
        reserved := true;
        log := log.(everReserved := true);
        main := Electing;
    }

    /** The request thread after the upstream answered. */
    method ResumeRelaying(answer: Answer)
      requires main in {Electing, ReadingBody}
      modifies this
      ensures State() == MainNext(old(State()), answer)
    {
      if (main == Electing && stream && answer == NoBody) || (main == ReadingBody && answer == NotJson) {
        log := log.(releases := log.releases + 1);
        main := Refunding;
      } else if answer != Fine {
        CatchError();
      } else if main == ReadingBody {
        var at := SettleStart(Succeeded);
        main := MainSettling(at);
      } else if stream {
        reserved := false;
        main := Streaming;
        EnqueueBytes(Head);
      } else {
        main := ReadingBody;
      }
    }

    /** The request thread on its way to an error answer. */
    method ResumeFailing(answer: Answer)
      requires main in {Refunding, RefundUnleasing, CatchRefunding, CatchRecording, CatchUnleasing}
      modifies this
      ensures State() == MainNext(old(State()), answer)
    {
      match main
      case Refunding =>
        reserved := false;
        ReleaseTheLease();
        main := RefundUnleasing;
      case RefundUnleasing =>
        CatchError();
      case CatchRefunding =>
        log := log.(records := log.records + 1);
        main := CatchRecording;
      case CatchRecording =>
        ReleaseTheLease();
        main := CatchUnleasing;
      case CatchUnleasing =>
        main := Threw;
    }

    /** The request thread after an await inside `settle`, and after `settle` itself. */
    method ResumeMainSettle(answer: Answer)
      requires main.MainSettling?
      modifies this
      ensures State() == MainNext(old(State()), answer)
    {
      var at := main.at;
      if !at.Settled? {
        var next := SettleResume(at, answer == Fine);
        main := MainSettling(next);
      } else if at.fault {
        CatchError();
      } else {
        reserved := false;
        main := Returned;
      }
    }

    /** The pull loop after a read. */
    method ResumePull(read: Read)
      requires pull == PullReading
      modifies this
      ensures State() == Next(old(State()), ReadAnswered(read))
    {
      if finished {
        pull := PullIdle;
        return;
      }
      match read
      case ReadFault =>
        EnqueueBytes(ErrorNote);
        Finish(Failed);
      case EndOfStream =>
        Finish(Succeeded);
      case Item(translates, payload, terminal) =>
        if !translates {
          EnqueueBytes(ErrorNote);
          Finish(Failed);
          return;
        }
        if payload != "" {
          EnqueueBytes(Payload(payload));
        }
        if terminal {
          Finish(Succeeded);
        } else if payload != "" {
          pull := PullIdle;
        }
    }

    method ResumePullSettle(ok: bool)
      requires pull.PullSettling?
      modifies this
      ensures State() == Next(old(State()), PullSettleAnswered(ok))
    {
      var at := pull.at;
      if at.Settled? {
        EndPull(at.fault);
      } else {
        var next := SettleResume(at, ok);
        pull := PullSettling(next);
      }
    }

    /** After `settle` in `finishStream`: close, or reject and so error a stream that is still open. */
    method EndPull(fault: bool)
      modifies this`pull, this`controller, this`log
      ensures State() == PullSettleNext(old(State()), Settled(fault), true)
    {
      pull := PullIdle;
      if fault {
        if controller == Open {
          controller := Errored;
        }
      } else if !cancelled {
        if controller == Open {
          controller := Closed;
        } else {
          log := log.(misuse := true);
        }
      }
    }

    method CancelStream()
      requires main == Streaming && controller == Open
      modifies this
      ensures State() == Next(old(State()), CancelCalled)
    {
      controller := Cancelled;
      cancelled := true;
      finished := true;
      var at := SettleStart(Aborted);
      cancel := CancelSettling(at);
    }

    method ResumeCancel(ok: bool)
      requires cancel.CancelSettling?
      modifies this
      ensures State() == Next(old(State()), CancelSettleAnswered(ok))
    {
      if cancel.at.Settled? {
        cancel := CancelDone;
      } else {
        var next := SettleResume(cancel.at, ok);
        cancel := CancelSettling(next);
      }
    }

    /** The request thread after any await. */
    method ResumeRequest(answer: Answer)
      requires Inv(State())
      modifies this
      ensures State() == MainNext(old(State()), answer)
    {
      match main
      case MainSettling(_) => ResumeMainSettle(answer);
      case Pricing => ResumeStarting(answer);
      case Budgeting => ResumeStarting(answer);
      case Reserving => ResumeStarting(answer);
      case Electing => ResumeRelaying(answer);
      case ReadingBody => ResumeRelaying(answer);
      case Returned =>
      case Threw =>
      case Streaming =>
      case _ => ResumeFailing(answer);
    }

    /** Whatever happens next. */
    method Handle(e: Event)
      requires Inv(State())
      modifies this
      ensures State() == Next(old(State()), e) && Inv(State())
    {
      StepKeepsInv(State(), e);
      match e
      case MainAnswered(answer) => ResumeRequest(answer);
      case PullCalled =>
        if main == Streaming && controller == Open && pull == PullIdle && !finished {
          pull := PullReading;
        }
      case ReadAnswered(read) =>
        if pull == PullReading {
          ResumePull(read);
        }
      case PullSettleAnswered(ok) =>
        if pull.PullSettling? {
          ResumePullSettle(ok);
        }
      case CancelCalled =>
        if main == Streaming && controller == Open {
          CancelStream();
        }
      case CancelSettleAnswered(ok) =>
        if cancel.CancelSettling? {
          ResumeCancel(ok);
        }
    }
  }

  /** A request driven through any events: the theorems about runs are about this object. */
  method Drive(stream: bool, events: seq<Event>) returns (relay: Relay)
    ensures fresh(relay) && relay.State() == RunFrom(Begin(stream), events)
    ensures relay.log.finalizes + relay.log.releases <= (if relay.log.everReserved then 1 else 0)
    ensures relay.log.leaseReleases <= 1 && !relay.log.misuse
  {
    relay := new Relay(stream);
    assert events[0..] == events;
    for i := 0 to |events|
      invariant fresh(relay) && Inv(relay.State())
      invariant RunFrom(relay.State(), events[i..]) == RunFrom(Begin(stream), events)
    {
      assert events[i..][1..] == events[i + 1..];
      relay.Handle(events[i]);
    }
    assert events[|events|..] == [];
    RunIsSafe(stream, events);
  }
}
