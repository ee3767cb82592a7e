/**
 * The settlement outbox: a completion the database did not confirm is written to a shared buffer
 * and replayed later by flush workers. Ledger and buffer are separate stores; no step is atomic
 * over both.
 */
module SettlementReplay {
  import opened QuotaLedger
  import opened LedgerRuns
  import Q = LeasedQueue

  datatype Entry = Entry(requestId: Id, userId: Id, tokenId: Id, actual: Number)

  function WhoOf(e: Entry): Identity {
    Identity(e.userId, e.tokenId)
  }

  function KindOf(actual: Number): Kind {
    if actual == Finite(0.0) then Release else Settle
  }

  /** The entry names a reservation and its owner. */
  predicate Owned(s: State, e: Entry) {
    e.requestId in s.journal && s.journal[e.requestId].userId == e.userId && s.journal[e.requestId].tokenId == e.tokenId
  }

  /** The entry's own hold has been closed: nothing is left to replay. */
  predicate IsSettled(s: State, e: Entry) {
    Owned(s, e) && !s.journal[e.requestId].pending
  }

  function SettledIn(s: State): Entry -> bool {
    (e: Entry) => IsSettled(s, e)
  }

  datatype Outbox = Outbox(ledger: State, q: Q.System<Entry>)

  /** `pushed` says whether the write to the buffer reached it. */
  datatype OutboxStep =
    | OnLedger(step: Step)
    | Finalize(who: Identity, id: Id, actual: Number, fault: Fault, pushed: bool)
    | ReleaseHold(who: Identity, id: Id, fault: Fault, pushed: bool)
    | OnQueue(qstep: Q.Step<Entry>)

  /**
   * Finalize and release are called by the owner of a hold that was taken; the buffer is pushed to
   * only by them.
   */
  ghost predicate CanStep(o: Outbox, step: OutboxStep) {
    match step
    case OnLedger(_) => true
    case Finalize(who, id, actual, _, _) => Owned(o.ledger, Entry(id, who.userId, who.tokenId, actual))
    case ReleaseHold(who, id, _, _) => Owned(o.ledger, Entry(id, who.userId, who.tokenId, Finite(0.0)))
    case OnQueue(qstep) => !qstep.Push? && Q.Enabled(o.q, qstep, SettledIn(o.ledger))
  }

  function CompleteOrBuffer(o: Outbox, who: Identity, id: Id, actual: Number, kind: Kind, fault: Fault, pushed: bool): Outbox {
    var (ledger, answer) := Complete(o.ledger, who, id, actual, kind, fault);
    if answer == Err(Unavailable) && pushed then
      Outbox(ledger, Q.Apply(o.q, Q.Push(Entry(id, who.userId, who.tokenId, actual))))
    else o.(ledger := ledger)
  }

  function NextOutbox(o: Outbox, step: OutboxStep): Outbox {
    match step
    case OnLedger(step) => o.(ledger := Next(o.ledger, step))
    case Finalize(who, id, actual, fault, pushed) => CompleteOrBuffer(o, who, id, actual, KindOf(actual), fault, pushed)
    case ReleaseHold(who, id, fault, pushed) => CompleteOrBuffer(o, who, id, Finite(0.0), Release, fault, pushed)
    case OnQueue(qstep) => o.(q := Q.Apply(o.q, qstep))
  }

  /** What one step added to the buffer. */
  ghost function Buffered(o: Outbox, step: OutboxStep): set<Entry> {
    match step
    case Finalize(who, id, actual, fault, pushed) =>
      if pushed && Complete(o.ledger, who, id, actual, KindOf(actual), fault).1 == Err(Unavailable)
      then {Entry(id, who.userId, who.tokenId, actual)} else {}
    case ReleaseHold(who, id, fault, pushed) =>
      if pushed && Complete(o.ledger, who, id, Finite(0.0), Release, fault).1 == Err(Unavailable)
      then {Entry(id, who.userId, who.tokenId, Finite(0.0))} else {}
    case _ => {}
  }

  /** A completion that answered leaves its entry settled. */
  lemma AnsweredIsSettled(s: State, e: Entry, kind: Kind, fault: Fault)
    requires Owned(s, e)
    requires Complete(s, WhoOf(e), e.requestId, e.actual, kind, fault).1.Ok?
    ensures IsSettled(Complete(s, WhoOf(e), e.requestId, e.actual, kind, fault).0, e)
  {
  }

  /** Nothing buffered is missing; what is queued or peeked was buffered by its owner. */
  ghost predicate OutboxInv(o: Outbox, entries: set<Entry>) {
    && Q.Inv(o.q, entries, SettledIn(o.ledger))
    && HeldOwned(o.ledger, o.q)
  }

  predicate InHand(q: Q.System<Entry>, e: Entry) {
    e in q.queue || exists w :: w in q.workers && Q.Pending(q.workers[w]) && e in q.workers[w].items
  }

  ghost predicate HeldOwned(s: State, q: Q.System<Entry>) {
    forall e :: InHand(q, e) ==> Owned(s, e)
  }

  /** Owners stay owners, and what is settled stays settled. */
  lemma LedgerStepKeepsEntries(s: State, step: Step, q: Q.System<Entry>)
    requires HeldOwned(s, q)
    ensures HeldOwned(Next(s, step), q) && Q.Grows(SettledIn(s), SettledIn(Next(s, step)))
  {
    forall e: Entry | Owned(s, e)
      ensures Owned(Next(s, step), e) && (IsSettled(s, e) ==> IsSettled(Next(s, step), e))
    {
      StepContinues(s, step, e.requestId);
    }
  }

  lemma PushedIsOwned(s: State, q: Q.System<Entry>, entry: Entry)
    requires HeldOwned(s, q) && Owned(s, entry)
    ensures HeldOwned(s, Q.Apply(q, Q.Push(entry)))
  {
    forall e | InHand(Q.Apply(q, Q.Push(entry)), e)
      ensures Owned(s, e)
    {
      assert e == entry || InHand(q, e);
    }
  }

  lemma BufferedKeepsInv(o: Outbox, who: Identity, id: Id, actual: Number, kind: Kind, fault: Fault, pushed: bool,
                         entries: set<Entry>)
    requires OutboxInv(o, entries) && Owned(o.ledger, Entry(id, who.userId, who.tokenId, actual))
    ensures var after := CompleteOrBuffer(o, who, id, actual, kind, fault, pushed);
      var isNew := pushed && Complete(o.ledger, who, id, actual, kind, fault).1 == Err(Unavailable);
      OutboxInv(after, if isNew then entries + {Entry(id, who.userId, who.tokenId, actual)} else entries)
  {
    var after := CompleteOrBuffer(o, who, id, actual, kind, fault, pushed);
    var entry := Entry(id, who.userId, who.tokenId, actual);
    LedgerStepKeepsEntries(o.ledger, CompleteStep(who, id, actual, kind, fault), o.q);
    StepContinues(o.ledger, CompleteStep(who, id, actual, kind, fault), id);
    PushedIsOwned(after.ledger, o.q, entry);
    Q.DoneMayGrow(o.q, entries, SettledIn(o.ledger), SettledIn(after.ledger));
    Q.PushKeepsInv(o.q, entry, entries, SettledIn(after.ledger));
  }

  /** No worker step brings in an entry: workers peek at the queue and take from it. */
  lemma WorkersOnlyTake(q: Q.System<Entry>, step: Q.Step<Entry>, e: Entry)
    requires !step.Push? && InHand(Q.Apply(q, step), e)
    ensures InHand(q, e)
  {
    var after := Q.Apply(q, step);
    if e !in after.queue {
      var w :| w in after.workers && Q.Pending(after.workers[w]) && e in after.workers[w].items;
      WorkerHolds(q, step, w, e);
    }
  }

  lemma WorkerHolds(q: Q.System<Entry>, step: Q.Step<Entry>, w: Q.Owner, e: Entry)
    requires !step.Push? && w in Q.Apply(q, step).workers
    requires var phase := Q.Apply(q, step).workers[w]; Q.Pending(phase) && e in phase.items
    ensures e in q.queue || (w in q.workers && Q.Pending(q.workers[w]) && e in q.workers[w].items)
  {
  }

  lemma OutboxStepKeepsInv(o: Outbox, step: OutboxStep, entries: set<Entry>)
    requires OutboxInv(o, entries) && CanStep(o, step)
    ensures OutboxInv(NextOutbox(o, step), entries + Buffered(o, step))
  {
    assert entries + {} == entries;
    match step
    case OnLedger(s) =>
      LedgerStepKeepsEntries(o.ledger, s, o.q);
      Q.DoneMayGrow(o.q, entries, SettledIn(o.ledger), SettledIn(Next(o.ledger, s)));
    case Finalize(who, id, actual, fault, pushed) =>
      BufferedKeepsInv(o, who, id, actual, KindOf(actual), fault, pushed, entries);
    case ReleaseHold(who, id, fault, pushed) =>
      BufferedKeepsInv(o, who, id, Finite(0.0), Release, fault, pushed, entries);
    case OnQueue(qstep) =>
      Q.StepKeepsInv(o.q, qstep, entries, SettledIn(o.ledger));
      forall e | InHand(Q.Apply(o.q, qstep), e)
        ensures Owned(o.ledger, e)
      {
        WorkersOnlyTake(o.q, qstep, e);
      }
  }

  /** A run of ledger, outbox and worker steps, each possible where it happens. */
  ghost predicate CanRun(o: Outbox, steps: seq<OutboxStep>)
    decreases |steps|
  {
    steps == [] || (CanStep(o, steps[0]) && CanRun(NextOutbox(o, steps[0]), steps[1..]))
  }

  function RunOutbox(o: Outbox, steps: seq<OutboxStep>): Outbox
    decreases |steps|
  {
    if steps == [] then o else RunOutbox(NextOutbox(o, steps[0]), steps[1..])
  }

  ghost function BufferedIn(o: Outbox, steps: seq<OutboxStep>): set<Entry>
    decreases |steps|
  {
    if steps == [] then {} else Buffered(o, steps[0]) + BufferedIn(NextOutbox(o, steps[0]), steps[1..])
  }

  lemma {:induction false} RunKeepsOutboxInv(o: Outbox, steps: seq<OutboxStep>, entries: set<Entry>)
    requires OutboxInv(o, entries) && CanRun(o, steps)
    ensures OutboxInv(RunOutbox(o, steps), entries + BufferedIn(o, steps))
    decreases |steps|
  {
    if steps == [] {
      assert entries + {} == entries;
    } else {
      OutboxStepKeepsInv(o, steps[0], entries);
      RunKeepsOutboxInv(NextOutbox(o, steps[0]), steps[1..], entries + Buffered(o, steps[0]));
      assert entries + BufferedIn(o, steps)
          == entries + Buffered(o, steps[0]) + BufferedIn(NextOutbox(o, steps[0]), steps[1..]);
    }
  }

  /**
   * No buffered settlement is lost: whatever crashes, lost answers, expired leases and overlapping
   * workers a run holds, each is still in the buffer or its hold has been closed.
   */
  lemma NoSettlementLost(ledger: State, now: int, steps: seq<OutboxStep>, e: Entry)
    requires var o := Outbox(ledger, Q.System([], Q.Free, now, map[]));
      CanRun(o, steps) && e in BufferedIn(o, steps)
    ensures var end := RunOutbox(Outbox(ledger, Q.System([], Q.Free, now, map[])), steps);
      e in end.q.queue || IsSettled(end.ledger, e)
  {
    var o := Outbox(ledger, Q.System([], Q.Free, now, map[]));
    RunKeepsOutboxInv(o, steps, {});
    assert e in {} + BufferedIn(o, steps);
  }

  /**
   * In every run a flush worker's acknowledgement takes exactly the settlements it replayed off the
   * front of the buffer, or nothing once the lock is no longer its own.
   */
  lemma OutboxAckIsExact(ledger: State, now: int, steps: seq<OutboxStep>, w: Q.Owner)
    requires var o := Outbox(ledger, Q.System([], Q.Free, now, map[]));
      CanRun(o, steps) && CanStep(RunOutbox(o, steps), OnQueue(Q.Ack(w)))
    ensures var end := RunOutbox(Outbox(ledger, Q.System([], Q.Free, now, map[])), steps);
      var items, after := Q.PhaseOf(end.q, w).items, Q.Apply(end.q, Q.Ack(w));
      if Q.Holds(end.q, w) then end.q.queue == items + after.queue && forall e :: e in items ==> IsSettled(end.ledger, e)
      else after.queue == end.q.queue && after.lock == end.q.lock
  {
    var o := Outbox(ledger, Q.System([], Q.Free, now, map[]));
    RunKeepsOutboxInv(o, steps, {});
    var end := RunOutbox(o, steps);
    Q.AckTrimsPeeked(end.q, w, {} + BufferedIn(o, steps), SettledIn(end.ledger));
    forall e | e in Q.PhaseOf(end.q, w).items
      ensures SettledIn(end.ledger)(e)
    {
      assert w in end.q.workers && end.q.workers[w].Committed?;
    }
  }

  ghost function BroughtTo(o: Outbox, steps: seq<OutboxStep>, userId: Id): int
    decreases |steps|
  {
    if steps == [] then 0
    else (if steps[0].OnLedger? then Brought(o.ledger, steps[0].step, userId) else 0)
         + BroughtTo(NextOutbox(o, steps[0]), steps[1..], userId)
  }

  /** Finalizing, releasing and replaying move no money: a user's total changes only by what operators put in. */
  lemma {:induction false} OutboxConserves(o: Outbox, steps: seq<OutboxStep>, userId: Id)
    ensures Money(RunOutbox(o, steps).ledger, userId) == Money(o.ledger, userId) + BroughtTo(o, steps, userId)
    decreases |steps|
  {
    if steps != [] {
      OutboxConserves(NextOutbox(o, steps[0]), steps[1..], userId);
      OutboxStepConserves(o, steps[0], userId);
    }
  }

  lemma OutboxStepConserves(o: Outbox, step: OutboxStep, userId: Id)
    ensures Money(NextOutbox(o, step).ledger, userId)
         == Money(o.ledger, userId) + if step.OnLedger? then Brought(o.ledger, step.step, userId) else 0
  {
    match step
    case OnLedger(s) => StepConserves(o.ledger, s, userId);
    case Finalize(who, id, actual, fault, _) =>
      StepConserves(o.ledger, CompleteStep(who, id, actual, KindOf(actual), fault), userId);
    case ReleaseHold(who, id, fault, _) =>
      StepConserves(o.ledger, CompleteStep(who, id, Finite(0.0), Release, fault), userId);
    case OnQueue(_) =>
  }

  // --- a worker's completions, among the steps of others --------------------------

  /** The step replays the entry and the database answers. */
  predicate Answers(o: Outbox, step: OutboxStep, e: Entry) {
    && step.OnLedger? && step.step.CompleteStep?
    && var c := step.step;
    && c.who == WhoOf(e) && c.id == e.requestId && c.actual == e.actual && c.kind == KindOf(e.actual)
    && Complete(o.ledger, c.who, c.id, c.actual, c.kind, c.fault).1.Ok?
  }

  predicate AnsweredIn(o: Outbox, steps: seq<OutboxStep>, e: Entry)
    decreases |steps|
  {
    steps != [] && (Answers(o, steps[0], e) || AnsweredIn(NextOutbox(o, steps[0]), steps[1..], e))
  }

  lemma OwnedStays(o: Outbox, step: OutboxStep, e: Entry)
    requires Owned(o.ledger, e)
    ensures Owned(NextOutbox(o, step).ledger, e)
    ensures IsSettled(o.ledger, e) || Answers(o, step, e) ==> IsSettled(NextOutbox(o, step).ledger, e)
  {
    match step
    case OnLedger(s) =>
      StepContinues(o.ledger, s, e.requestId);
      if Answers(o, step, e) {
        AnsweredIsSettled(o.ledger, e, s.kind, s.fault);
      }
    case Finalize(who, id, actual, fault, _) =>
      StepContinues(o.ledger, CompleteStep(who, id, actual, KindOf(actual), fault), e.requestId);
    case ReleaseHold(who, id, fault, _) =>
      StepContinues(o.ledger, CompleteStep(who, id, Finite(0.0), Release, fault), e.requestId);
    case OnQueue(_) =>
  }

  lemma {:induction false} AnsweredSettles(o: Outbox, steps: seq<OutboxStep>, e: Entry)
    requires Owned(o.ledger, e) && (IsSettled(o.ledger, e) || AnsweredIn(o, steps, e))
    ensures IsSettled(RunOutbox(o, steps).ledger, e)
    decreases |steps|
  {
    if steps != [] {
      OwnedStays(o, steps[0], e);
      AnsweredSettles(NextOutbox(o, steps[0]), steps[1..], e);
    }
  }

  /**
   * A worker whose replays were all answered may acknowledge, whatever other steps fell between
   * them: completions by others, new settlements, lapsed locks, other workers.
   */
  lemma ReplaysEnableCommit(ledger: State, now: int, before: seq<OutboxStep>, w: Q.Owner, during: seq<OutboxStep>)
    requires CanRun(Outbox(ledger, Q.System([], Q.Free, now, map[])), before)
    requires var o := RunOutbox(Outbox(ledger, Q.System([], Q.Free, now, map[])), before);
      && Q.PhaseOf(o.q, w).Peeked? && Q.PhaseOf(RunOutbox(o, during).q, w) == Q.PhaseOf(o.q, w)
      && forall e :: e in Q.PhaseOf(o.q, w).items ==> AnsweredIn(o, during, e)
    ensures var o := RunOutbox(Outbox(ledger, Q.System([], Q.Free, now, map[])), before);
      CanStep(RunOutbox(o, during), OnQueue(Q.Commit(w)))
  {
    var start := Outbox(ledger, Q.System([], Q.Free, now, map[]));
    RunKeepsOutboxInv(start, before, {});
    PeekedAreSettled(RunOutbox(start, before), w, during);
  }

  lemma PeekedAreSettled(o: Outbox, w: Q.Owner, during: seq<OutboxStep>)
    requires HeldOwned(o.ledger, o.q) && Q.PhaseOf(o.q, w).Peeked?
    requires forall e :: e in Q.PhaseOf(o.q, w).items ==> AnsweredIn(o, during, e)
    ensures forall e :: e in Q.PhaseOf(o.q, w).items ==> SettledIn(RunOutbox(o, during).ledger)(e)
  {
    forall e | e in Q.PhaseOf(o.q, w).items
      ensures SettledIn(RunOutbox(o, during).ledger)(e)
    {
      assert InHand(o.q, e);
      AnsweredSettles(o, during, e);
    }
  }

  // --- one flush, as it is written -----------------------------------------------

  /** The replay refuses an entry without its three ids. */
  predicate Named(e: Entry) {
    e.requestId != "" && e.userId != "" && e.tokenId != ""
  }

  predicate AllOwned(s: State, entries: seq<Entry>) {
    forall e :: e in entries ==> Owned(s, e)
  }

  /** Completing entries in order; `faults(k)` is what the database does to the k-th. */
  function Replay(s: State, entries: seq<Entry>, faults: nat -> Fault, k: nat): (State, Outcome<nat>)
    requires k <= |entries|
    decreases |entries| - k
  {
    if k == |entries| then (s, Ok(k))
    else
      var e := entries[k];
      var (after, answer) := Complete(s, WhoOf(e), e.requestId, e.actual, KindOf(e.actual), faults(k));
      if !Named(e) then (s, Err(Unavailable))
      else if answer.Err? then (after, Err(answer.error))
      else Replay(after, entries, faults, k + 1)
  }

  lemma {:induction false} ReplayKeepsSettled(s: State, entries: seq<Entry>, faults: nat -> Fault, k: nat, e: Entry)
    requires k <= |entries| && IsSettled(s, e)
    ensures IsSettled(Replay(s, entries, faults, k).0, e)
    decreases |entries| - k
  {
    if k < |entries| {
      var x := entries[k];
      var (after, answer) := Complete(s, WhoOf(x), x.requestId, x.actual, KindOf(x.actual), faults(k));
      assert SettledIn(s)(e) && SettledIn(after)(e);
      if answer.Ok? {
        ReplayKeepsSettled(after, entries, faults, k + 1, e);
      }
    }
  }

  /** When a flush gets through its batch, every entry of it is settled, so it may acknowledge. */
  lemma {:induction false} ReplaySettlesAll(s: State, entries: seq<Entry>, faults: nat -> Fault, k: nat)
    requires k <= |entries| && Replay(s, entries, faults, k).1.Ok?
    requires AllOwned(s, entries)
    ensures forall i :: k <= i < |entries| ==> IsSettled(Replay(s, entries, faults, k).0, entries[i])
    decreases |entries| - k
  {
    if k < |entries| {
      var e := entries[k];
      var (after, answer) := Complete(s, WhoOf(e), e.requestId, e.actual, KindOf(e.actual), faults(k));
      AnsweredIsSettled(s, e, KindOf(e.actual), faults(k));
      ReplaySettlesAll(after, entries, faults, k + 1);
      ReplayKeepsSettled(after, entries, faults, k + 1, e);
    }
  }

  class SettlementStore {
    const ledger: Ledger
    var buffer: seq<Entry>
    var lock: Q.Lock
    var now: int

    constructor (ledger: Ledger, now: int)
      ensures this.ledger == ledger && buffer == [] && lock == Q.Free && this.now == now
    {
      this.ledger := ledger;
      buffer, lock, this.now := [], Q.Free, now;
    }

    predicate Live()
      reads this
    {
      lock.HeldBy? && lock.expiresAt > now
    }

    /** Peek, complete each, acknowledge; the lock is given back on every way out. */
    method FlushQuotaSettlements(limit: int, owner: Q.Owner, faults: nat -> Fault) returns (r: Outcome<nat>)
      modifies this, ledger
      ensures now == old(now)
      ensures old(Live()) ==>
        r == Ok(0) && buffer == old(buffer) && lock == old(lock) && ledger.Contents() == old(ledger.Contents())
      ensures !old(Live()) ==>
        var n := Q.AtMost(limit, |old(buffer)|);
        && (ledger.Contents(), r) == Replay(old(ledger.Contents()), old(buffer)[..n], faults, 0)
        && lock == Q.Free
        && buffer == if r.Ok? then old(buffer)[n..] else old(buffer)
    {
      if Live() {
        return Ok(0);
      }
      lock := Q.HeldBy(owner, now + 120_000);
      var raw := buffer[..Q.AtMost(limit, |buffer|)];
      var k := 0;
      while k < |raw|
        invariant 0 <= k <= |raw| && buffer == old(buffer) && now == old(now) && lock == Q.HeldBy(owner, now + 120_000)
        invariant Replay(ledger.Contents(), raw, faults, k) == Replay(old(ledger.Contents()), raw, faults, 0)
      {
        var entry := raw[k];
        if !Named(entry) {
          ReleaseLock(owner);
          return Err(Unavailable);
        }
        var answer := ledger.CompleteReservation(WhoOf(entry), entry.requestId, entry.actual, KindOf(entry.actual), faults(k));
        if answer.Err? {
          ReleaseLock(owner);
          return Err(answer.error);
        }
        k := k + 1;
      }
      if |raw| > 0 {
        AckUsage(owner, |raw|);
      }
      ReleaseLock(owner);
      return Ok(|raw|);
    }

    method AckUsage(owner: Q.Owner, n: nat)
      modifies this
      ensures now == old(now)
      ensures if old(Live()) && old(lock).owner == owner then buffer == Q.TrimFront(old(buffer), n) && lock == Q.Free
              else buffer == old(buffer) && lock == old(lock)
    {
      if Live() && lock.owner == owner {
        buffer := Q.TrimFront(buffer, n);
        lock := Q.Free;
      }
    }

    method ReleaseLock(owner: Q.Owner)
      modifies this
      ensures now == old(now) && buffer == old(buffer)
      ensures lock == if old(Live()) && old(lock).owner == owner then Q.Free else old(lock)
    {
      if Live() && lock.owner == owner {
        lock := Q.Free;
      }
    }
  }
}
