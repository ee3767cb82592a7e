/**
 * Draining the usage buffer into the ledger, by any number of workers: no recorded row is lost,
 * and the rollups stay the fold of the rows whatever is delivered twice.
 */
module UsageFlush {
  import opened UsageLedger
  import opened UsagePersist
  import Q = LeasedQueue

  /** A buffered text: a row, or something that does not parse to a valid one. */
  datatype Entry = Corrupt(text: string) | Parsed(row: Row)

  function RowsOf(entries: seq<Entry>): seq<Row> {
    if entries == [] then []
    else (if entries[0].Parsed? then [entries[0].row] else []) + RowsOf(entries[1..])
  }

  /** Nothing is left to write for the entry. */
  predicate IsWritten(logs: Logs, e: Entry) {
    e.Parsed? ==> KeyOf(e.row) in logs
  }

  function WrittenIn(logs: Logs): Entry -> bool {
    (e: Entry) => IsWritten(logs, e)
  }

  // --- runs of recorders and flush workers -------------------------------------------

  datatype Usage = Usage(logs: Logs, q: Q.System<Entry>)

  /** A committed transaction admits some rows; a row is recorded through the buffer or directly. */
  datatype UsageStep =
    | CommitRows(rows: seq<Row>)
    | Record(row: Row, buffered: bool)
    | OnQueue(qstep: Q.Step<Entry>)

  ghost predicate CanStep(u: Usage, step: UsageStep) {
    step.OnQueue? ==> !step.qstep.Push? && Q.Enabled(u.q, step.qstep, WrittenIn(u.logs))
  }

  function NextUsage(u: Usage, step: UsageStep): Usage {
    match step
    case CommitRows(rows) => u.(logs := AdmitAll(u.logs, rows))
    case Record(row, buffered) =>
      if buffered then u.(q := Q.Apply(u.q, Q.Push(Parsed(row)))) else u.(logs := AdmitAll(u.logs, [row]))
    case OnQueue(qstep) => u.(q := Q.Apply(u.q, qstep))
  }

  lemma AdmitKeepsWritten(logs: Logs, rows: seq<Row>)
    ensures Q.Grows(WrittenIn(logs), WrittenIn(AdmitAll(logs, rows)))
  {
    forall e: Entry | IsWritten(logs, e)
      ensures IsWritten(AdmitAll(logs, rows), e)
    {
      if e.Parsed? {
        AdmitAllAt(logs, rows, KeyOf(e.row));
      }
    }
  }

  /** After its rows are persisted, a worker's batch may be acknowledged. */
  lemma {:induction false} PersistedIsWritten(logs: Logs, entries: seq<Entry>, e: Entry)
    requires e in entries
    ensures IsWritten(AdmitAll(logs, RowsOf(entries)), e)
    decreases |entries|
  {
    var first := if entries[0].Parsed? then [entries[0].row] else [];
    AdmitAllAppend(logs, first, RowsOf(entries[1..]));
    if e == entries[0] {
      if e.Parsed? {
        AdmitAllAt(logs, first, KeyOf(e.row));
        AdmitAllAt(AdmitAll(logs, first), RowsOf(entries[1..]), KeyOf(e.row));
      }
    } else {
      PersistedIsWritten(AdmitAll(logs, first), entries[1..], e);
    }
  }

  ghost function Recorded(step: UsageStep): set<Entry> {
    if step.Record? then {Parsed(step.row)} else {}
  }

  lemma UsageStepKeepsInv(u: Usage, step: UsageStep, recorded: set<Entry>)
    requires Q.Inv(u.q, recorded, WrittenIn(u.logs)) && CanStep(u, step)
    ensures Q.Inv(NextUsage(u, step).q, recorded + Recorded(step), WrittenIn(NextUsage(u, step).logs))
  {
    assert recorded + {} == recorded;
    match step
    case CommitRows(rows) =>
      AdmitKeepsWritten(u.logs, rows);
      Q.DoneMayGrow(u.q, recorded, WrittenIn(u.logs), WrittenIn(AdmitAll(u.logs, rows)));
    case Record(row, buffered) =>
      if buffered {
        Q.PushKeepsInv(u.q, Parsed(row), recorded, WrittenIn(u.logs));
      } else {
        AdmitKeepsWritten(u.logs, [row]);
        Q.DoneMayGrow(u.q, recorded, WrittenIn(u.logs), WrittenIn(AdmitAll(u.logs, [row])));
        PersistedIsWritten(u.logs, [Parsed(row)], Parsed(row));
        assert RowsOf([Parsed(row)]) == [row] by {
          var one: seq<Entry> := [Parsed(row)];
          assert one[1..] == [];
          assert [row] + RowsOf([]) == [row];
        }
      }
    case OnQueue(qstep) => Q.StepKeepsInv(u.q, qstep, recorded, WrittenIn(u.logs));
  }

  ghost predicate CanRun(u: Usage, steps: seq<UsageStep>)
    decreases |steps|
  {
    steps == [] || (CanStep(u, steps[0]) && CanRun(NextUsage(u, steps[0]), steps[1..]))
  }

  function RunUsage(u: Usage, steps: seq<UsageStep>): Usage
    decreases |steps|
  {
    if steps == [] then u else RunUsage(NextUsage(u, steps[0]), steps[1..])
  }

  ghost function RecordedIn(steps: seq<UsageStep>): set<Entry> {
    if steps == [] then {} else Recorded(steps[0]) + RecordedIn(steps[1..])
  }

  lemma {:induction false} RunKeepsUsageInv(u: Usage, steps: seq<UsageStep>, recorded: set<Entry>)
    requires Q.Inv(u.q, recorded, WrittenIn(u.logs)) && CanRun(u, steps)
    ensures Q.Inv(RunUsage(u, steps).q, recorded + RecordedIn(steps), WrittenIn(RunUsage(u, steps).logs))
    decreases |steps|
  {
    if steps == [] {
      assert recorded + {} == recorded;
    } else {
      UsageStepKeepsInv(u, steps[0], recorded);
      RunKeepsUsageInv(NextUsage(u, steps[0]), steps[1..], recorded + Recorded(steps[0]));
      assert recorded + RecordedIn(steps) == recorded + Recorded(steps[0]) + RecordedIn(steps[1..]);
    }
  }

  /**
   * In every interleaving of recorders, commits and flush workers, with leases expiring and
   * workers dying anywhere, each recorded row is still buffered or its request has a row.
   */
  lemma NoUsageLost(logs: Logs, now: int, steps: seq<UsageStep>, row: Row)
    requires var u := Usage(logs, Q.System([], Q.Free, now, map[]));
      CanRun(u, steps) && Parsed(row) in RecordedIn(steps)
    ensures var end := RunUsage(Usage(logs, Q.System([], Q.Free, now, map[])), steps);
      Parsed(row) in end.q.queue || RowKey(row.month, row.id) in end.logs
  {
    var u := Usage(logs, Q.System([], Q.Free, now, map[]));
    RunKeepsUsageInv(u, steps, {});
    assert Parsed(row) in {} + RecordedIn(steps);
  }

  /**
   * In every run a flush worker's acknowledgement takes exactly the batch it persisted off the front
   * of the buffer, or nothing once the lock is no longer its own.
   */
  lemma UsageAckIsExact(logs: Logs, now: int, steps: seq<UsageStep>, w: Q.Owner)
    requires var u := Usage(logs, Q.System([], Q.Free, now, map[]));
      CanRun(u, steps) && CanStep(RunUsage(u, steps), OnQueue(Q.Ack(w)))
    ensures var end := RunUsage(Usage(logs, Q.System([], Q.Free, now, map[])), steps);
      var items, after := Q.PhaseOf(end.q, w).items, Q.Apply(end.q, Q.Ack(w));
      if Q.Holds(end.q, w) then end.q.queue == items + after.queue && forall e :: e in items ==> IsWritten(end.logs, e)
      else after.queue == end.q.queue && after.lock == end.q.lock
  {
    var u := Usage(logs, Q.System([], Q.Free, now, map[]));
    RunKeepsUsageInv(u, steps, {});
    var end := RunUsage(u, steps);
    Q.AckTrimsPeeked(end.q, w, {} + RecordedIn(steps), WrittenIn(end.logs));
    forall e | e in Q.PhaseOf(end.q, w).items
      ensures WrittenIn(end.logs)(e)
    {
      assert w in end.q.workers && end.q.workers[w].Committed?;
    }
  }

  /** Some transaction of the run admits the row. */
  predicate AdmittedIn(steps: seq<UsageStep>, row: Row) {
    steps != [] && ((steps[0].CommitRows? && row in steps[0].rows) || AdmittedIn(steps[1..], row))
  }

  lemma {:induction false} DeliveredUnderItsKey(rows: seq<Row>, row: Row)
    requires row in rows
    ensures FirstUnder(rows, KeyOf(row)).Present?
  {
    if KeyOf(rows[0]) != KeyOf(row) {
      DeliveredUnderItsKey(rows[1..], row);
    }
  }

  lemma {:induction false} AdmittedIsWritten(u: Usage, steps: seq<UsageStep>, row: Row)
    requires KeyOf(row) in u.logs || AdmittedIn(steps, row)
    ensures KeyOf(row) in RunUsage(u, steps).logs
    decreases |steps|
  {
    if steps != [] {
      match steps[0] {
        case CommitRows(rows) =>
          AdmitAllAt(u.logs, rows, KeyOf(row));
          if row in rows {
            DeliveredUnderItsKey(rows, row);
          }
        case Record(r, _) => AdmitAllAt(u.logs, [r], KeyOf(row));
        case OnQueue(_) =>
      }
      AdmittedIsWritten(NextUsage(u, steps[0]), steps[1..], row);
    }
  }

  /**
   * A worker whose rows were all admitted may acknowledge, in whatever transactions they were and
   * whatever other steps fell between them.
   */
  lemma AdmissionsEnableCommit(u: Usage, w: Q.Owner, during: seq<UsageStep>)
    requires Q.PhaseOf(u.q, w).Peeked? && Q.PhaseOf(RunUsage(u, during).q, w) == Q.PhaseOf(u.q, w)
    requires forall row :: Parsed(row) in Q.PhaseOf(u.q, w).items ==> AdmittedIn(during, row)
    ensures CanStep(RunUsage(u, during), OnQueue(Q.Commit(w)))
  {
    forall e | e in Q.PhaseOf(u.q, w).items
      ensures WrittenIn(RunUsage(u, during).logs)(e)
    {
      if e.Parsed? {
        AdmittedIsWritten(u, during, e.row);
      }
    }
  }

  /** Writing one row is one month's transaction. */
  lemma OneRowWritten(first: Logs, row: Row, faults: (nat, nat) -> Fault, logs: Logs)
    requires MonthsWritten(first, AdmitAll(first, [row]), WrittenMonths(MonthsOf([row]), faults), logs)
    ensures logs == if Commits(FaultsOf(faults, 0), 0) then AdmitAll(first, [row]) else first
    ensures AllAnswered([row], faults) <==> Answered(FaultsOf(faults, 0), 0)
  {
    assert [row][..0] == [];
    assert MonthsOf([row]) == [row.month];
    AnsweredExactly(FaultsOf(faults, 0));
    if Commits(FaultsOf(faults, 0), 0) {
      assert WrittenMonths([row.month], faults) == [row.month];
      AllMonthsWritten(first, [row], logs);
    } else {
      assert WrittenMonths([row.month], faults) == [];
      forall key
        ensures Lookup(logs, key) == Lookup(first, key)
      {
        assert Lookup(logs, key) == Merged(first, AdmitAll(first, [row]), [], key);
      }
      LookupExtensional(logs, first);
    }
  }

  // --- one flush and one record, as they are written ------------------------------------

  class UsageBuffer {
    const store: UsageStore
    var buffer: seq<Entry>
    var lock: Q.Lock
    var now: int

    constructor (store: UsageStore, now: int)
      ensures this.store == store && buffer == [] && lock == Q.Free && this.now == now
    {
      this.store := store;
      buffer, lock, this.now := [], Q.Free, now;
    }

    predicate Live()
      reads this
    {
      lock.HeldBy? && lock.expiresAt > now
    }

    /** Buffer the row; when the buffer cannot be reached, write it straight through. */
    method RecordUsage(row: Row, buffered: bool, reachable: bool, faults: (nat, nat) -> Fault) returns (ok: bool)
      requires RollupsMatch(store.logs, store.rollups) && |row.hour| == HOUR_LENGTH
      modifies this`buffer, store
      ensures RollupsMatch(store.logs, store.rollups)
      ensures ok <==> (buffered && reachable) || Answered(FaultsOf(faults, 0), 0)
      ensures ok ==> Parsed(row) in buffer || KeyOf(row) in store.logs
      ensures !(buffered && reachable) ==>
        store.logs == if Commits(FaultsOf(faults, 0), 0) then AdmitAll(old(store.logs), [row]) else old(store.logs)
      ensures buffer == if buffered && reachable then old(buffer) + [Parsed(row)] else old(buffer)
      ensures buffered && reachable ==> store.logs == old(store.logs)
    {
      if buffered && reachable {
        buffer := buffer + [Parsed(row)];
        assert buffer[|buffer| - 1] == Parsed(row);
        return true;
      }
      var written;
      ok, written := store.Persist([row], faults);
      OneRowWritten(old(store.logs), row, faults, store.logs);
      AdmitAllAt(old(store.logs), [row], KeyOf(row));
    }

    /** Peek, persist the rows that parse, acknowledge the whole batch. */
    method FlushUsageBuffer(limit: int, owner: Q.Owner, faults: (nat, nat) -> Fault) returns (ok: bool, written: nat)
      requires RollupsMatch(store.logs, store.rollups)
      requires forall e :: e in buffer && e.Parsed? ==> |e.row.hour| == HOUR_LENGTH
      modifies this, store
      ensures RollupsMatch(store.logs, store.rollups) && now == old(now)
      ensures old(Live()) ==> ok && written == 0 && buffer == old(buffer) && lock == old(lock) && store.logs == old(store.logs)
      ensures !old(Live()) ==>
        var batch := old(buffer)[..Q.AtMost(limit, |old(buffer)|)];
        && lock == Q.Free
        && buffer == (if ok then old(buffer)[|batch|..] else old(buffer))
        && (ok ==> store.logs == AdmitAll(old(store.logs), RowsOf(batch)) && written == |RowsOf(batch)|)
        && (ok <==> AllAnswered(RowsOf(batch), faults))
        && MonthsWritten(old(store.logs), AdmitAll(old(store.logs), RowsOf(batch)), WrittenMonths(MonthsOf(RowsOf(batch)), faults), store.logs)
    {
      if Live() {
        return true, 0;
      }
      lock := Q.HeldBy(owner, now + 120_000);
      var raw := buffer[..Q.AtMost(limit, |buffer|)];
      var docs := ValidRows(raw);
      if |raw| == 0 {
        lock := Q.Free;
        assert buffer[0..] == buffer;
        return true, 0;
      }
      ok, written := store.Persist(docs, faults);
      if ok {
        buffer := Q.TrimFront(buffer, |raw|);
      }
      lock := Q.Free;
    }

    /** Corrupt entries are skipped, not an error. */
    method ValidRows(raw: seq<Entry>) returns (docs: seq<Row>)
      requires forall e :: e in raw && e.Parsed? ==> |e.row.hour| == HOUR_LENGTH
      ensures docs == RowsOf(raw) && WellDated(docs)
    {
      docs := [];
      for i := 0 to |raw|
        invariant docs + RowsOf(raw[i..]) == RowsOf(raw)
      {
        assert raw[i..][1..] == raw[i + 1..];
        if raw[i].Parsed? {
          assert docs + ([raw[i].row] + RowsOf(raw[i + 1..])) == docs + [raw[i].row] + RowsOf(raw[i + 1..]);
          docs := docs + [raw[i].row];
        }
      }
      assert raw[|raw|..] == [];
      RowsAreWellDated(raw);
    }
  }

  lemma {:induction false} RowsAreWellDated(raw: seq<Entry>)
    requires forall e :: e in raw && e.Parsed? ==> |e.row.hour| == HOUR_LENGTH
    ensures WellDated(RowsOf(raw))
  {
    if raw != [] {
      assert raw[0] in raw;
      RowsAreWellDated(raw[1..]);
    }
  }
}
