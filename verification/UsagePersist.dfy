/**
 * Writing a batch of rows: grouped by month, one transaction with retries per month, stopping at
 * the first month that fails.
 */
module UsagePersist {
  import opened UsageLedger

  // --- months -----------------------------------------------------------------------------

  function OfMonth(rows: seq<Row>, month: string): seq<Row> {
    if rows == [] then []
    else
      var init, last := rows[..|rows| - 1], rows[|rows| - 1];
      OfMonth(init, month) + if last.month == month then [last] else []
  }

  /** The months that occur, in order of appearance. */
  function MonthsOf(rows: seq<Row>): seq<string> {
    if rows == [] then []
    else
      var seen, month := MonthsOf(rows[..|rows| - 1]), rows[|rows| - 1].month;
      if month in seen then seen else seen + [month]
  }

  lemma {:induction false} FirstUnderSnoc(rows: seq<Row>, row: Row, key: RowKey)
    ensures FirstUnder(rows + [row], key)
         == if FirstUnder(rows, key) != Missing then FirstUnder(rows, key) else if KeyOf(row) == key then Present(row) else Missing
  {
    if rows == [] {
      assert rows + [row] == [row];
      assert [row][1..] == [];
    } else {
      assert (rows + [row])[1..] == rows[1..] + [row];
      FirstUnderSnoc(rows[1..], row, key);
    }
  }

  /** A month's keys depend only on the month's rows. */
  lemma {:induction false} FirstUnderOfMonth(rows: seq<Row>, month: string, key: RowKey)
    ensures FirstUnder(OfMonth(rows, month), key) == if key.month == month then FirstUnder(rows, key) else Missing
  {
    if rows != [] {
      var init, last := rows[..|rows| - 1], rows[|rows| - 1];
      FirstUnderOfMonth(init, month, key);
      assert rows == init + [last];
      FirstUnderSnoc(init, last, key);
      if last.month == month {
        FirstUnderSnoc(OfMonth(init, month), last, key);
      } else {
        assert OfMonth(rows, month) == OfMonth(init, month);
      }
    }
  }

  predicate NoMonthTwice(months: seq<string>) {
    forall i :: 0 <= i < |months| ==> months[i] !in months[..i]
  }

  lemma {:induction false} MonthsOccur(rows: seq<Row>)
    ensures NoMonthTwice(MonthsOf(rows))
    ensures forall row :: row in rows ==> row.month in MonthsOf(rows)
  {
    if rows != [] {
      var init, last := rows[..|rows| - 1], rows[|rows| - 1];
      MonthsOccur(init);
      assert rows == init + [last];
      var seen := MonthsOf(init);
      assert forall i :: 0 <= i < |seen| ==> (seen + [last.month])[..i] == seen[..i];
      assert (seen + [last.month])[..|seen|] == seen;
    }
  }

  lemma {:induction false} NoRowsOfMonth(rows: seq<Row>, key: RowKey)
    requires forall row :: row in rows ==> row.month != key.month
    ensures FirstUnder(rows, key) == Missing
  {
    if rows != [] {
      NoRowsOfMonth(rows[1..], key);
    }
  }

  lemma {:induction false} OfMonthWellDated(rows: seq<Row>, month: string)
    requires WellDated(rows)
    ensures WellDated(OfMonth(rows, month))
  {
    if rows != [] {
      OfMonthWellDated(rows[..|rows| - 1], month);
    }
  }

  /** How many rows the listed months hold. */
  function RowCount(rows: seq<Row>, months: seq<string>): nat {
    if months == [] then 0 else RowCount(rows, months[..|months| - 1]) + |OfMonth(rows, months[|months| - 1])|
  }

  lemma ShorterList(months: seq<string>)
    requires NoMonthTwice(months) && months != []
    ensures NoMonthTwice(months[..|months| - 1]) && months[|months| - 1] !in months[..|months| - 1]
  {
    var init := months[..|months| - 1];
    forall i | 0 <= i < |init|
      ensures init[i] !in init[..i]
    {
      assert init[..i] == months[..i];
    }
  }

  lemma {:induction false} RowCountSnoc(rows: seq<Row>, row: Row, months: seq<string>)
    requires NoMonthTwice(months)
    ensures RowCount(rows + [row], months) == RowCount(rows, months) + if row.month in months then 1 else 0
  {
    if months != [] {
      var init, last := months[..|months| - 1], months[|months| - 1];
      ShorterList(months);
      RowCountSnoc(rows, row, init);
      OfMonthSnoc(rows, row, last);
      assert months == init + [last];
    }
  }

  lemma OfMonthSnoc(rows: seq<Row>, row: Row, month: string)
    ensures OfMonth(rows + [row], month) == OfMonth(rows, month) + if row.month == month then [row] else []
  {
    assert (rows + [row])[..|rows|] == rows;
  }

  lemma {:induction false} NoneCounted(rows: seq<Row>, month: string)
    requires forall row :: row in rows ==> row.month != month
    ensures OfMonth(rows, month) == []
  {
    if rows != [] {
      NoneCounted(rows[..|rows| - 1], month);
    }
  }

  lemma {:induction false} AllCounted(rows: seq<Row>)
    ensures RowCount(rows, MonthsOf(rows)) == |rows|
  {
    if rows != [] {
      var init, last := rows[..|rows| - 1], rows[|rows| - 1];
      var seen := MonthsOf(init);
      AllCounted(init);
      MonthsOccur(init);
      assert rows == init + [last];
      RowCountSnoc(init, last, seen);
      if last.month !in seen {
        NoneCounted(init, last.month);
        assert (seen + [last.month])[..|seen|] == seen;
      }
    }
  }

  // --- what the database does -------------------------------------------------------------

  /** What the database does to a transaction attempt. */
  datatype Fault = NoFault | DuplicateKey | Fails | LosesAnswer

  const MAX_RETRIES := 2

  /** Attempts from `a` on end with an answer. */
  predicate Answered(faults: nat -> Fault, a: nat)
    requires a <= MAX_RETRIES
    decreases MAX_RETRIES - a
  {
    faults(a) == NoFault || (faults(a) == DuplicateKey && a < MAX_RETRIES && Answered(faults, a + 1))
  }

  /** Attempts from `a` on commit, with or without an answer. */
  predicate Commits(faults: nat -> Fault, a: nat)
    requires a <= MAX_RETRIES
    decreases MAX_RETRIES - a
  {
    faults(a) == NoFault || faults(a) == LosesAnswer || (faults(a) == DuplicateKey && a < MAX_RETRIES && Commits(faults, a + 1))
  }

  /** An attempt is the last one when every attempt before it lost a race. */
  predicate ReachedAttempt(faults: nat -> Fault, a: nat) {
    a <= 2 && forall b: nat :: b < a ==> faults(b) == DuplicateKey
  }

  /**
   * A write is answered exactly when at most two lost races are followed by a clean attempt, and it
   * commits exactly when the attempt after them commits, answered or not.
   */
  lemma AnsweredExactly(faults: nat -> Fault)
    ensures Answered(faults, 0) <==> exists a: nat :: ReachedAttempt(faults, a) && faults(a) == NoFault
    ensures Commits(faults, 0) <==> exists a: nat :: ReachedAttempt(faults, a) && (faults(a) == NoFault || faults(a) == LosesAnswer)
    ensures Answered(faults, 0) ==> Commits(faults, 0)
  {
    assert ReachedAttempt(faults, 0);
    assert faults(0) == DuplicateKey ==> ReachedAttempt(faults, 1);
    assert faults(0) == DuplicateKey && faults(1) == DuplicateKey ==> ReachedAttempt(faults, 2);
    assert Answered(faults, 2) <==> faults(2) == NoFault;
    assert Commits(faults, 2) <==> faults(2) == NoFault || faults(2) == LosesAnswer;
  }

  function FaultsOf(faults: (nat, nat) -> Fault, k: nat): nat -> Fault {
    (attempt: nat) => faults(k, attempt)
  }

  /** How many months, from the `k`th on, are answered before one is not. */
  function Reached(faults: (nat, nat) -> Fault, k: nat, n: nat): (r: nat)
    requires k <= n
    ensures k <= r <= n
    decreases n - k
  {
    if k < n && Answered(FaultsOf(faults, k), 0) then Reached(faults, k + 1, n) else k
  }

  /** The months whose rows are in when the write ends: one more than were answered, at most. */
  function WrittenMonths(months: seq<string>, faults: (nat, nat) -> Fault): seq<string> {
    var r := Reached(faults, 0, |months|);
    if r < |months| && Commits(FaultsOf(faults, r), 0) then months[..r + 1] else months[..r]
  }

  predicate AllAnswered(rows: seq<Row>, faults: (nat, nat) -> Fault) {
    Reached(faults, 0, |MonthsOf(rows)|) == |MonthsOf(rows)|
  }

  // --- keys written so far -----------------------------------------------------------------

  function Merged(first: Logs, goal: Logs, months: seq<string>, key: RowKey): Found {
    if key.month in months then Lookup(goal, key) else Lookup(first, key)
  }

  /** The keys of the listed months hold their final rows, the others still hold their first. */
  ghost predicate MonthsWritten(first: Logs, goal: Logs, months: seq<string>, logs: Logs) {
    forall key :: Lookup(logs, key) == Merged(first, goal, months, key)
  }

  lemma NothingWritten(first: Logs, goal: Logs)
    ensures MonthsWritten(first, goal, [], first)
  {
  }

  lemma AllMonthsWritten(first: Logs, rows: seq<Row>, logs: Logs)
    requires MonthsWritten(first, AdmitAll(first, rows), MonthsOf(rows), logs)
    ensures logs == AdmitAll(first, rows)
  {
    var goal := AdmitAll(first, rows);
    MonthsOccur(rows);
    forall key
      ensures Lookup(logs, key) == Lookup(goal, key)
    {
      assert Lookup(logs, key) == Merged(first, goal, MonthsOf(rows), key);
      if key.month !in MonthsOf(rows) {
        AdmitAllAt(first, rows, key);
        NoRowsOfMonth(rows, key);
      }
    }
    LookupExtensional(logs, goal);
  }

  /** Writing one more month moves exactly that month's keys to their final rows. */
  lemma MonthApplied(first: Logs, before: Logs, rows: seq<Row>, months: seq<string>, month: string)
    requires month !in months && MonthsWritten(first, AdmitAll(first, rows), months, before)
    ensures MonthsWritten(first, AdmitAll(first, rows), months + [month], AdmitAll(before, OfMonth(rows, month)))
  {
    var goal, after := AdmitAll(first, rows), AdmitAll(before, OfMonth(rows, month));
    forall key
      ensures Lookup(after, key) == Merged(first, goal, months + [month], key)
    {
      assert Lookup(before, key) == Merged(first, goal, months, key);
      AdmitAllAt(before, OfMonth(rows, month), key);
      AdmitAllAt(first, rows, key);
      FirstUnderOfMonth(rows, month, key);
    }
  }

  // --- the store -----------------------------------------------------------------------------

  ghost predicate GroupedBy(rows: seq<Row>, months: seq<string>, byMonth: map<string, seq<Row>>) {
    && months == MonthsOf(rows)
    && (forall m :: m in months <==> m in byMonth)
    && (forall m :: m in byMonth ==> byMonth[m] == OfMonth(rows, m))
  }

  lemma GroupStep(rows: seq<Row>, row: Row, months: seq<string>, byMonth: map<string, seq<Row>>,
                  nextMonths: seq<string>, next: map<string, seq<Row>>)
    requires GroupedBy(rows, months, byMonth)
    requires nextMonths == if row.month in byMonth then months else months + [row.month]
    requires next == byMonth[row.month := (if row.month in byMonth then byMonth[row.month] else []) + [row]]
    ensures GroupedBy(rows + [row], nextMonths, next)
  {
    assert (rows + [row])[..|rows|] == rows;
    if row.month !in byMonth {
      MonthsOccur(rows);
      NoneCounted(rows, row.month);
    }
  }

  method AddToMonth(row: Row, byMonth: map<string, seq<Row>>, months: seq<string>)
    returns (nextMonths: seq<string>, next: map<string, seq<Row>>)
    ensures nextMonths == if row.month in byMonth then months else months + [row.month]
    ensures next == byMonth[row.month := (if row.month in byMonth then byMonth[row.month] else []) + [row]]
  {
    if row.month in byMonth {
      return months, byMonth[row.month := byMonth[row.month] + [row]];
    }
    assert [] + [row] == [row];
    return months + [row.month], byMonth[row.month := [row]];
  }

  method GroupByMonth(rows: seq<Row>) returns (months: seq<string>, byMonth: map<string, seq<Row>>)
    ensures GroupedBy(rows, months, byMonth)
  {
    months, byMonth := [], map[];
    for i := 0 to |rows|
      invariant GroupedBy(rows[..i], months, byMonth)
    {
      var nextMonths, next := AddToMonth(rows[i], byMonth, months);
      GroupStep(rows[..i], rows[i], months, byMonth, nextMonths, next);
      assert rows[..i + 1] == rows[..i] + [rows[i]];
      months, byMonth := nextMonths, next;
    }
    assert rows[..|rows|] == rows;
  }

  class UsageStore {
    var logs: Logs
    var rollups: Rollups

    constructor ()
      ensures logs == map[] && rollups == map[]
    {
      logs, rollups := map[], map[];
    }

    /** The hourly counters of one row, one scope after the other. */
    method IncrementRollups(row: Row)
      modifies this`rollups
      ensures rollups == BumpedThrough(old(rollups), row, |SCOPES|)
    {
      for i := 0 to |SCOPES|
        invariant rollups == BumpedThrough(old(rollups), row, i)
      {
        Increment(SCOPES[i], ScopeKey(SCOPES[i], row), row);
      }
    }

    method Increment(scope: Scope, key: string, row: Row)
      requires key == ScopeKey(scope, row)
      modifies this`rollups
      ensures rollups == Bumped(old(rollups), scope, row)
    {
      if key == "" {
        return;
      }
      var id := RollupId(scope, key, row.hour);
      var was := if id in rollups then rollups[id] else ZERO;
      rollups := rollups[id := Counters(
        was.requests + 1, was.errors + (if row.success then 0 else 1), was.quota + row.quota,
        was.promptTokens + row.promptTokens, was.completionTokens + row.completionTokens)];
    }

    /** One month's rows in one transaction; false when it did not commit. */
    method PersistBucket(rows: seq<Row>, fault: Fault) returns (answered: bool)
      requires RollupsMatch(logs, rollups) && WellDated(rows)
      modifies this
      ensures RollupsMatch(logs, rollups)
      ensures answered <==> fault == NoFault
      ensures logs == if fault == NoFault || fault == LosesAnswer then AdmitAll(old(logs), rows) else old(logs)
    {
      var logs0, rollups0 := logs, rollups;
      for i := 0 to |rows|
        invariant RollupsMatch(logs, rollups)
        invariant AdmitAll(logs, rows[i..]) == AdmitAll(old(logs), rows)
      {
        assert rows[i..][1..] == rows[i + 1..];
        var row := rows[i];
        if KeyOf(row) in logs {
          continue;
        }
        InsertKeepsRollups(logs, rollups, row);
        logs := logs[KeyOf(row) := row];
        IncrementRollups(row);
      }
      if fault == DuplicateKey || fault == Fails {
        logs, rollups := logs0, rollups0;
      }
      answered := fault == NoFault;
    }

    /** Retry a lost race against the committed rows, at most twice. */
    method PersistWithRetry(rows: seq<Row>, faults: nat -> Fault) returns (ok: bool)
      requires RollupsMatch(logs, rollups) && WellDated(rows)
      modifies this
      ensures RollupsMatch(logs, rollups)
      ensures ok <==> Answered(faults, 0)
      ensures logs == if Commits(faults, 0) then AdmitAll(old(logs), rows) else old(logs)
    {
      var attempt := 0;
      while true
        invariant 0 <= attempt <= MAX_RETRIES
        invariant RollupsMatch(logs, rollups) && logs == old(logs)
        invariant Answered(faults, attempt) == Answered(faults, 0) && Commits(faults, attempt) == Commits(faults, 0)
        decreases MAX_RETRIES - attempt
      {
        var answered := PersistBucket(rows, faults(attempt));
        if answered {
          return true;
        }
        if faults(attempt) != DuplicateKey || attempt >= MAX_RETRIES {
          return false;
        }
        attempt := attempt + 1;
      }
    }

    /**
     * Writes month after month until one is not answered. The rows of the months before are in; the
     * last one's are when its transaction committed without an answer.
     */
    method Persist(rows: seq<Row>, faults: (nat, nat) -> Fault) returns (ok: bool, written: nat)
      requires RollupsMatch(logs, rollups) && WellDated(rows)
      modifies this
      ensures RollupsMatch(logs, rollups)
      ensures ok <==> AllAnswered(rows, faults)
      ensures MonthsWritten(old(logs), AdmitAll(old(logs), rows), WrittenMonths(MonthsOf(rows), faults), logs)
      ensures ok ==> logs == AdmitAll(old(logs), rows) && written == |rows|
    {
      var months, byMonth := GroupByMonth(rows);
      ghost var first := logs;
      Starts(first, rows, faults);
      written := 0;
      var k: nat := 0;
      while k < |months|
        invariant k <= |months| && RollupsMatch(logs, rollups)
        invariant Progress(first, rows, faults, k, logs, written)
        decreases |months| - k
      {
        OfMonthWellDated(rows, months[k]);
        ghost var before := logs;
        var done := PersistWithRetry(byMonth[months[k]], FaultsOf(faults, k));
        if !done {
          Stops(first, rows, faults, k, before, written);
          return false, written;
        }
        GoesOn(first, rows, faults, k, before, written);
        written := written + |byMonth[months[k]]|;
        k := k + 1;
      }
      Ends(first, rows, faults, logs, written);
      ok := true;
    }
  }

  /** The first `k` months are answered and written. */
  ghost predicate Progress(first: Logs, rows: seq<Row>, faults: (nat, nat) -> Fault, k: nat, logs: Logs, written: nat) {
    var months := MonthsOf(rows);
    && k <= |months|
    && MonthsWritten(first, AdmitAll(first, rows), months[..k], logs)
    && written == RowCount(rows, months[..k])
    && Reached(faults, k, |months|) == Reached(faults, 0, |months|)
  }

  lemma Starts(first: Logs, rows: seq<Row>, faults: (nat, nat) -> Fault)
    ensures Progress(first, rows, faults, 0, first, 0)
  {
    NothingWritten(first, AdmitAll(first, rows));
  }

  lemma NextMonth(first: Logs, rows: seq<Row>, k: nat, before: Logs)
    requires k < |MonthsOf(rows)| && MonthsWritten(first, AdmitAll(first, rows), MonthsOf(rows)[..k], before)
    ensures MonthsWritten(first, AdmitAll(first, rows), MonthsOf(rows)[..k + 1], AdmitAll(before, OfMonth(rows, MonthsOf(rows)[k])))
  {
    FreshMonth(rows, k);
    MonthApplied(first, before, rows, MonthsOf(rows)[..k], MonthsOf(rows)[k]);
  }

  lemma FreshMonth(rows: seq<Row>, k: nat)
    requires k < |MonthsOf(rows)|
    ensures MonthsOf(rows)[k] !in MonthsOf(rows)[..k]
    ensures MonthsOf(rows)[..k + 1] == MonthsOf(rows)[..k] + [MonthsOf(rows)[k]]
  {
    MonthsOccur(rows);
  }

  lemma GoesOn(first: Logs, rows: seq<Row>, faults: (nat, nat) -> Fault, k: nat, before: Logs, written: nat)
    requires Progress(first, rows, faults, k, before, written) && k < |MonthsOf(rows)| && Answered(FaultsOf(faults, k), 0)
    ensures var month := MonthsOf(rows)[k];
      Progress(first, rows, faults, k + 1, AdmitAll(before, OfMonth(rows, month)), written + |OfMonth(rows, month)|)
    ensures Commits(FaultsOf(faults, k), 0)
  {
    var months := MonthsOf(rows);
    NextMonth(first, rows, k, before);
    AnsweredExactly(FaultsOf(faults, k));
    assert months[..k + 1][..k] == months[..k];
  }

  lemma Stops(first: Logs, rows: seq<Row>, faults: (nat, nat) -> Fault, k: nat, before: Logs, written: nat)
    requires Progress(first, rows, faults, k, before, written) && k < |MonthsOf(rows)| && !Answered(FaultsOf(faults, k), 0)
    ensures !AllAnswered(rows, faults)
    ensures var after := if Commits(FaultsOf(faults, k), 0) then AdmitAll(before, OfMonth(rows, MonthsOf(rows)[k])) else before;
      MonthsWritten(first, AdmitAll(first, rows), WrittenMonths(MonthsOf(rows), faults), after)
  {
    NextMonth(first, rows, k, before);
  }

  lemma Ends(first: Logs, rows: seq<Row>, faults: (nat, nat) -> Fault, logs: Logs, written: nat)
    requires Progress(first, rows, faults, |MonthsOf(rows)|, logs, written)
    ensures AllAnswered(rows, faults) && logs == AdmitAll(first, rows) && written == |rows|
    ensures MonthsWritten(first, AdmitAll(first, rows), WrittenMonths(MonthsOf(rows), faults), logs)
  {
    assert MonthsOf(rows)[..|MonthsOf(rows)|] == MonthsOf(rows);
    AllMonthsWritten(first, rows, logs);
    AllCounted(rows);
  }
}
