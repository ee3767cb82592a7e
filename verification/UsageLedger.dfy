/**
 * The usage ledger: one row per request and month, and hourly rollups derived from the rows in the
 * same transaction.
 */
module UsageLedger {
  import opened Sums

  type Id = string

  /** A usage row. `month` and `hour` are the texts the calendar gives for its creation time. */
  datatype Row = Row(id: Id, month: string, hour: string, userId: Id, channelId: Id, billedModel: Id,
                     success: bool, quota: int, promptTokens: int, completionTokens: int)

  datatype RowKey = RowKey(month: string, id: Id)

  function KeyOf(row: Row): RowKey {
    RowKey(row.month, row.id)
  }

  type Logs = map<RowKey, Row>

  datatype Scope = User | Channel | Model | Global

  datatype Counters = Counters(requests: int, errors: int, quota: int, promptTokens: int, completionTokens: int)

  const ZERO := Counters(0, 0, 0, 0, 0)

  function Add(a: Counters, b: Counters): Counters {
    Counters(a.requests + b.requests, a.errors + b.errors, a.quota + b.quota,
             a.promptTokens + b.promptTokens, a.completionTokens + b.completionTokens)
  }

  /** What one row adds to each counter it belongs to. */
  function CountersOf(row: Row): Counters {
    Counters(1, if row.success then 0 else 1, row.quota, row.promptTokens, row.completionTokens)
  }

  type Rollups = map<string, Counters>

  function ScopeName(scope: Scope): string {
    match scope
    case User => "user"
    case Channel => "channel"
    case Model => "model"
    case Global => "global"
  }

  function ScopeKey(scope: Scope, row: Row): string {
    match scope
    case User => row.userId
    case Channel => row.channelId
    case Model => row.billedModel
    case Global => "all"
  }

  /** The document id of a rollup. An hour text is thirteen characters long. */
  function RollupId(scope: Scope, key: string, hour: string): string {
    ScopeName(scope) + ":" + key + ":" + hour
  }

  const HOUR_LENGTH := 13

  lemma JoinedParts(name: string, key: string, hour: string)
    requires name != []
    ensures var id, n := name + ":" + key + ":" + hour, |name|;
      && |id| == n + |key| + |hour| + 2
      && id[0] == name[0]
      && id[n + 1..n + 1 + |key|] == key
      && id[n + 2 + |key|..] == hour
  {
  }

  lemma RollupIdParts(scope: Scope, key: string, hour: string)
    requires |hour| == HOUR_LENGTH
    ensures var id, n := RollupId(scope, key, hour), |ScopeName(scope)|;
      && |id| == n + |key| + HOUR_LENGTH + 2 && n > 0
      && id[0] == ScopeName(scope)[0]
      && id[n + 1..|id| - HOUR_LENGTH - 1] == key
      && id[|id| - HOUR_LENGTH..] == hour
  {
    JoinedParts(ScopeName(scope), key, hour);
  }

  lemma ScopeByInitial(scope: Scope, scope': Scope)
    requires ScopeName(scope)[0] == ScopeName(scope')[0]
    ensures scope == scope'
  {
  }

  /** Keys may hold colons; scope, key and hour are still recovered from the id. */
  lemma RollupIdInjective(scope: Scope, key: string, hour: string, scope': Scope, key': string, hour': string)
    requires |hour| == HOUR_LENGTH && |hour'| == HOUR_LENGTH
    requires RollupId(scope, key, hour) == RollupId(scope', key', hour')
    ensures scope == scope' && key == key' && hour == hour'
  {
    RollupIdParts(scope, key, hour);
    RollupIdParts(scope', key', hour');
    ScopeByInitial(scope, scope');
  }

  // --- rollups are the fold over the rows -----------------------------------------

  predicate Matches(row: Row, scope: Scope, key: string, hour: string) {
    row.hour == hour && ScopeKey(scope, row) == key
  }

  function Requests(scope: Scope, key: string, hour: string): Row -> int {
    (row: Row) => if Matches(row, scope, key, hour) then 1 else 0
  }

  function Errors(scope: Scope, key: string, hour: string): Row -> int {
    (row: Row) => if Matches(row, scope, key, hour) && !row.success then 1 else 0
  }

  function Quotas(scope: Scope, key: string, hour: string): Row -> int {
    (row: Row) => if Matches(row, scope, key, hour) then row.quota else 0
  }

  function Prompts(scope: Scope, key: string, hour: string): Row -> int {
    (row: Row) => if Matches(row, scope, key, hour) then row.promptTokens else 0
  }

  function Completions(scope: Scope, key: string, hour: string): Row -> int {
    (row: Row) => if Matches(row, scope, key, hour) then row.completionTokens else 0
  }

  /** What the counters of one scope, key and hour should be: the fold over the persisted rows. */
  ghost function Fold(logs: Logs, scope: Scope, key: string, hour: string): Counters {
    Counters(Sum(logs, Requests(scope, key, hour)), Sum(logs, Errors(scope, key, hour)),
             Sum(logs, Quotas(scope, key, hour)), Sum(logs, Prompts(scope, key, hour)),
             Sum(logs, Completions(scope, key, hour)))
  }

  function Stored(rollups: Rollups, id: string): Counters {
    if id in rollups then rollups[id] else ZERO
  }

  /** Every rollup equals the fold of its rows. */
  ghost predicate RollupsMatch(logs: Logs, rollups: Rollups) {
    forall scope, key, hour :: |hour| == HOUR_LENGTH && key != "" ==>
      Stored(rollups, RollupId(scope, key, hour)) == Fold(logs, scope, key, hour)
  }

  lemma FoldInsert(logs: Logs, row: Row, scope: Scope, key: string, hour: string)
    requires KeyOf(row) !in logs
    ensures Fold(logs[KeyOf(row) := row], scope, key, hour) ==
      if Matches(row, scope, key, hour) then Add(Fold(logs, scope, key, hour), CountersOf(row))
      else Fold(logs, scope, key, hour)
  {
    SumUpdate(logs, KeyOf(row), row, Requests(scope, key, hour));
    SumUpdate(logs, KeyOf(row), row, Errors(scope, key, hour));
    SumUpdate(logs, KeyOf(row), row, Quotas(scope, key, hour));
    SumUpdate(logs, KeyOf(row), row, Prompts(scope, key, hour));
    SumUpdate(logs, KeyOf(row), row, Completions(scope, key, hour));
  }

  /** One scope's increment for one row; an empty key has no rollup. */
  function Bumped(rollups: Rollups, scope: Scope, row: Row): Rollups {
    var key := ScopeKey(scope, row);
    if key == "" then rollups
    else
      var id := RollupId(scope, key, row.hour);
      rollups[id := Add(Stored(rollups, id), CountersOf(row))]
  }

  const SCOPES := [User, Channel, Model, Global]

  /** The increments of the first `n` scopes. */
  function BumpedThrough(rollups: Rollups, row: Row, n: nat): Rollups
    requires n <= |SCOPES|
  {
    if n == 0 then rollups else Bumped(BumpedThrough(rollups, row, n - 1), SCOPES[n - 1], row)
  }

  lemma BumpedAt(rollups: Rollups, bumped: Scope, row: Row, scope: Scope, key: string, hour: string)
    requires |hour| == HOUR_LENGTH && |row.hour| == HOUR_LENGTH && key != ""
    ensures Stored(Bumped(rollups, bumped, row), RollupId(scope, key, hour)) ==
      if scope == bumped && Matches(row, scope, key, hour)
      then Add(Stored(rollups, RollupId(scope, key, hour)), CountersOf(row))
      else Stored(rollups, RollupId(scope, key, hour))
  {
    if RollupId(bumped, ScopeKey(bumped, row), row.hour) == RollupId(scope, key, hour) {
      RollupIdInjective(bumped, ScopeKey(bumped, row), row.hour, scope, key, hour);
    }
  }

  predicate AmongFirst(scope: Scope, n: nat) {
    match scope
    case User => n > 0
    case Channel => n > 1
    case Model => n > 2
    case Global => n > 3
  }

  lemma {:induction false} BumpedThroughAt(rollups: Rollups, row: Row, n: nat, scope: Scope, key: string, hour: string)
    requires n <= |SCOPES| && |hour| == HOUR_LENGTH && |row.hour| == HOUR_LENGTH && key != ""
    ensures Stored(BumpedThrough(rollups, row, n), RollupId(scope, key, hour)) ==
      if AmongFirst(scope, n) && Matches(row, scope, key, hour)
      then Add(Stored(rollups, RollupId(scope, key, hour)), CountersOf(row))
      else Stored(rollups, RollupId(scope, key, hour))
  {
    if n > 0 {
      BumpedThroughAt(rollups, row, n - 1, scope, key, hour);
      BumpedAt(BumpedThrough(rollups, row, n - 1), SCOPES[n - 1], row, scope, key, hour);
    }
  }

  lemma InsertKeepsRollups(logs: Logs, rollups: Rollups, row: Row)
    requires RollupsMatch(logs, rollups) && KeyOf(row) !in logs && |row.hour| == HOUR_LENGTH
    ensures RollupsMatch(logs[KeyOf(row) := row], BumpedThrough(rollups, row, |SCOPES|))
  {
    forall scope, key, hour | |hour| == HOUR_LENGTH && key != ""
      ensures Stored(BumpedThrough(rollups, row, |SCOPES|), RollupId(scope, key, hour))
           == Fold(logs[KeyOf(row) := row], scope, key, hour)
    {
      FoldInsert(logs, row, scope, key, hour);
      BumpedThroughAt(rollups, row, |SCOPES|, scope, key, hour);
    }
  }

  predicate WellDated(rows: seq<Row>) {
    forall i :: 0 <= i < |rows| ==> |rows[i].hour| == HOUR_LENGTH
  }

  // --- deliveries -------------------------------------------------------------------

  /** The first row delivered under a key is the one that stays. */
  function Admit(logs: Logs, row: Row): Logs {
    if KeyOf(row) in logs then logs else logs[KeyOf(row) := row]
  }

  function AdmitAll(logs: Logs, rows: seq<Row>): Logs
    decreases |rows|
  {
    if rows == [] then logs else AdmitAll(Admit(logs, rows[0]), rows[1..])
  }

  datatype Found = Missing | Present(row: Row)

  function Lookup(logs: Logs, key: RowKey): Found {
    if key in logs then Present(logs[key]) else Missing
  }

  /** The first row of a delivery under a key. */
  function FirstUnder(rows: seq<Row>, key: RowKey): Found {
    if rows == [] then Missing
    else if KeyOf(rows[0]) == key then Present(rows[0])
    else FirstUnder(rows[1..], key)
  }

  /** What a delivery leaves under each key: the row already there, else the first delivered. */
  lemma {:induction false} AdmitAllAt(logs: Logs, rows: seq<Row>, key: RowKey)
    ensures Lookup(AdmitAll(logs, rows), key) ==
      if key in logs then Present(logs[key]) else FirstUnder(rows, key)
    decreases |rows|
  {
    if rows != [] {
      AdmitAllAt(Admit(logs, rows[0]), rows[1..], key);
    }
  }

  lemma {:induction false} AdmitAllAppend(logs: Logs, xs: seq<Row>, ys: seq<Row>)
    ensures AdmitAll(logs, xs + ys) == AdmitAll(AdmitAll(logs, xs), ys)
    decreases |xs|
  {
    if xs == [] {
      assert xs + ys == ys;
    } else {
      assert (xs + ys)[1..] == xs[1..] + ys;
      AdmitAllAppend(Admit(logs, xs[0]), xs[1..], ys);
    }
  }

  /** Delivering the same rows again changes nothing. */
  lemma RedeliveryChangesNothing(logs: Logs, rows: seq<Row>)
    ensures AdmitAll(AdmitAll(logs, rows), rows) == AdmitAll(logs, rows)
  {
    var once := AdmitAll(logs, rows);
    var twice := AdmitAll(once, rows);
    forall key
      ensures Lookup(twice, key) == Lookup(once, key)
    {
      AdmitAllAt(logs, rows, key);
      AdmitAllAt(once, rows, key);
    }
    LookupExtensional(twice, once);
  }

  lemma LookupExtensional(a: Logs, b: Logs)
    requires forall key :: Lookup(a, key) == Lookup(b, key)
    ensures a == b
  {
    forall key
      ensures (key in a) == (key in b) && (key in a ==> a[key] == b[key])
    {
      assert Lookup(a, key) == Lookup(b, key);
    }
  }

  /** Rows and rollups after one committed delivery. */
  function Delivered(logs: Logs, rollups: Rollups, rows: seq<Row>): (Logs, Rollups)
    decreases |rows|
  {
    if rows == [] then (logs, rollups)
    else if KeyOf(rows[0]) in logs then Delivered(logs, rollups, rows[1..])
    else Delivered(logs[KeyOf(rows[0]) := rows[0]], BumpedThrough(rollups, rows[0], |SCOPES|), rows[1..])
  }

  lemma {:induction false} DeliveryKeepsRollups(logs: Logs, rollups: Rollups, rows: seq<Row>)
    requires RollupsMatch(logs, rollups) && WellDated(rows)
    ensures var (logs', rollups') := Delivered(logs, rollups, rows);
      logs' == AdmitAll(logs, rows) && RollupsMatch(logs', rollups')
    decreases |rows|
  {
    if rows != [] {
      if KeyOf(rows[0]) in logs {
        DeliveryKeepsRollups(logs, rollups, rows[1..]);
      } else {
        InsertKeepsRollups(logs, rollups, rows[0]);
        DeliveryKeepsRollups(logs[KeyOf(rows[0]) := rows[0]], BumpedThrough(rollups, rows[0], |SCOPES|), rows[1..]);
      }
    }
  }

  function DeliveredAll(logs: Logs, rollups: Rollups, batches: seq<seq<Row>>): (Logs, Rollups)
    decreases |batches|
  {
    if batches == [] then (logs, rollups)
    else
      var (logs', rollups') := Delivered(logs, rollups, batches[0]);
      DeliveredAll(logs', rollups', batches[1..])
  }

  /**
   * However often and however overlapping the deliveries, every rollup counter is the fold over
   * the distinct rows that were persisted.
   */
  lemma {:induction false} RollupsAreTheFold(logs: Logs, rollups: Rollups, batches: seq<seq<Row>>)
    requires RollupsMatch(logs, rollups)
    requires forall i :: 0 <= i < |batches| ==> WellDated(batches[i])
    ensures RollupsMatch(DeliveredAll(logs, rollups, batches).0, DeliveredAll(logs, rollups, batches).1)
    decreases |batches|
  {
    if batches != [] {
      DeliveryKeepsRollups(logs, rollups, batches[0]);
      var (logs', rollups') := Delivered(logs, rollups, batches[0]);
      RollupsAreTheFold(logs', rollups', batches[1..]);
    }
  }
}
