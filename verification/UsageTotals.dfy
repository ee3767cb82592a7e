/** The usage rollups by their names in the store, and the rows kept per request. */
module UsageTotals {
  import opened Sums
  import opened UsageLedger

  /** Requests, failures, quota and tokens of the chosen rows. */
  ghost function Totals(logs: Logs, chosen: Row -> bool): Counters {
    Counters(Sum(logs, (r: Row) => if chosen(r) then 1 else 0),
             Sum(logs, (r: Row) => if chosen(r) && !r.success then 1 else 0),
             Sum(logs, (r: Row) => if chosen(r) then r.quota else 0),
             Sum(logs, (r: Row) => if chosen(r) then r.promptTokens else 0),
             Sum(logs, (r: Row) => if chosen(r) then r.completionTokens else 0))
  }

  lemma SumSame<K, V>(m: map<K, V>, f: V -> int, g: V -> int)
    requires forall v :: f(v) == g(v)
    ensures Sum(m, f) == Sum(m, g)
  {
    assert Weighed(m, f) == Weighed(m, g);
  }

  lemma FoldIsTotals(logs: Logs, scope: Scope, key: string, hour: string, chosen: Row -> bool)
    requires forall r :: chosen(r) <==> Matches(r, scope, key, hour)
    ensures Fold(logs, scope, key, hour) == Totals(logs, chosen)
  {
    SumSame(logs, Requests(scope, key, hour), (r: Row) => if chosen(r) then 1 else 0);
    SumSame(logs, Errors(scope, key, hour), (r: Row) => if chosen(r) && !r.success then 1 else 0);
    SumSame(logs, Quotas(scope, key, hour), (r: Row) => if chosen(r) then r.quota else 0);
    SumSame(logs, Prompts(scope, key, hour), (r: Row) => if chosen(r) then r.promptTokens else 0);
    SumSame(logs, Completions(scope, key, hour), (r: Row) => if chosen(r) then r.completionTokens else 0);
  }

  lemma NamedTotals(logs: Logs, rollups: Rollups, scope: Scope, key: string, hour: string, id: string, chosen: Row -> bool)
    requires RollupsMatch(logs, rollups) && |hour| == HOUR_LENGTH && key != "" && id == RollupId(scope, key, hour)
    requires forall r :: chosen(r) <==> Matches(r, scope, key, hour)
    ensures Stored(rollups, id) == Totals(logs, chosen)
  {
    FoldIsTotals(logs, scope, key, hour, chosen);
  }

  /** Each document counts the hour's rows of its user, channel or billed model, and the global one all of them. */
  lemma RollupsByName(logs: Logs, rollups: Rollups, key: string, hour: string)
    requires RollupsMatch(logs, rollups) && |hour| == 13 && key != ""
    ensures Stored(rollups, "user:" + key + ":" + hour) == Totals(logs, (r: Row) => r.hour == hour && r.userId == key)
    ensures Stored(rollups, "channel:" + key + ":" + hour) == Totals(logs, (r: Row) => r.hour == hour && r.channelId == key)
    ensures Stored(rollups, "model:" + key + ":" + hour) == Totals(logs, (r: Row) => r.hour == hour && r.billedModel == key)
    ensures Stored(rollups, "global:all:" + hour) == Totals(logs, (r: Row) => r.hour == hour)
  {
    NamedTotals(logs, rollups, User, key, hour, "user:" + key + ":" + hour, (r: Row) => r.hour == hour && r.userId == key);
    NamedTotals(logs, rollups, Channel, key, hour, "channel:" + key + ":" + hour, (r: Row) => r.hour == hour && r.channelId == key);
    NamedTotals(logs, rollups, Model, key, hour, "model:" + key + ":" + hour, (r: Row) => r.hour == hour && r.billedModel == key);
    assert "global" + ":" + "all" + ":" + hour == "global:all:" + hour;
    NamedTotals(logs, rollups, Global, "all", hour, "global:all:" + hour, (r: Row) => r.hour == hour);
  }

  /** Rows are filed under their month and request. */
  ghost predicate FiledByRequest(logs: Logs) {
    forall key :: key in logs ==> key.month == logs[key].month && key.id == logs[key].id
  }

  /** Whatever is delivered, each request of a month keeps the one row it had, or gets the first one delivered for it. */
  lemma {:induction false} OneRowPerRequest(logs: Logs, rows: seq<Row>, month: string, id: Id)
    requires FiledByRequest(logs)
    ensures FiledByRequest(AdmitAll(logs, rows))
    ensures var key, after := RowKey(month, id), AdmitAll(logs, rows);
      && (key in logs ==> key in after && after[key] == logs[key])
      && (key in after <==> key in logs || exists i :: 0 <= i < |rows| && rows[i].month == month && rows[i].id == id)
      && (key in after && key !in logs ==> after[key] in rows)
    decreases |rows|
  {
    if rows != [] {
      OneRowPerRequest(Admit(logs, rows[0]), rows[1..], month, id);
      var key := RowKey(month, id);
      if key in AdmitAll(logs, rows) && key !in logs && key !in Admit(logs, rows[0]) {
        var i :| 0 <= i < |rows[1..]| && rows[1..][i].month == month && rows[1..][i].id == id;
        assert rows[i + 1].month == month && rows[i + 1].id == id;
      }
      forall i | 0 <= i < |rows| && rows[i].month == month && rows[i].id == id
        ensures key in AdmitAll(logs, rows)
      {
        assert i > 0 ==> rows[1..][i - 1] == rows[i];
      }
    }
  }
}
