/**
 * The two limiters kept in one sorted set with a time to live: the sliding window of admissions
 * and the gate of concurrent leases. Times are milliseconds of one nondecreasing clock.
 */
module ZsetLimiters {
  import opened Options
  import opened Numbers

  datatype Zset = Zset(scores: map<string, int>, expiresAt: int)

  // --- the store's commands -------------------------------------------------------------

  function Visible(key: Option<Zset>, now: int): map<string, int> {
    if key.Some? && now < key.value.expiresAt then key.value.scores else map[]
  }

  function Above(scores: map<string, int>, cut: int): map<string, int> {
    map m | m in scores && scores[m] > cut :: scores[m]
  }

  /** The set after expiry and after dropping scores up to `cut`. */
  function Trimmed(key: Option<Zset>, now: int, cut: int): Option<Zset> {
    if key.Some? && now < key.value.expiresAt then Some(Zset(Above(key.value.scores, cut), key.value.expiresAt)) else None
  }

  function Removed(key: Option<Zset>, now: int, member: string): Option<Zset> {
    if key.Some? && now < key.value.expiresAt then Some(Zset(key.value.scores - {member}, key.value.expiresAt)) else None
  }

  // --- the scripts -------------------------------------------------------------------------

  /** Trim, count, and add one member unless `limit` are there. */
  function Admit(key: Option<Zset>, limit: int, now: int, cut: int, member: string, score: int, expiresAt: int): (Option<Zset>, bool) {
    var kept := Trimmed(key, now, cut);
    var scores := if kept.Some? then kept.value.scores else map[];
    if |scores| >= limit then (kept, false)
    else (Some(Zset(scores[member := score], expiresAt)), true)
  }

  function SlidingSuccess(key: Option<Zset>, limit: int, window: int, now: int, member: string): (Option<Zset>, bool) {
    if limit <= 0 then (key, true) else Admit(key, limit, now, now - window, member, now, now + window)
  }

  function Concurrency(key: Option<Zset>, limit: int, now: int, ttl: int, member: string): (Option<Zset>, bool) {
    Admit(key, limit, now, now, member, now + ttl, now + ttl + 1000)
  }

  class ZsetKey {
    var key: Option<Zset>

    constructor ()
      ensures key == None
    {
      key := None;
    }

    method ZRemRangeByScore(now: int, max: int)
      modifies this
      ensures key == Trimmed(old(key), now, max)
    {
      if key.Some? && now < key.value.expiresAt {
        key := Some(key.value.(scores := Above(key.value.scores, max)));
      } else {
        key := None;
      }
    }

    method ZCard(now: int) returns (n: nat)
      ensures n == |Visible(key, now)|
    {
      n := if key.Some? && now < key.value.expiresAt then |key.value.scores| else 0;
    }

    /** `ZADD` and the `PEXPIRE` after it. */
    method ZAddExpiring(now: int, score: int, member: string, expiresAt: int)
      modifies this
      ensures key == Some(Zset(Visible(old(key), now)[member := score], expiresAt))
    {
      var scores := Visible(key, now);
      key := Some(Zset(scores[member := score], expiresAt));
    }

    method ZRem(now: int, member: string)
      modifies this
      ensures key == Removed(old(key), now, member)
    {
      if key.Some? && now < key.value.expiresAt {
        key := Some(key.value.(scores := key.value.scores - {member}));
      } else {
        key := None;
      }
    }

    method RunSlidingSuccess(limit: int, window: int, now: int, member: string) returns (allowed: bool)
      modifies this
      ensures (key, allowed) == SlidingSuccess(old(key), limit, window, now, member)
    {
      if limit <= 0 {
        return true;
      }
      ZRemRangeByScore(now, now - window);
      var count := ZCard(now);
      if count >= limit {
        return false;
      }
      ZAddExpiring(now, now, member, now + window);
      allowed := true;
    }

    method RunConcurrency(limit: int, now: int, ttl: int, member: string) returns (allowed: bool)
      modifies this
      ensures (key, allowed) == Concurrency(old(key), limit, now, ttl, member)
    {
      ZRemRangeByScore(now, now);
      var count := ZCard(now);
      if count >= limit {
        return false;
      }
      ZAddExpiring(now, now + ttl, member, now + ttl + 1000);
      allowed := true;
    }
  }

  /** A lease as the request holds it: releasing twice sends one command. */
  class Lease {
    const store: ZsetKey
    const member: string
    var released: bool

    constructor (store: ZsetKey, member: string)
      ensures this.store == store && this.member == member && !released
    {
      this.store := store;
      this.member := member;
      released := false;
    }

    /** `reaches` is whether the command gets through; a lost one leaves the member to expire. */
    method Release(now: int, reaches: bool)
      modifies this, store
      ensures released
      ensures store.key == if old(released) || !reaches then old(store.key) else Removed(old(store.key), now, member)
    {
      if released {
        return;
      }
      released := true;
      if reaches {
        store.ZRem(now, member);
      }
    }
  }

  // --- the set against a log that never expires ------------------------------------------------

  /**
   * What the key holds is in `log`, and every entry of `log` above `clock - w` is still in the
   * key, which lives on until the entry has aged by `w`.
   */
  ghost predicate Mirrors(key: Option<Zset>, log: map<string, int>, clock: int, w: int) {
    && (key.Some? ==> forall m :: m in key.value.scores ==> m in log && log[m] == key.value.scores[m])
    && (forall m :: m in log && log[m] > clock - w ==> Keeps(key, m, log[m], w))
  }

  ghost predicate Keeps(key: Option<Zset>, m: string, score: int, w: int) {
    key.Some? && m in key.value.scores && key.value.scores[m] == score && key.value.expiresAt >= score + w
  }

  ghost predicate AtMost(log: map<string, int>, bound: int) {
    forall m :: m in log ==> log[m] <= bound
  }

  lemma StaysAtMost(log: map<string, int>, bound: int, later: int)
    requires AtMost(log, bound) && bound <= later
    ensures AtMost(log, later)
  {
  }

  /** Trimming leaves exactly the recent part of the log: expiry of the key drops nothing live. */
  lemma TrimIsRecent(key: Option<Zset>, log: map<string, int>, clock: int, w: int, now: int)
    requires Mirrors(key, log, clock, w) && clock <= now
    ensures Above(Visible(key, now), now - w) == Above(log, now - w)
  {
    var a, b := Above(Visible(key, now), now - w), Above(log, now - w);
    forall m | m in b
      ensures m in a && a[m] == b[m]
    {
      assert Keeps(key, m, log[m], w);
    }
  }

  function LogAfter(log: map<string, int>, allowed: bool, member: string, score: int): map<string, int> {
    if allowed then log[member := score] else log
  }

  lemma AdmitMirrors(key: Option<Zset>, log: map<string, int>, clock: int, w: int, limit: int, now: int, member: string, score: int, expiresAt: int, next: Option<Zset>, allowed: bool)
    requires Mirrors(key, log, clock, w) && clock <= now
    requires now <= score + w <= expiresAt && AtMost(log, score)
    requires (next, allowed) == Admit(key, limit, now, now - w, member, score, expiresAt)
    ensures allowed == (|Above(log, now - w)| < limit)
    ensures Mirrors(next, LogAfter(log, allowed, member, score), now, w)
  {
    TrimIsRecent(key, log, clock, w, now);
    var after := LogAfter(log, allowed, member, score);
    forall m | m in after && after[m] > now - w
      ensures Keeps(next, m, after[m], w)
    {
      if !allowed || m != member {
        assert Keeps(key, m, log[m], w);
        assert m in Above(log, now - w);
      }
    }
  }

  lemma RemovedMirrors(key: Option<Zset>, log: map<string, int>, clock: int, w: int, now: int, member: string)
    requires Mirrors(key, log, clock, w) && clock <= now
    ensures Mirrors(Removed(key, now, member), log - {member}, now, w)
  {
    forall m | m in log - {member} && log[m] > now - w
      ensures Keeps(Removed(key, now, member), m, log[m], w)
    {
      assert Keeps(key, m, log[m], w);
    }
  }

  lemma SmallerMap(a: map<string, int>, b: map<string, int>)
    requires a.Keys <= b.Keys
    ensures |a| <= |b|
  {
    SmallerSet(a.Keys, b.Keys);
    assert |a| == |a.Keys| && |b| == |b.Keys|;
  }

  lemma {:induction false} SmallerSet<T>(a: set<T>, b: set<T>)
    requires a <= b
    ensures |a| <= |b|
  {
    assert b == a + (b - a);
  }

  // --- the sliding window over runs ------------------------------------------------------------

  datatype Request = Request(now: int, member: string)

  /** Beside the key: every admission so far, and the latest one of each id. */
  datatype WindowRun = WindowRun(key: Option<Zset>, history: set<Request>, latest: map<string, int>, clock: int)

  const NO_REQUESTS := WindowRun(None, {}, map[], 0)

  function WindowStep(s: WindowRun, limit: int, window: int, r: Request): WindowRun {
    var (next, allowed) := SlidingSuccess(s.key, limit, window, r.now, r.member);
    WindowRun(next, if allowed then s.history + {r} else s.history, LogAfter(s.latest, allowed, r.member, r.now), r.now)
  }

  function WindowRunFrom(s: WindowRun, limit: int, window: int, requests: seq<Request>): WindowRun
    decreases |requests|
  {
    if requests == [] then s else WindowRunFrom(WindowStep(s, limit, window, requests[0]), limit, window, requests[1..])
  }

  /** Times do not fall. */
  predicate Orderly(requests: seq<Request>, clock: int) {
    requests != [] ==> clock <= requests[0].now && Orderly(requests[1..], requests[0].now)
  }

  function Within(history: set<Request>, lo: int, hi: int): set<Request> {
    set r | r in history && lo < r.now <= hi
  }

  /** The different ids admitted in a window. */
  function Ids(history: set<Request>, lo: int, hi: int): set<string> {
    set r | r in Within(history, lo, hi) :: r.member
  }

  ghost predicate WindowsBounded(history: set<Request>, limit: int, window: int) {
    forall hi :: WindowBounded(history, limit, window, hi)
  }

  predicate WindowBounded(history: set<Request>, limit: int, window: int, hi: int) {
    |Ids(history, hi - window, hi)| <= limit
  }

  /** `latest` holds the time of each admitted id's last admission. */
  ghost predicate Latest(history: set<Request>, latest: map<string, int>, clock: int) {
    && (forall r :: r in history ==> r.member in latest && r.now <= latest[r.member] && r.now <= clock)
    && (forall m :: m in latest ==> Request(latest[m], m) in history)
  }

  ghost predicate WindowInv(s: WindowRun, limit: int, window: int) {
    && Mirrors(s.key, s.latest, s.clock, window)
    && Latest(s.history, s.latest, s.clock)
    && WindowsBounded(s.history, limit, window)
  }

  lemma LatestAtMost(s: WindowRun, now: int)
    requires Latest(s.history, s.latest, s.clock) && s.clock <= now
    ensures AtMost(s.latest, now)
  {
    forall m | m in s.latest
      ensures s.latest[m] <= now
    {
      assert Request(s.latest[m], m) in s.history;
    }
  }

  /** The ids admitted since `lo` are those whose last admission is since then. */
  lemma RecentIds(s: WindowRun, lo: int, hi: int)
    requires Latest(s.history, s.latest, s.clock) && s.clock <= hi
    ensures Ids(s.history, lo, hi) == Above(s.latest, lo).Keys
  {
    forall m | m in Above(s.latest, lo)
      ensures m in Ids(s.history, lo, hi)
    {
      assert Request(s.latest[m], m) in Within(s.history, lo, hi);
    }
  }

  /** A window that contains the newest admission starts no earlier than the one ending there. */
  lemma NewestWindow(s: WindowRun, limit: int, window: int, r: Request, hi: int)
    requires limit > 0 && window > 0 && Latest(s.history, s.latest, s.clock) && s.clock <= r.now
    requires |Above(s.latest, r.now - window)| < limit
    requires WindowBounded(s.history, limit, window, hi)
    ensures WindowBounded(s.history + {r}, limit, window, hi)
  {
    var inside := Ids(s.history + {r}, hi - window, hi);
    if hi - window < r.now <= hi {
      var recent := Above(s.latest, r.now - window);
      forall m | m in inside
        ensures m in recent.Keys + {r.member}
      {
        var a :| a in Within(s.history + {r}, hi - window, hi) && a.member == m;
        assert a == r || a in s.history;
      }
      SmallerSet(inside, recent.Keys + {r.member});
      assert |recent.Keys| == |recent|;
    } else {
      assert Within(s.history + {r}, hi - window, hi) == Within(s.history, hi - window, hi);
    }
  }

  lemma NewestWindows(s: WindowRun, limit: int, window: int, r: Request)
    requires limit > 0 && window > 0 && Latest(s.history, s.latest, s.clock) && s.clock <= r.now
    requires |Above(s.latest, r.now - window)| < limit && WindowsBounded(s.history, limit, window)
    ensures WindowsBounded(s.history + {r}, limit, window)
    ensures Latest(s.history + {r}, s.latest[r.member := r.now], r.now)
  {
    LatestAtMost(s, r.now);
    var next := s.history + {r};
    forall hi
      ensures WindowBounded(next, limit, window, hi)
    {
      assert WindowBounded(s.history, limit, window, hi);
      NewestWindow(s, limit, window, r, hi);
    }
  }

  /** Admission at `r.now`, given what the script did to the key. */
  lemma AdmissionKeepsInv(s: WindowRun, limit: int, window: int, r: Request, allowed: bool, key: Option<Zset>)
    requires limit > 0 && window > 0 && WindowInv(s, limit, window) && s.clock <= r.now
    requires allowed == (|Above(s.latest, r.now - window)| < limit)
    requires Mirrors(key, LogAfter(s.latest, allowed, r.member, r.now), r.now, window)
    ensures WindowInv(WindowRun(key, if allowed then s.history + {r} else s.history, LogAfter(s.latest, allowed, r.member, r.now), r.now),
                      limit, window)
  {
    if allowed {
      NewestWindows(s, limit, window, r);
    }
  }

  lemma WindowStepKeepsInv(s: WindowRun, limit: int, window: int, r: Request)
    requires limit > 0 && window > 0 && WindowInv(s, limit, window) && s.clock <= r.now
    ensures WindowInv(WindowStep(s, limit, window, r), limit, window)
  {
    var (key, allowed) := SlidingSuccess(s.key, limit, window, r.now, r.member);
    LatestAtMost(s, r.now);
    AdmitMirrors(s.key, s.latest, s.clock, window, limit, r.now, r.member, r.now, r.now + window, key, allowed);
    AdmissionKeepsInv(s, limit, window, r, allowed, key);
  }

  lemma StartInv(limit: int, window: int)
    requires limit > 0
    ensures WindowInv(NO_REQUESTS, limit, window)
  {
    var nothing: set<Request> := {};
    forall hi
      ensures WindowBounded(nothing, limit, window, hi)
    {
      assert Ids(nothing, hi - window, hi) == {};
    }
  }

  lemma {:induction false} WindowRunKeepsInv(s: WindowRun, limit: int, window: int, requests: seq<Request>)
    requires limit > 0 && window > 0 && WindowInv(s, limit, window) && Orderly(requests, s.clock)
    ensures WindowInv(WindowRunFrom(s, limit, window, requests), limit, window)
    decreases |requests|
  {
    if requests != [] {
      WindowStepKeepsInv(s, limit, window, requests[0]);
      WindowRunKeepsInv(WindowStep(s, limit, window, requests[0]), limit, window, requests[1..]);
    }
  }

  /** How many different ids a run admits in a window. */
  ghost function IdCount(limit: int, window: int, requests: seq<Request>, lo: int, hi: int): nat {
    |Ids(WindowRunFrom(NO_REQUESTS, limit, window, requests).history, lo, hi)|
  }

  /** In every run, no window of the configured length holds admissions of more than `limit` ids. */
  lemma NoWindowOverflows(limit: int, window: int, requests: seq<Request>, hi: int)
    requires limit > 0 && window > 0 && Orderly(requests, 0)
    ensures IdCount(limit, window, requests, hi - window, hi) <= limit
  {
    StartInv(limit, window);
    WindowRunKeepsInv(NO_REQUESTS, limit, window, requests);
    assert WindowBounded(WindowRunFrom(NO_REQUESTS, limit, window, requests).history, limit, window, hi);
  }

  /** After any run, a request is admitted exactly when fewer than `limit` ids are in the window. */
  lemma AdmitsExactlyBelowLimit(limit: int, window: int, requests: seq<Request>, r: Request)
    requires limit > 0 && window > 0 && Orderly(requests, 0)
    requires WindowRunFrom(NO_REQUESTS, limit, window, requests).clock <= r.now
    ensures var s := WindowRunFrom(NO_REQUESTS, limit, window, requests);
      SlidingSuccess(s.key, limit, window, r.now, r.member).1 <==> |Ids(s.history, r.now - window, r.now)| < limit
  {
    StartInv(limit, window);
    WindowRunKeepsInv(NO_REQUESTS, limit, window, requests);
    AdmitsBelow(WindowRunFrom(NO_REQUESTS, limit, window, requests), limit, window, r);
  }

  lemma AdmitsBelow(s: WindowRun, limit: int, window: int, r: Request)
    requires limit > 0 && window > 0 && WindowInv(s, limit, window) && s.clock <= r.now
    ensures SlidingSuccess(s.key, limit, window, r.now, r.member).1 <==> |Ids(s.history, r.now - window, r.now)| < limit
  {
    TrimIsRecent(s.key, s.latest, s.clock, window, r.now);
    RecentIds(s, r.now - window, r.now);
    assert |Above(s.latest, r.now - window)| == |Above(s.latest, r.now - window).Keys|;
  }

  // --- counting admissions ---------------------------------------------------------------------

  /** The answers of the run, request by request. */
  function Allowed(s: WindowRun, limit: int, window: int, requests: seq<Request>): (r: seq<bool>)
    ensures |r| == |requests|
    decreases |requests|
  {
    if requests == [] then []
    else
      [SlidingSuccess(s.key, limit, window, requests[0].now, requests[0].member).1]
      + Allowed(WindowStep(s, limit, window, requests[0]), limit, window, requests[1..])
  }

  /** The requests of a run, by position, that were admitted in a window. */
  function Admissions(limit: int, window: int, requests: seq<Request>, lo: int, hi: int): set<int> {
    set i | 0 <= i < |requests| && Allowed(NO_REQUESTS, limit, window, requests)[i] && lo < requests[i].now <= hi
  }

  lemma {:induction false} HistoryGrows(s: WindowRun, limit: int, window: int, requests: seq<Request>)
    ensures s.history <= WindowRunFrom(s, limit, window, requests).history
    decreases |requests|
  {
    if requests != [] {
      HistoryGrows(WindowStep(s, limit, window, requests[0]), limit, window, requests[1..]);
    }
  }

  lemma {:induction false} AdmittedIsHistory(s: WindowRun, limit: int, window: int, requests: seq<Request>, i: nat)
    requires i < |requests| && Allowed(s, limit, window, requests)[i]
    ensures requests[i] in WindowRunFrom(s, limit, window, requests).history
    decreases |requests|
  {
    var next := WindowStep(s, limit, window, requests[0]);
    if i == 0 {
      HistoryGrows(next, limit, window, requests[1..]);
    } else {
      AdmittedIsHistory(next, limit, window, requests[1..], i - 1);
    }
  }

  lemma AllowedAfterFirst(s: WindowRun, limit: int, window: int, requests: seq<Request>, j: nat)
    requires j + 1 < |requests|
    ensures Allowed(s, limit, window, requests)[j + 1]
         == Allowed(WindowStep(s, limit, window, requests[0]), limit, window, requests[1..])[j]
  {
  }

  lemma {:induction false} HistoryWasAdmitted(s: WindowRun, limit: int, window: int, requests: seq<Request>, r: Request) returns (i: int)
    requires r in WindowRunFrom(s, limit, window, requests).history && r !in s.history
    ensures 0 <= i < |requests| && requests[i] == r && Allowed(s, limit, window, requests)[i]
    decreases |requests|
  {
    var next := WindowStep(s, limit, window, requests[0]);
    if r in next.history {
      i := 0;
    } else {
      var j := HistoryWasAdmitted(next, limit, window, requests[1..], r);
      AllowedAfterFirst(s, limit, window, requests, j);
      i := j + 1;
    }
  }

  /** The ids of a set of positions. */
  function IdsAt(requests: seq<Request>, positions: set<int>): set<string>
    requires forall i :: i in positions ==> 0 <= i < |requests|
  {
    set i | i in positions :: requests[i].member
  }

  predicate OneIdEach(requests: seq<Request>, positions: set<int>)
    requires forall i :: i in positions ==> 0 <= i < |requests|
  {
    forall i, j :: i in positions && j in positions && i != j ==> requests[i].member != requests[j].member
  }

  /** There are as many ids as positions exactly when no id repeats. */
  predicate Counted(requests: seq<Request>, positions: set<int>)
    requires forall i :: i in positions ==> 0 <= i < |requests|
  {
    && |IdsAt(requests, positions)| <= |positions|
    && (|IdsAt(requests, positions)| == |positions| <==> OneIdEach(requests, positions))
  }

  lemma {:induction false} CountedOnce(requests: seq<Request>, positions: set<int>, n: nat)
    requires n <= |requests| && forall i :: i in positions ==> 0 <= i < n
    ensures Counted(requests, positions)
  {
    if n == 0 {
      assert positions == {};
    } else if n - 1 in positions {
      CountedOnce(requests, positions - {n - 1}, n - 1);
      CountOneMore(requests, positions - {n - 1}, n - 1);
      assert positions - {n - 1} + {n - 1} == positions;
    } else {
      CountedOnce(requests, positions, n - 1);
    }
  }

  lemma CountOneMore(requests: seq<Request>, positions: set<int>, i: int)
    requires 0 <= i < |requests| && i !in positions && forall j :: j in positions ==> 0 <= j < |requests|
    requires Counted(requests, positions)
    ensures Counted(requests, positions + {i})
  {
    OneMoreCounted(requests, positions, i);
  }

  lemma OneMoreCounted(requests: seq<Request>, positions: set<int>, i: int)
    requires 0 <= i < |requests| && i !in positions && forall j :: j in positions ==> 0 <= j < |requests|
    ensures IdsAt(requests, positions + {i}) == IdsAt(requests, positions) + {requests[i].member}
    ensures OneIdEach(requests, positions + {i})
       <==> OneIdEach(requests, positions) && requests[i].member !in IdsAt(requests, positions)
  {
    if requests[i].member in IdsAt(requests, positions) {
      var j :| j in positions && requests[j].member == requests[i].member;
      assert j in positions + {i} && i in positions + {i};
    }
  }

  lemma IdsOfAdmissions(limit: int, window: int, requests: seq<Request>, lo: int, hi: int)
    ensures |IdsAt(requests, Admissions(limit, window, requests, lo, hi))| == IdCount(limit, window, requests, lo, hi)
  {
    var history, positions := WindowRunFrom(NO_REQUESTS, limit, window, requests).history, Admissions(limit, window, requests, lo, hi);
    forall m | m in IdsAt(requests, positions)
      ensures m in Ids(history, lo, hi)
    {
      var i :| i in positions && requests[i].member == m;
      AdmittedIsHistory(NO_REQUESTS, limit, window, requests, i);
      assert requests[i] in Within(history, lo, hi);
    }
    forall m | m in Ids(history, lo, hi)
      ensures m in IdsAt(requests, positions)
    {
      var r :| r in Within(history, lo, hi) && r.member == m;
      var i := HistoryWasAdmitted(NO_REQUESTS, limit, window, requests, r);
      assert i in positions;
    }
    SameSize(IdsAt(requests, positions), Ids(history, lo, hi));
  }

  lemma SameSize(a: set<string>, b: set<string>)
    requires forall m :: m in a <==> m in b
    ensures |a| == |b|
  {
    assert a == b;
  }

  /** A window holds at least as many admissions as ids, and as many exactly when no id repeats. */
  lemma AdmissionsPerId(limit: int, window: int, requests: seq<Request>, lo: int, hi: int)
    ensures var ids, positions := IdCount(limit, window, requests, lo, hi), Admissions(limit, window, requests, lo, hi);
      ids <= |positions| && (ids == |positions| <==> OneIdEach(requests, positions))
  {
    IdsOfAdmissions(limit, window, requests, lo, hi);
    CountedOnce(requests, Admissions(limit, window, requests, lo, hi), |requests|);
  }

  lemma AsManyIds(limit: int, window: int, requests: seq<Request>, lo: int, hi: int)
    requires OneIdEach(requests, Admissions(limit, window, requests, lo, hi))
    ensures |Admissions(limit, window, requests, lo, hi)| == IdCount(limit, window, requests, lo, hi)
  {
    AdmissionsPerId(limit, window, requests, lo, hi);
  }

  /** A window in which no id was admitted twice holds at most `limit` admissions. */
  lemma NoWindowHoldsMore(limit: int, window: int, requests: seq<Request>, hi: int)
    requires limit > 0 && window > 0 && Orderly(requests, 0)
    requires OneIdEach(requests, Admissions(limit, window, requests, hi - window, hi))
    ensures |Admissions(limit, window, requests, hi - window, hi)| <= limit
  {
    AsManyIds(limit, window, requests, hi - window, hi);
    NoWindowOverflows(limit, window, requests, hi);
  }

  // --- an id that repeats ------------------------------------------------------------------------

  function Asking(member: string, n: nat): (r: seq<Request>)
    ensures |r| == n && forall i :: 0 <= i < n ==> r[i] == Request(0, member)
  {
    if n == 0 then [] else [Request(0, member)] + Asking(member, n - 1)
  }

  lemma OneId(history: set<Request>, member: string, lo: int, hi: int)
    requires forall r :: r in history ==> r.member == member
    ensures |Ids(history, lo, hi)| <= 1
  {
    SmallerSet(Ids(history, lo, hi), {member});
  }

  lemma OneIdIsAdmitted(s: WindowRun, limit: int, window: int, r: Request)
    requires limit > 1 && window > 0 && WindowInv(s, limit, window) && s.clock <= r.now
    requires forall q :: q in s.history ==> q.member == r.member
    ensures SlidingSuccess(s.key, limit, window, r.now, r.member).1
  {
    OneId(s.history, r.member, r.now - window, r.now);
    AdmitsBelow(s, limit, window, r);
  }

  lemma {:induction false} AskingIsAllowed(s: WindowRun, limit: int, window: int, member: string, requests: seq<Request>)
    requires limit > 1 && window > 0 && WindowInv(s, limit, window) && s.clock <= 0
    requires forall q :: q in s.history ==> q.member == member
    requires forall i :: 0 <= i < |requests| ==> requests[i] == Request(0, member)
    ensures forall i :: 0 <= i < |requests| ==> Allowed(s, limit, window, requests)[i]
    decreases |requests|
  {
    if requests != [] {
      OneIdIsAdmitted(s, limit, window, requests[0]);
      WindowStepKeepsInv(s, limit, window, requests[0]);
      AskingIsAllowed(WindowStep(s, limit, window, requests[0]), limit, window, member, requests[1..]);
    }
  }

  /** One id that keeps asking is admitted every time, in one window: ids must differ. */
  lemma RepeatedIdSlipsThrough(limit: int, window: int, member: string, n: nat)
    requires limit > 1 && window > 0
    ensures |Admissions(limit, window, Asking(member, n), 0 - window, 0)| == n
  {
    var asked := Asking(member, n);
    StartInv(limit, window);
    AskingIsAllowed(NO_REQUESTS, limit, window, member, asked);
    RangeSize(0, n);
    assert Admissions(limit, window, asked, 0 - window, 0) == Range(0, n);
  }

  // --- concurrent leases over runs ---------------------------------------------------------------

  datatype GateEvent =
    | Acquire(now: int, member: string)
    | Release(now: int, member: string, reaches: bool)

  /**
   * `slots` holds each granted lease with its expiry until its removal reaches the store;
   * `released` the leases whose holder let go; `issued` every member ever used.
   */
  datatype GateRun = GateRun(key: Option<Zset>, slots: map<string, int>, released: set<string>, issued: set<string>, clock: int)

  const NO_LEASES := GateRun(None, map[], {}, {}, 0)

  predicate GateEnabled(s: GateRun, e: GateEvent) {
    && s.clock <= e.now
    && (e.Acquire? ==> e.member !in s.issued)
    && (e.Release? ==> e.member in s.issued)
  }

  function GateStep(s: GateRun, limit: int, ttl: int, e: GateEvent): GateRun {
    match e
    case Acquire(now, member) =>
      var (next, allowed) := Concurrency(s.key, limit, now, ttl, member);
      GateRun(next, LogAfter(s.slots, allowed, member, now + ttl), s.released, s.issued + {member}, now)
    case Release(now, member, reaches) =>
      if member in s.released || !reaches then s.(released := s.released + {member}, clock := now)
      else GateRun(Removed(s.key, now, member), s.slots - {member}, s.released + {member}, s.issued, now)
  }

  predicate GateAllEnabled(s: GateRun, limit: int, ttl: int, events: seq<GateEvent>)
    decreases |events|
  {
    events != [] ==> GateEnabled(s, events[0]) && GateAllEnabled(GateStep(s, limit, ttl, events[0]), limit, ttl, events[1..])
  }

  function GateRunFrom(s: GateRun, limit: int, ttl: int, events: seq<GateEvent>): GateRun
    decreases |events|
  {
    if events == [] then s else GateRunFrom(GateStep(s, limit, ttl, events[0]), limit, ttl, events[1..])
  }

  /** Leases still held and not expired at `now`. */
  function Live(s: GateRun, now: int): map<string, int> {
    map m | m in s.slots && m !in s.released && s.slots[m] > now :: s.slots[m]
  }

  ghost predicate GateInv(s: GateRun, limit: int, ttl: int) {
    && Mirrors(s.key, s.slots, s.clock, 0)
    && s.slots.Keys <= s.issued
    && AtMost(s.slots, s.clock + ttl)
    && |Above(s.slots, s.clock)| <= limit
  }

  /** A grant or refusal at `now`, given what the script did to key and slots. */
  lemma GrantKeepsInv(s: GateRun, limit: int, ttl: int, now: int, member: string, allowed: bool, key: Option<Zset>)
    requires limit > 0 && ttl > 0 && GateInv(s, limit, ttl) && s.clock <= now && member !in s.issued
    requires allowed == (|Above(s.slots, now)| < limit)
    requires Mirrors(key, LogAfter(s.slots, allowed, member, now + ttl), now, 0)
    ensures GateInv(GateRun(key, LogAfter(s.slots, allowed, member, now + ttl), s.released, s.issued + {member}, now), limit, ttl)
  {
    GrantBounds(s, limit, ttl, now, member, allowed);
  }

  lemma GrantBounds(s: GateRun, limit: int, ttl: int, now: int, member: string, allowed: bool)
    requires GateInv(s, limit, ttl) && ttl > 0 && s.clock <= now && member !in s.issued
    requires allowed == (|Above(s.slots, now)| < limit)
    ensures AtMost(LogAfter(s.slots, allowed, member, now + ttl), now + ttl)
    ensures |Above(LogAfter(s.slots, allowed, member, now + ttl), now)| <= limit
  {
    GrantStaysBounded(s.slots, limit, s.clock, now, s.clock + ttl, member, now + ttl, allowed);
  }

  lemma GrantStaysBounded(slots: map<string, int>, limit: int, clock: int, now: int, bound: int, member: string, score: int, allowed: bool)
    requires clock <= now < score && bound <= score && member !in slots
    requires AtMost(slots, bound) && |Above(slots, clock)| <= limit
    requires allowed == (|Above(slots, now)| < limit)
    ensures AtMost(LogAfter(slots, allowed, member, score), score)
    ensures |Above(LogAfter(slots, allowed, member, score), now)| <= limit
  {
    LaterIsFewer(slots, clock, now);
    OneMore(slots, now, member, score);
  }

  lemma AcquireKeepsInv(s: GateRun, limit: int, ttl: int, now: int, member: string)
    requires limit > 0 && ttl > 0 && GateInv(s, limit, ttl) && GateEnabled(s, Acquire(now, member))
    ensures GateInv(GateStep(s, limit, ttl, Acquire(now, member)), limit, ttl)
  {
    var c := Concurrency(s.key, limit, now, ttl, member);
    GrantMirrors(s, limit, ttl, now, member, c.0, c.1);
    GrantKeepsInv(s, limit, ttl, now, member, c.1, c.0);
    Acquired(s, limit, ttl, now, member);
  }

  lemma Acquired(s: GateRun, limit: int, ttl: int, now: int, member: string)
    ensures var c := Concurrency(s.key, limit, now, ttl, member);
      GateStep(s, limit, ttl, Acquire(now, member))
      == GateRun(c.0, LogAfter(s.slots, c.1, member, now + ttl), s.released, s.issued + {member}, now)
  {
  }

  lemma GrantMirrors(s: GateRun, limit: int, ttl: int, now: int, member: string, key: Option<Zset>, allowed: bool)
    requires ttl > 0 && GateInv(s, limit, ttl) && s.clock <= now
    requires (key, allowed) == Concurrency(s.key, limit, now, ttl, member)
    ensures allowed == (|Above(s.slots, now)| < limit)
    ensures Mirrors(key, LogAfter(s.slots, allowed, member, now + ttl), now, 0)
  {
    StaysAtMost(s.slots, s.clock + ttl, now + ttl);
    AdmitMirrors(s.key, s.slots, s.clock, 0, limit, now, member, now + ttl, now + ttl + 1000, key, allowed);
  }

  lemma LaterIsFewer(slots: map<string, int>, clock: int, now: int)
    requires clock <= now
    ensures |Above(slots, now)| <= |Above(slots, clock)|
  {
    SmallerMap(Above(slots, now), Above(slots, clock));
  }

  lemma OneMore(slots: map<string, int>, cut: int, member: string, score: int)
    requires member !in slots && score > cut
    ensures |Above(slots[member := score], cut)| == |Above(slots, cut)| + 1
  {
    assert Above(slots[member := score], cut) == Above(slots, cut)[member := score];
  }

  lemma ReleaseKeepsInv(s: GateRun, limit: int, ttl: int, now: int, member: string, reaches: bool)
    requires limit > 0 && ttl > 0 && GateInv(s, limit, ttl) && GateEnabled(s, Release(now, member, reaches))
    ensures GateInv(GateStep(s, limit, ttl, Release(now, member, reaches)), limit, ttl)
  {
    LaterIsFewer(s.slots, s.clock, now);
    if member !in s.released && reaches {
      RemovedMirrors(s.key, s.slots, s.clock, 0, now, member);
      SmallerMap(Above(s.slots - {member}, now), Above(s.slots, now));
    } else {
      MirrorsLater(s.key, s.slots, s.clock, 0, now);
    }
  }

  lemma MirrorsLater(key: Option<Zset>, log: map<string, int>, clock: int, w: int, now: int)
    requires Mirrors(key, log, clock, w) && clock <= now
    ensures Mirrors(key, log, now, w)
  {
  }

  lemma GateStepKeepsInv(s: GateRun, limit: int, ttl: int, e: GateEvent)
    requires limit > 0 && ttl > 0 && GateInv(s, limit, ttl) && GateEnabled(s, e)
    ensures GateInv(GateStep(s, limit, ttl, e), limit, ttl)
  {
    match e
    case Acquire(now, member) => AcquireKeepsInv(s, limit, ttl, now, member);
    case Release(now, member, reaches) => ReleaseKeepsInv(s, limit, ttl, now, member, reaches);
  }

  lemma {:induction false} GateRunKeepsInv(s: GateRun, limit: int, ttl: int, events: seq<GateEvent>)
    requires limit > 0 && ttl > 0 && GateInv(s, limit, ttl) && GateAllEnabled(s, limit, ttl, events)
    ensures GateInv(GateRunFrom(s, limit, ttl, events), limit, ttl)
    decreases |events|
  {
    if events != [] {
      GateStepKeepsInv(s, limit, ttl, events[0]);
      GateRunKeepsInv(GateStep(s, limit, ttl, events[0]), limit, ttl, events[1..]);
    }
  }

  /** At every moment of every run at most `limit` leases are unexpired and unreleased. */
  lemma GateNeverOverflows(limit: int, ttl: int, events: seq<GateEvent>, now: int)
    requires limit > 0 && ttl > 0 && GateAllEnabled(NO_LEASES, limit, ttl, events)
    requires GateRunFrom(NO_LEASES, limit, ttl, events).clock <= now
    ensures |Live(GateRunFrom(NO_LEASES, limit, ttl, events), now)| <= limit
  {
    assert Above(map[], 0) == map[];
    GateRunKeepsInv(NO_LEASES, limit, ttl, events);
    var s := GateRunFrom(NO_LEASES, limit, ttl, events);
    SmallerMap(Live(s, now), Above(s.slots, s.clock));
  }

  /** A lease is refused exactly when `limit` unexpired members are unremoved. */
  lemma GateRefusesExactly(limit: int, ttl: int, events: seq<GateEvent>, now: int, member: string)
    requires limit > 0 && ttl > 0 && GateAllEnabled(NO_LEASES, limit, ttl, events)
    requires var s := GateRunFrom(NO_LEASES, limit, ttl, events); s.clock <= now && member !in s.issued
    ensures var s := GateRunFrom(NO_LEASES, limit, ttl, events);
      !Concurrency(s.key, limit, now, ttl, member).1 <==> |Above(s.slots, now)| >= limit
  {
    assert Above(map[], 0) == map[];
    GateRunKeepsInv(NO_LEASES, limit, ttl, events);
    var s := GateRunFrom(NO_LEASES, limit, ttl, events);
    TrimIsRecent(s.key, s.slots, s.clock, 0, now);
  }

  lemma ReleaseAgain(s: GateRun, limit: int, ttl: int, now: int, member: string, reaches: bool)
    requires member in s.released
    ensures GateStep(s, limit, ttl, Release(now, member, reaches)) == s.(clock := now)
    ensures Live(s, now) == Live(s, now) - {member}
  {
    assert s.released + {member} == s.released;
  }

  lemma ReleaseLost(s: GateRun, limit: int, ttl: int, now: int, member: string)
    ensures var next := GateStep(s, limit, ttl, Release(now, member, false));
      Live(next, now) == Live(s, now) - {member} && next.key == s.key
  {
    ReleasedIsNotLive(s, s.slots, now, member);
  }

  lemma ReleaseReaches(s: GateRun, limit: int, ttl: int, now: int, member: string)
    requires member !in s.released
    ensures var next := GateStep(s, limit, ttl, Release(now, member, true));
      && Live(next, now) == Live(s, now) - {member}
      && Above(Visible(next.key, now), now) == Above(Visible(s.key, now), now) - {member}
  {
    ReleasedIsNotLive(s, s.slots - {member}, now, member);
    RemovedVisible(s.key, now, member);
  }

  lemma ReleasedIsNotLive(s: GateRun, slots: map<string, int>, now: int, member: string)
    requires slots == s.slots || slots == s.slots - {member}
    ensures Live(s.(slots := slots, released := s.released + {member}), now) == Live(s, now) - {member}
  {
  }

  /**
   * Releasing, however late or often, ends at most the releaser's own lease: every other live
   * lease is live afterwards and nothing else becomes live.
   */
  lemma ReleaseEndsOnlyItsOwn(s: GateRun, limit: int, ttl: int, now: int, member: string, reaches: bool)
    requires limit > 0 && ttl > 0 && GateInv(s, limit, ttl) && GateEnabled(s, Release(now, member, reaches))
    ensures var next := GateStep(s, limit, ttl, Release(now, member, reaches));
      && Live(next, now) == Live(s, now) - {member}
      && (member in s.released ==> next == s.(clock := now))
      && Above(Visible(next.key, now), now)
         == if member in s.released || !reaches then Above(Visible(s.key, now), now) else Above(Visible(s.key, now), now) - {member}
  {
    if member in s.released {
      ReleaseAgain(s, limit, ttl, now, member, reaches);
    } else if reaches {
      ReleaseReaches(s, limit, ttl, now, member);
    } else {
      ReleaseLost(s, limit, ttl, now, member);
    }
  }

  lemma RemovedVisible(key: Option<Zset>, now: int, member: string)
    ensures Above(Visible(Removed(key, now, member), now), now) == Above(Visible(key, now), now) - {member}
  {
    var nothing: map<string, int> := map[];
    assert Above(nothing, now) == nothing - {member};
  }

  // --- the objects over runs ---------------------------------------------------------------------

  lemma OneMoreAsked(s: WindowRun, limit: int, window: int, rest: seq<Request>, admitted: seq<bool>)
    requires rest != []
    ensures var next := WindowStep(s, limit, window, rest[0]);
      var allowed := SlidingSuccess(s.key, limit, window, rest[0].now, rest[0].member).1;
      && WindowRunFrom(s, limit, window, rest) == WindowRunFrom(next, limit, window, rest[1..])
      && admitted + Allowed(s, limit, window, rest) == admitted + [allowed] + Allowed(next, limit, window, rest[1..])
  {
  }

  /** Any requests through the key: the theorems about window runs are about this object. */
  method AskAll(store: ZsetKey, ghost s: WindowRun, limit: int, window: int, requests: seq<Request>) returns (admitted: seq<bool>)
    requires store.key == s.key
    modifies store
    ensures store.key == WindowRunFrom(s, limit, window, requests).key && admitted == Allowed(s, limit, window, requests)
  {
    admitted := [];
    ghost var now := s;
    assert requests[0..] == requests;
    for i := 0 to |requests|
      invariant store.key == now.key
      invariant WindowRunFrom(now, limit, window, requests[i..]) == WindowRunFrom(s, limit, window, requests)
      invariant admitted + Allowed(now, limit, window, requests[i..]) == Allowed(s, limit, window, requests)
    {
      assert requests[i..][1..] == requests[i + 1..];
      OneMoreAsked(now, limit, window, requests[i..], admitted);
      now := WindowStep(now, limit, window, requests[i]);
      var allowed := store.RunSlidingSuccess(limit, window, requests[i].now, requests[i].member);
      admitted := admitted + [allowed];
    }
    assert requests[|requests|..] == [];
  }

  /** Any acquisitions and releases through the key: the theorems about gate runs are about this object. */
  method RunGate(store: ZsetKey, limit: int, ttl: int, events: seq<GateEvent>)
    requires store.key == None
    modifies store
    ensures store.key == GateRunFrom(NO_LEASES, limit, ttl, events).key
  {
    ghost var s := NO_LEASES;
    var released: set<string> := {};
    assert events[0..] == events;
    for i := 0 to |events|
      invariant store.key == s.key && released == s.released
      invariant GateRunFrom(s, limit, ttl, events[i..]) == GateRunFrom(NO_LEASES, limit, ttl, events)
    {
      assert events[i..][1..] == events[i + 1..];
      s := GateStep(s, limit, ttl, events[i]);
      match events[i]
      case Acquire(now, member) =>
        var _ := store.RunConcurrency(limit, now, ttl, member);
      case Release(now, member, reaches) =>
        if member !in released && reaches {
          store.ZRem(now, member);
        }
        released := released + {member};
    }
    assert events[|events|..] == [];
  }
}
