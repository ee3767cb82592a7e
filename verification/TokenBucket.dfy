/**
 * The token bucket limiter over one hash key with a time to live. Times are milliseconds of one
 * nondecreasing clock; token counts are reals.
 */
module TokenBucket {
  import opened Options
  import opened Numbers

  /** The hash with fields `tokens` and `ts`, and the key's expiry. */
  datatype Stored = Stored(tokens: real, ts: int, expiresAt: int)

  datatype Config = Config(capacity: real, refill: real, ttl: int)

  datatype Answer = Answer(allowed: bool, remaining: int, retry: int)

  function Min(a: real, b: real): real {
    if a < b then a else b
  }

  function Seconds(ms: int): real {
    (if ms > 0 then ms else 0) as real / 1000.0
  }

  /** Whether a stored bucket is still there; `forgetting` keys vanish at their expiry. */
  predicate Alive(s: Stored, now: int, forgetting: bool) {
    !forgetting || now < s.expiresAt
  }

  function Gain(c: Config, ms: int): real {
    Seconds(ms) * c.refill
  }

  /** Tokens in the bucket at `now`, before anything is taken. */
  function Level(stored: Option<Stored>, c: Config, now: int, forgetting: bool): real {
    if stored.Some? && Alive(stored.value, now, forgetting)
    then Min(c.capacity, stored.value.tokens + Gain(c, now - stored.value.ts))
    else Min(c.capacity, c.capacity + Gain(c, 0))
  }

  function RetryMs(deficit: real, c: Config): int {
    if c.refill > 0.0 then Ceil(deficit / c.refill * 1000.0) else c.ttl * 1000
  }

  /** What one call takes: the new hash, and whether the cost was covered. */
  function TakeFrom(level: real, c: Config, now: int, cost: real): (Stored, bool) {
    (Stored(if level >= cost then level - cost else level, now, now + c.ttl * 1000), level >= cost)
  }

  /** One call of the script; with `forgetting` false, on a store that never expires keys. */
  function Take(stored: Option<Stored>, c: Config, now: int, cost: real, forgetting: bool): (Option<Stored>, Answer) {
    if c.capacity <= 0.0 then (stored, Answer(true, -1, 0))
    else
      var level := Level(stored, c, now, forgetting);
      var (next, allowed) := TakeFrom(level, c, now, cost);
      (Some(next), Answer(allowed, next.tokens.Floor, if allowed then 0 else RetryMs(cost - level, c)))
  }

  class BucketKey {
    var stored: Option<Stored>

    constructor ()
      ensures stored == None
    {
      stored := None;
    }

    method TokenBucket(capacity: real, refill: real, now: int, cost: real, ttl: int) returns (answer: Answer)
      modifies this
      ensures (stored, answer) == Take(old(stored), Config(capacity, refill, ttl), now, cost, true)
    {
      if capacity <= 0.0 {
        return Answer(true, -1, 0);
      }
      var live := stored.Some? && now < stored.value.expiresAt;
      var tokens := if live then stored.value.tokens else capacity;
      var ts := if live then stored.value.ts else now;
      var elapsed := Seconds(now - ts);
      tokens := Min(capacity, tokens + elapsed * refill);
      assert tokens == Level(stored, Config(capacity, refill, ttl), now, true);
      var allowed, retry := false, 0;
      if tokens >= cost {
        tokens := tokens - cost;
        allowed := true;
      } else {
        var deficit := cost - tokens;
        retry := if refill > 0.0 then Ceil(deficit / refill * 1000.0) else ttl * 1000;
      }
      stored := Some(Stored(tokens, now, now + ttl * 1000));
      answer := Answer(allowed, tokens.Floor, retry);
    }
  }

  // --- the configuration of the per-minute limiters --------------------------------------------

  function ForLimit(limitPerMinute: real): Config
    requires limitPerMinute > 0.0
  {
    var refill := limitPerMinute / 60.0;
    var ttl := Ceil(limitPerMinute / (if refill > 0.001 then refill else 0.001)) + 60;
    Config(limitPerMinute, refill, if ttl > 60 then ttl else 60)
  }

  /** The key outlasts a refill from empty to full. */
  predicate OutlastsRefill(c: Config) {
    c.capacity > 0.0 && c.refill > 0.0 && c.ttl >= 0 && c.ttl as real * c.refill >= c.capacity
  }

  lemma Grows(rate: real, a: real, b: real)
    requires rate >= 0.0 && a <= b
    ensures a * rate <= b * rate
  {
  }

  lemma LimitOutlastsRefill(limitPerMinute: real)
    requires limitPerMinute > 0.0
    ensures OutlastsRefill(ForLimit(limitPerMinute))
  {
    var c := ForLimit(limitPerMinute);
    Grows(c.refill, 60.0, c.ttl as real);
  }

  // --- levels over time ---------------------------------------------------------------------------

  predicate Wellformed(stored: Option<Stored>, c: Config, now: int) {
    stored.Some? ==>
      && 0.0 <= stored.value.tokens <= c.capacity
      && stored.value.ts <= now
      && stored.value.expiresAt == stored.value.ts + c.ttl * 1000
  }

  lemma GainAdds(c: Config, a: int, b: int)
    requires a >= 0 && b >= 0 && c.refill >= 0.0
    ensures Gain(c, a + b) == Gain(c, a) + Gain(c, b) && Gain(c, a) >= 0.0
  {
    assert Seconds(a + b) == Seconds(a) + Seconds(b);
    Distributes(Seconds(a), Seconds(b), c.refill);
    Grows(c.refill, 0.0, Seconds(a));
  }

  lemma SecondsAtLeast(ms: int, s: nat)
    requires ms >= s * 1000
    ensures Seconds(ms) >= s as real
  {
    assert ms as real >= (s * 1000) as real;
    assert (s * 1000) as real == s as real * 1000.0;
  }

  lemma NoGain(c: Config)
    ensures Gain(c, 0) == 0.0
  {
    assert Seconds(0) == 0.0;
  }

  lemma RefillsWithin(c: Config, ms: int)
    requires OutlastsRefill(c) && ms >= c.ttl * 1000
    ensures Gain(c, ms) >= c.capacity
  {
    SecondsAtLeast(ms, c.ttl);
    Grows(c.refill, c.ttl as real, Seconds(ms));
  }

  /** A key that expired would have been full. */
  lemma ExpiredIsFull(stored: Option<Stored>, c: Config, now: int)
    requires OutlastsRefill(c) && Wellformed(stored, c, now)
    ensures Level(stored, c, now, true) == Level(stored, c, now, false)
  {
    if stored.Some? && now >= stored.value.expiresAt {
      RefillsWithin(c, now - stored.value.ts);
      NoGain(c);
    }
  }

  lemma LevelInRange(stored: Option<Stored>, c: Config, now: int, forgetting: bool)
    requires OutlastsRefill(c) && Wellformed(stored, c, now)
    ensures 0.0 <= Level(stored, c, now, forgetting) <= c.capacity
  {
    if stored.Some? {
      Grows(c.refill, 0.0, Seconds(now - stored.value.ts));
    }
  }

  /** Time adds at most its refill. */
  lemma LevelRises(stored: Option<Stored>, c: Config, from: int, to: int)
    requires OutlastsRefill(c) && Wellformed(stored, c, from) && from <= to
    ensures Level(stored, c, to, false) <= Level(stored, c, from, false) + Gain(c, to - from)
  {
    GainAdds(c, to - from, 0);
    if stored.Some? {
      GainAdds(c, from - stored.value.ts, to - from);
    }
  }

  lemma Distributes(a: real, b: real, rate: real)
    ensures (a + b) * rate == a * rate + b * rate
  {
  }

  lemma TakeStores(stored: Option<Stored>, c: Config, now: int, cost: real, forgetting: bool)
    requires OutlastsRefill(c) && Wellformed(stored, c, now) && cost >= 0.0
    ensures var (next, answer) := Take(stored, c, now, cost, forgetting);
      && Wellformed(next, c, now)
      && Level(next, c, now, false) == Level(stored, c, now, forgetting) - (if answer.allowed then cost else 0.0)
  {
    LevelInRange(stored, c, now, forgetting);
    assert Gain(c, 0) == 0.0;
  }

  /** One request and the time before it, in terms of levels and gains only. */
  lemma Passing(stored: Option<Stored>, c: Config, from: int, r: Request, to: int)
    requires OutlastsRefill(c) && Wellformed(stored, c, from) && from <= r.now <= to && r.cost >= 0.0
    ensures var (next, answer) := Take(stored, c, r.now, r.cost, true);
      && Wellformed(next, c, r.now)
      && (if answer.allowed then r.cost else 0.0) + Level(next, c, r.now, false) + Gain(c, to - r.now)
         <= Level(stored, c, from, false) + Gain(c, to - from)
  {
    ExpiredIsFull(stored, c, r.now);
    LevelRises(stored, c, from, r.now);
    TakeStores(stored, c, r.now, r.cost, true);
    GainAdds(c, r.now - from, to - r.now);
  }

  // --- runs ------------------------------------------------------------------------------------------

  datatype Request = Request(now: int, cost: real)

  predicate Ordered(requests: seq<Request>, from: int, to: int) {
    if requests == [] then from <= to
    else from <= requests[0].now && requests[0].cost >= 0.0 && Ordered(requests[1..], requests[0].now, to)
  }

  function After(stored: Option<Stored>, c: Config, requests: seq<Request>): Option<Stored>
    decreases |requests|
  {
    if requests == [] then stored
    else After(Take(stored, c, requests[0].now, requests[0].cost, true).0, c, requests[1..])
  }

  function Answers(stored: Option<Stored>, c: Config, requests: seq<Request>, forgetting: bool): seq<Answer>
    decreases |requests|
  {
    if requests == [] then []
    else
      var (next, answer) := Take(stored, c, requests[0].now, requests[0].cost, forgetting);
      [answer] + Answers(next, c, requests[1..], forgetting)
  }

  /** Any requests through the key: the theorems about runs are about this object. */
  method AskAll(key: BucketKey, c: Config, requests: seq<Request>) returns (answers: seq<Answer>)
    modifies key
    ensures answers == Answers(old(key.stored), c, requests, true) && key.stored == After(old(key.stored), c, requests)
  {
    answers := [];
    ghost var all := Answers(key.stored, c, requests, true);
    assert requests[0..] == requests;
    for i := 0 to |requests|
      invariant answers + Answers(key.stored, c, requests[i..], true) == all
      invariant After(key.stored, c, requests[i..]) == After(old(key.stored), c, requests)
    {
      assert requests[i..][1..] == requests[i + 1..];
      ghost var step := Take(key.stored, c, requests[i].now, requests[i].cost, true);
      ghost var later := Answers(step.0, c, requests[i + 1..], true);
      var answer := key.TokenBucket(c.capacity, c.refill, requests[i].now, requests[i].cost, c.ttl);
      assert answers + ([answer] + later) == answers + [answer] + later;
      answers := answers + [answer];
    }
    assert requests[|requests|..] == [];
  }

  /** The cost let through. */
  function Admitted(stored: Option<Stored>, c: Config, requests: seq<Request>): real
    decreases |requests|
  {
    if requests == [] then 0.0
    else
      var (next, answer) := Take(stored, c, requests[0].now, requests[0].cost, true);
      (if answer.allowed then requests[0].cost else 0.0) + Admitted(next, c, requests[1..])
  }

  lemma {:induction false} AdmittedBounded(stored: Option<Stored>, c: Config, requests: seq<Request>, from: int, to: int)
    requires OutlastsRefill(c) && Wellformed(stored, c, from) && Ordered(requests, from, to)
    ensures from <= to
    ensures Admitted(stored, c, requests) <= Level(stored, c, from, false) + Gain(c, to - from)
    decreases |requests|
  {
    if requests == [] {
      LevelInRange(stored, c, from, false);
      GainAdds(c, to - from, 0);
    } else {
      var r := requests[0];
      var next := Take(stored, c, r.now, r.cost, true).0;
      OrderedEnds(requests[1..], r.now, to);
      Passing(stored, c, from, r, to);
      AdmittedBounded(next, c, requests[1..], r.now, to);
    }
  }

  lemma {:induction false} OrderedEnds(requests: seq<Request>, from: int, to: int)
    requires Ordered(requests, from, to)
    ensures from <= to
    decreases |requests|
  {
    if requests != [] {
      OrderedEnds(requests[1..], requests[0].now, to);
    }
  }

  lemma {:induction false} AfterIsWellformed(stored: Option<Stored>, c: Config, requests: seq<Request>, start: int, end: int)
    requires OutlastsRefill(c) && Wellformed(stored, c, start) && Ordered(requests, start, end)
    ensures start <= end && Wellformed(After(stored, c, requests), c, end)
    decreases |requests|
  {
    if requests != [] {
      TakeStores(stored, c, requests[0].now, requests[0].cost, true);
      AfterIsWellformed(Take(stored, c, requests[0].now, requests[0].cost, true).0, c, requests[1..], requests[0].now, end);
    }
  }

  /** The refill of a per-minute limit: a sixtieth of it each second. */
  lemma LimitGains(limitPerMinute: real, ms: int)
    requires limitPerMinute > 0.0 && ms >= 0
    ensures ForLimit(limitPerMinute).capacity == limitPerMinute
    ensures Gain(ForLimit(limitPerMinute), ms) == ms as real / 1000.0 * (limitPerMinute / 60.0)
  {
  }

  /**
   * Whatever came before, the cost a per-minute bucket lets through between two moments is at most
   * its capacity plus what refills between them.
   */
  lemma IntervalBound(limitPerMinute: real, before: seq<Request>, within: seq<Request>, start: int, from: int, to: int)
    requires limitPerMinute > 0.0
    requires Ordered(before, start, from) && Ordered(within, from, to)
    ensures var c := ForLimit(limitPerMinute);
      Admitted(After(None, c, before), c, within) <= limitPerMinute + Gain(c, to - from)
  {
    var c := ForLimit(limitPerMinute);
    LimitOutlastsRefill(limitPerMinute);
    AfterIsWellformed(None, c, before, start, from);
    var stored := After(None, c, before);
    AdmittedBounded(stored, c, within, from, to);
    LevelInRange(stored, c, from, false);
  }

  /** Losing the key at its expiry never changes an answer. */
  lemma {:induction false} ExpiryIsUnobservable(stored: Option<Stored>, c: Config, requests: seq<Request>, from: int, to: int)
    requires OutlastsRefill(c) && Wellformed(stored, c, from) && Ordered(requests, from, to)
    ensures Answers(stored, c, requests, true) == Answers(stored, c, requests, false)
    decreases |requests|
  {
    if requests != [] {
      var r := requests[0];
      ExpiredIsFull(stored, c, r.now);
      TakeStores(stored, c, r.now, r.cost, true);
      ExpiryIsUnobservable(Take(stored, c, r.now, r.cost, true).0, c, requests[1..], r.now, to);
    }
  }

  lemma CeilReached(x: real, n: int)
    ensures n >= Ceil(x) <==> n as real >= x
  {
  }

  lemma Scales(a: real, b: real, rate: real)
    requires rate > 0.0
    ensures a >= b <==> a * rate >= b * rate
  {
    if a >= b {
      Grows(rate, b, a);
    } else {
      assert (b - a) * rate > 0.0;
      Distributes(b - a, a, rate);
    }
  }

  lemma DividesBack(gap: real, rate: real) returns (need: real)
    requires rate > 0.0
    ensures need == gap / rate && need * rate == gap
  {
    need := gap / rate;
  }

  /** The delay is the first whole millisecond at which the gap is refilled. */
  lemma RetryRefills(gap: real, c: Config, ms: int)
    requires c.refill > 0.0 && gap > 0.0 && ms >= 0
    ensures Gain(c, ms) >= gap <==> ms >= RetryMs(gap, c)
  {
    var need := DividesBack(gap, c.refill);
    CeilReached(need * 1000.0, ms);
    Scales(Seconds(ms), need, c.refill);
  }

  /** A refused request leaves the level to rise undisturbed. */
  lemma RefusedLevel(stored: Option<Stored>, c: Config, now: int, cost: real, later: int)
    requires OutlastsRefill(c) && Wellformed(stored, c, now) && cost >= 0.0 && now <= later
    requires !Take(stored, c, now, cost, true).1.allowed
    ensures var level := Level(stored, c, now, true);
      && 0.0 <= level < cost
      && Level(Take(stored, c, now, cost, true).0, c, later, true) == Min(c.capacity, level + Gain(c, later - now))
  {
    var next := Take(stored, c, now, cost, true).0;
    TakeStores(stored, c, now, cost, true);
    LevelInRange(stored, c, now, true);
    ExpiredIsFull(next, c, later);
  }

  /**
   * A refused request that comes back with nothing in between is let through exactly from the
   * returned delay on; one that costs more than the capacity never is.
   */
  lemma RetryIsExact(stored: Option<Stored>, c: Config, now: int, cost: real, later: int)
    requires OutlastsRefill(c) && Wellformed(stored, c, now) && cost >= 0.0 && now <= later
    requires !Take(stored, c, now, cost, true).1.allowed
    ensures var (next, refusal) := Take(stored, c, now, cost, true);
      Take(next, c, later, cost, true).1.allowed <==> cost <= c.capacity && later >= now + refusal.retry
  {
    RefusedLevel(stored, c, now, cost, later);
    RetryRefills(cost - Level(stored, c, now, true), c, later - now);
  }

  // --- exactly the conforming traffic -----------------------------------------------------

  function Least(a: real, b: real): real {
    if a <= b then a else b
  }

  lemma GainInSeconds(c: Config, ms: int)
    requires ms >= 0
    ensures Gain(c, ms) == ms as real / 1000.0 * c.refill
  {
  }

  lemma LevelInNumbers(stored: Option<Stored>, c: Config, now: int)
    requires stored.Some? ==> stored.value.ts <= now
    ensures Level(stored, c, now, true) ==
      if stored.None? || stored.value.expiresAt <= now then c.capacity
      else Least(c.capacity, stored.value.tokens + (now - stored.value.ts) as real / 1000.0 * c.refill)
  {
    NoGain(c);
    if stored.Some? {
      GainInSeconds(c, now - stored.value.ts);
    }
  }

  /** One call in numbers: what is left from before, with its refill, up to the capacity, covers the cost or not. */
  lemma TakeSpelled(stored: Option<Stored>, c: Config, now: int, cost: real)
    requires stored.Some? ==> stored.value.ts <= now
    ensures c.capacity <= 0.0 ==> Take(stored, c, now, cost, true) == (stored, Answer(true, -1, 0))
    ensures c.capacity > 0.0 ==>
      var level := if stored.None? || stored.value.expiresAt <= now then c.capacity
                   else Least(c.capacity, stored.value.tokens + (now - stored.value.ts) as real / 1000.0 * c.refill);
      var left := if cost <= level then level - cost else level;
      var (next, answer) := Take(stored, c, now, cost, true);
      && next == Some(Stored(left, now, now + c.ttl * 1000))
      && (answer.allowed <==> cost <= level)
      && answer.remaining as real <= left < answer.remaining as real + 1.0
      && (answer.allowed ==> answer.retry == 0)
      && (!answer.allowed && c.refill <= 0.0 ==> answer.retry == c.ttl * 1000)
  {
    LevelInNumbers(stored, c, now);
  }

  /** A credit that grows with time and pays every cost, never going short. */
  predicate Pays(c: Config, credit: real, from: int, requests: seq<Request>)
    decreases |requests|
  {
    requests != [] ==>
      var now := credit + Gain(c, requests[0].now - from);
      requests[0].cost <= now && Pays(c, now - requests[0].cost, requests[0].now, requests[1..])
  }

  /** From each request on, the costs stay within the capacity and the refill since then. */
  predicate Conforms(c: Config, requests: seq<Request>)
    decreases |requests|
  {
    requests != [] ==> Pays(c, c.capacity, requests[0].now, requests) && Conforms(c, requests[1..])
  }

  predicate AllAllowed(stored: Option<Stored>, c: Config, requests: seq<Request>)
    decreases |requests|
  {
    requests != [] ==>
      var (next, answer) := Take(stored, c, requests[0].now, requests[0].cost, true);
      answer.allowed && AllAllowed(next, c, requests[1..])
  }

  lemma {:induction false} MoreCreditPays(c: Config, less: real, more: real, from: int, requests: seq<Request>)
    requires less <= more && Pays(c, less, from, requests)
    ensures Pays(c, more, from, requests)
    decreases |requests|
  {
    if requests != [] {
      var gain := Gain(c, requests[0].now - from);
      MoreCreditPays(c, less + gain - requests[0].cost, more + gain - requests[0].cost, requests[0].now, requests[1..]);
    }
  }

  /** Time raises the level by its refill, up to the capacity. */
  lemma LevelLater(stored: Option<Stored>, c: Config, from: int, now: int)
    requires OutlastsRefill(c) && Wellformed(stored, c, from) && from <= now
    ensures Level(stored, c, now, true) == Least(c.capacity, Level(stored, c, from, false) + Gain(c, now - from))
  {
    ExpiredIsFull(stored, c, now);
    GainAdds(c, now - from, 0);
    NoGain(c);
    if stored.Some? {
      GainAdds(c, from - stored.value.ts, now - from);
    }
  }

  lemma PaysOne(c: Config, credit: real, now: int, requests: seq<Request>)
    requires requests != [] && requests[0].now == now && Pays(c, credit, now, requests)
    ensures requests[0].cost <= credit && Pays(c, credit - requests[0].cost, now, requests[1..])
  {
    NoGain(c);
  }

  /** What the rest of a run needs, when its first request found the level at `level`. */
  lemma StillPays(c: Config, before: real, level: real, from: int, requests: seq<Request>)
    requires requests != [] && level == Least(c.capacity, before + Gain(c, requests[0].now - from))
    requires Pays(c, before, from, requests) && Pays(c, c.capacity, requests[0].now, requests)
    ensures requests[0].cost <= level && Pays(c, level - requests[0].cost, requests[0].now, requests[1..])
  {
    PaysOne(c, c.capacity, requests[0].now, requests);
  }

  lemma {:induction false} ConformingIsAdmitted(stored: Option<Stored>, c: Config, requests: seq<Request>, from: int, to: int)
    requires OutlastsRefill(c) && Wellformed(stored, c, from) && Ordered(requests, from, to)
    requires Pays(c, Level(stored, c, from, false), from, requests) && Conforms(c, requests)
    ensures AllAllowed(stored, c, requests)
    decreases |requests|
  {
    if requests != [] {
      var r := requests[0];
      LevelLater(stored, c, from, r.now);
      StillPays(c, Level(stored, c, from, false), Level(stored, c, r.now, true), from, requests);
      TakeStores(stored, c, r.now, r.cost, true);
      ConformingIsAdmitted(Take(stored, c, r.now, r.cost, true).0, c, requests[1..], r.now, to);
    }
  }

  /** What the rest of a run shows of its whole, when its first request found the level at `level`. */
  lemma PaidBefore(c: Config, before: real, level: real, from: int, requests: seq<Request>)
    requires requests != [] && level == Least(c.capacity, before + Gain(c, requests[0].now - from))
    requires requests[0].cost <= level && Pays(c, level - requests[0].cost, requests[0].now, requests[1..])
    ensures Pays(c, before, from, requests) && Pays(c, c.capacity, requests[0].now, requests)
  {
    var r := requests[0];
    MoreCreditPays(c, level - r.cost, before + Gain(c, r.now - from) - r.cost, r.now, requests[1..]);
    MoreCreditPays(c, level - r.cost, c.capacity - r.cost, r.now, requests[1..]);
    NoGain(c);
  }

  lemma {:induction false} AdmittedConforms(stored: Option<Stored>, c: Config, requests: seq<Request>, from: int, to: int)
    requires OutlastsRefill(c) && Wellformed(stored, c, from) && Ordered(requests, from, to)
    requires AllAllowed(stored, c, requests)
    ensures Pays(c, Level(stored, c, from, false), from, requests) && Conforms(c, requests)
    decreases |requests|
  {
    if requests != [] {
      var r := requests[0];
      LevelLater(stored, c, from, r.now);
      TakeStores(stored, c, r.now, r.cost, true);
      AdmittedConforms(Take(stored, c, r.now, r.cost, true).0, c, requests[1..], r.now, to);
      PaidBefore(c, Level(stored, c, from, false), Level(stored, c, r.now, true), from, requests);
    }
  }

  /** A full bucket lets every request of a run through exactly when the run conforms to its capacity and refill. */
  lemma AdmitsExactlyConforming(limitPerMinute: real, requests: seq<Request>, from: int, to: int)
    requires limitPerMinute > 0.0 && Ordered(requests, from, to)
    ensures var c := ForLimit(limitPerMinute);
      && c.capacity == limitPerMinute && c.refill == limitPerMinute / 60.0
      && (AllAllowed(None, c, requests) <==> Conforms(c, requests))
  {
    var c := ForLimit(limitPerMinute);
    LimitOutlastsRefill(limitPerMinute);
    NoGain(c);
    if Conforms(c, requests) {
      if requests != [] {
        GainAdds(c, requests[0].now - from, 0);
        PaysLater(c, c.capacity, from, requests);
      }
      ConformingIsAdmitted(None, c, requests, from, to);
    }
    if AllAllowed(None, c, requests) {
      AdmittedConforms(None, c, requests, from, to);
    }
  }

  lemma PaysLater(c: Config, credit: real, from: int, requests: seq<Request>)
    requires requests != [] && Pays(c, credit, requests[0].now, requests) && Gain(c, requests[0].now - from) >= 0.0
    ensures Pays(c, credit, from, requests)
  {
    var r := requests[0];
    PaysOne(c, credit, r.now, requests);
    MoreCreditPays(c, credit - r.cost, credit + Gain(c, r.now - from) - r.cost, r.now, requests[1..]);
  }
}
