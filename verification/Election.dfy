/**
 * Choosing one channel: descending priority tiers, and a weighted draw within a tier. The random
 * draw is a real parameter.
 */
module Election {
  import opened Options
  import opened Sorting
  import opened Numbers

  datatype Candidate = Candidate(channelId: string, priority: int, weight: real)

  const WEIGHT_FLOOR := 10

  // --- tiers ------------------------------------------------------------------------------

  /** The candidates of one priority, in their order. */
  function WithPriority(candidates: seq<Candidate>, priority: int): seq<Candidate> {
    if candidates == [] then []
    else
      var init, last := candidates[..|candidates| - 1], candidates[|candidates| - 1];
      WithPriority(init, priority) + if last.priority == priority then [last] else []
  }

  lemma {:induction false} WithPriorityHolds(candidates: seq<Candidate>, priority: int)
    ensures forall c :: c in WithPriority(candidates, priority) <==> c in candidates && c.priority == priority
  {
    if candidates != [] {
      WithPriorityHolds(candidates[..|candidates| - 1], priority);
      assert candidates == candidates[..|candidates| - 1] + [candidates[|candidates| - 1]];
    }
  }

  /**
   * `tiers` splits the candidates by priority, highest first: tier `i` is exactly the candidates of
   * priority `priorities[i]` in their order, and no candidate is left out.
   */
  ghost predicate IsTiers(candidates: seq<Candidate>, tiers: seq<seq<Candidate>>, priorities: seq<int>) {
    && |priorities| == |tiers|
    && Decreasing(priorities)
    && (forall i :: 0 <= i < |tiers| ==> tiers[i] == WithPriority(candidates, priorities[i]) && tiers[i] != [])
    && (forall c :: c in candidates ==> c.priority in priorities)
  }

  /** The map from priority to tier after a prefix of the candidates. */
  ghost predicate Grouped(candidates: seq<Candidate>, byPriority: map<int, seq<Candidate>>) {
    && (forall c :: c in candidates ==> c.priority in byPriority)
    && (forall p :: p in byPriority ==> byPriority[p] == WithPriority(candidates, p) && byPriority[p] != [])
  }

  lemma {:induction false} NoneWithPriority(candidates: seq<Candidate>, priority: int)
    requires forall c :: c in candidates ==> c.priority != priority
    ensures WithPriority(candidates, priority) == []
  {
    if candidates != [] {
      NoneWithPriority(candidates[..|candidates| - 1], priority);
    }
  }

  lemma GroupNext(candidates: seq<Candidate>, c: Candidate, byPriority: map<int, seq<Candidate>>, next: map<int, seq<Candidate>>)
    requires Grouped(candidates, byPriority)
    requires next == byPriority[c.priority := (if c.priority in byPriority then byPriority[c.priority] else []) + [c]]
    ensures Grouped(candidates + [c], next)
  {
    assert (candidates + [c])[..|candidates|] == candidates;
    if c.priority !in byPriority {
      NoneWithPriority(candidates, c.priority);
    }
  }

  /** The priorities that occur, in order of appearance. */
  function Priorities(candidates: seq<Candidate>): seq<int> {
    if candidates == [] then []
    else
      var seen, p := Priorities(candidates[..|candidates| - 1]), candidates[|candidates| - 1].priority;
      if p in seen then seen else seen + [p]
  }

  lemma {:induction false} PrioritiesOccur(candidates: seq<Candidate>)
    ensures NoRepeats(Priorities(candidates))
    ensures forall c :: c in candidates ==> c.priority in Priorities(candidates)
    ensures forall p :: p in Priorities(candidates) ==> WithPriority(candidates, p) != []
  {
    if candidates != [] {
      var init, last := candidates[..|candidates| - 1], candidates[|candidates| - 1];
      PrioritiesOccur(init);
      assert candidates == init + [last];
      var seen := Priorities(init);
      assert (seen + [last.priority])[..|seen|] == seen;
    }
  }

  /** The tier of each priority, highest first. */
  function Tiers(candidates: seq<Candidate>): seq<seq<Candidate>> {
    TiersFor(candidates, SortDown(Priorities(candidates)))
  }

  function TiersFor(candidates: seq<Candidate>, priorities: seq<int>): (tiers: seq<seq<Candidate>>)
    ensures |tiers| == |priorities| && forall i :: 0 <= i < |tiers| ==> tiers[i] == WithPriority(candidates, priorities[i])
  {
    seq(|priorities|, i requires 0 <= i < |priorities| => WithPriority(candidates, priorities[i]))
  }

  /** The tiers are an order-preserving partition into strictly decreasing priorities. */
  lemma TiersPartition(candidates: seq<Candidate>)
    ensures IsTiers(candidates, Tiers(candidates), SortDown(Priorities(candidates)))
  {
    PrioritiesOccur(candidates);
    var sorted := SortDown(Priorities(candidates));
    forall i | 0 <= i < |sorted|
      ensures WithPriority(candidates, sorted[i]) != []
    {
      var p := sorted[i];
      assert p in sorted;
      assert p in Priorities(candidates);
    }
  }

  ghost predicate GroupedBy(candidates: seq<Candidate>, byPriority: map<int, seq<Candidate>>, keys: seq<int>) {
    && Grouped(candidates, byPriority)
    && keys == Priorities(candidates) && forall p :: p in keys <==> p in byPriority
  }

  lemma GroupStep(candidates: seq<Candidate>, c: Candidate, byPriority: map<int, seq<Candidate>>, keys: seq<int>)
    requires GroupedBy(candidates, byPriority, keys)
    ensures var members := if c.priority in byPriority then byPriority[c.priority] else [];
      GroupedBy(candidates + [c], byPriority[c.priority := members + [c]], if c.priority in byPriority then keys else keys + [c.priority])
  {
    var members := if c.priority in byPriority then byPriority[c.priority] else [];
    GroupNext(candidates, c, byPriority, byPriority[c.priority := members + [c]]);
    assert (candidates + [c])[..|candidates|] == candidates;
  }

  /** Fills the map, and remembers its keys as they come. */
  method GroupByPriority(candidates: seq<Candidate>) returns (byPriority: map<int, seq<Candidate>>, keys: seq<int>)
    ensures GroupedBy(candidates, byPriority, keys)
  {
    byPriority, keys := map[], [];
    for i := 0 to |candidates|
      invariant GroupedBy(candidates[..i], byPriority, keys)
    {
      var c := candidates[i];
      GroupStep(candidates[..i], c, byPriority, keys);
      assert candidates[..i + 1] == candidates[..i] + [c];
      if c.priority in byPriority {
        byPriority := byPriority[c.priority := byPriority[c.priority] + [c]];
      } else {
        assert [] + [c] == [c];
        byPriority := byPriority[c.priority := [c]];
        keys := keys + [c.priority];
      }
    }
    assert candidates[..|candidates|] == candidates;
  }

  lemma SortedTiers(candidates: seq<Candidate>, keys: seq<int>, byPriority: map<int, seq<Candidate>>)
    requires Grouped(candidates, byPriority) && forall p :: p in keys <==> p in byPriority
    ensures forall i :: 0 <= i < |SortDown(keys)| ==> TierAt(candidates, byPriority, SortDown(keys)[i])
  {
    forall i | 0 <= i < |SortDown(keys)|
      ensures TierAt(candidates, byPriority, SortDown(keys)[i])
    {
      var p := SortDown(keys)[i];
      assert p in SortDown(keys);
      assert p in keys;
    }
  }

  predicate TierAt(candidates: seq<Candidate>, byPriority: map<int, seq<Candidate>>, p: int) {
    p in byPriority && byPriority[p] == WithPriority(candidates, p)
  }

  /** Groups by priority, then orders the groups by priority, highest first. */
  method TiersOf(candidates: seq<Candidate>) returns (tiers: seq<seq<Candidate>>)
    ensures tiers == Tiers(candidates)
    ensures IsTiers(candidates, tiers, SortDown(Priorities(candidates)))
  {
    var byPriority, keys := GroupByPriority(candidates);
    SortedTiers(candidates, keys, byPriority);
    tiers := InOrder(candidates, SortDown(keys), byPriority);
    TiersPartition(candidates);
  }

  method InOrder(ghost candidates: seq<Candidate>, priorities: seq<int>, byPriority: map<int, seq<Candidate>>)
    returns (tiers: seq<seq<Candidate>>)
    requires forall i :: 0 <= i < |priorities| ==> TierAt(candidates, byPriority, priorities[i])
    ensures tiers == TiersFor(candidates, priorities)
  {
    tiers := [];
    for i := 0 to |priorities|
      invariant |tiers| == i && forall j :: 0 <= j < i ==> tiers[j] == WithPriority(candidates, priorities[j])
    {
      assert TierAt(candidates, byPriority, priorities[i]);
      tiers := tiers + [byPriority[priorities[i]]];
    }
  }

  // --- the weighted draw -------------------------------------------------------------------

  function Share(c: Candidate): (n: real)
    ensures n >= WEIGHT_FLOOR as real
  {
    (if c.weight > 0.0 then c.weight else 0.0) + WEIGHT_FLOOR as real
  }

  function TotalShare(tier: seq<Candidate>): real {
    if tier == [] then 0.0 else TotalShare(tier[..|tier| - 1]) + Share(tier[|tier| - 1])
  }

  /** Where the walk stops for a cursor; the length of the tier when it runs past the end. */
  function Stop(tier: seq<Candidate>, cursor: real): nat {
    if tier == [] || cursor < Share(tier[0]) then 0
    else 1 + Stop(tier[1..], cursor - Share(tier[0]))
  }

  lemma {:induction false} TotalFromFront(tier: seq<Candidate>)
    requires tier != []
    ensures TotalShare(tier) == Share(tier[0]) + TotalShare(tier[1..])
  {
    var last := |tier| - 1;
    if last > 0 {
      TotalFromFront(tier[..last]);
      assert tier[..last][1..] == tier[1..][..last - 1];
    }
  }

  /** The walk stops at `k` exactly for the cursors in the `k`th stretch of its share's length. */
  lemma {:induction false} StopsInShare(tier: seq<Candidate>, cursor: real, k: nat)
    requires cursor >= 0.0 && k < |tier|
    ensures Stop(tier, cursor) == k <==> TotalShare(tier[..k]) <= cursor < TotalShare(tier[..k + 1])
    decreases k
  {
    TotalFromFront(tier[..k + 1]);
    assert tier[..k + 1][1..] == tier[1..][..k];
    if k > 0 {
      TotalFromFront(tier[..k]);
      assert tier[..k][1..] == tier[1..][..k - 1];
      TotalIsPositive(tier[1..][..k - 1]);
      if cursor >= Share(tier[0]) {
        StopsInShare(tier[1..], cursor - Share(tier[0]), k - 1);
      }
    }
  }

  lemma {:induction false} StopsInside(tier: seq<Candidate>, cursor: real)
    ensures Stop(tier, cursor) <= |tier|
    ensures Stop(tier, cursor) < |tier| <==> tier != [] && cursor < TotalShare(tier)
    decreases |tier|
  {
    if tier != [] {
      TotalFromFront(tier);
      StopsInside(tier[1..], cursor - Share(tier[0]));
    }
  }

  function Scaled(random: real, total: real): real {
    random * total
  }

  lemma BelowTotal(random: real, total: real)
    requires random < 1.0 && total > 0.0
    ensures Scaled(random, total) < total
  {
    assert (1.0 - random) * total > 0.0;
  }

  lemma {:induction false} TotalIsPositive(tier: seq<Candidate>)
    ensures TotalShare(tier) >= 0.0 && (tier != [] ==> TotalShare(tier) > 0.0)
  {
    if tier != [] {
      TotalIsPositive(tier[..|tier| - 1]);
    }
  }

  /** The fallback after the walk is reached by no draw below 1. */
  lemma FallbackUnreachable(tier: seq<Candidate>, random: real)
    requires tier != [] && random < 1.0
    ensures Stop(tier, Scaled(random, TotalShare(tier))) < |tier|
  {
    TotalIsPositive(tier);
    BelowTotal(random, TotalShare(tier));
    StopsInside(tier, Scaled(random, TotalShare(tier)));
  }

  predicate StopsAt(tier: seq<Candidate>, cursor: int, k: nat) {
    Stop(tier, cursor as real) == k
  }

  /** The whole cursors at which candidate `k` is drawn. */
  ghost function Cursors(tier: seq<Candidate>, k: nat): set<int> {
    set c: int | 0 <= c < Ceil(TotalShare(tier)) && StopsAt(tier, c, k)
  }

  lemma {:induction false} PrefixTotals(tier: seq<Candidate>, k: nat)
    requires k <= |tier|
    ensures 0.0 <= TotalShare(tier[..k]) <= TotalShare(tier)
    decreases |tier|
  {
    if k < |tier| {
      PrefixTotals(tier[..|tier| - 1], k);
      assert tier[..|tier| - 1][..k] == tier[..k];
    } else {
      assert tier[..k] == tier;
    }
    TotalIsPositive(tier[..k]);
  }

  lemma CeilBounds(c: int, r: real)
    ensures c as real < r <==> c < Ceil(r)
  {
  }

  /** How many whole numbers a stretch holds: its length, up to one when the length is not whole. */
  lemma WholeInside(lo: real, share: real)
    requires share >= 0.0
    ensures Ceil(lo) <= Ceil(lo + share)
    ensures share - 1.0 < (Ceil(lo + share) - Ceil(lo)) as real < share + 1.0
    ensures share.Floor as real == share ==> Ceil(lo + share) - Ceil(lo) == share.Floor
  {
  }

  /**
   * Every candidate is drawn at as many whole cursors as its share, up to one when the share is not
   * whole, and at ten at least: nobody starves.
   */
  lemma DrawnByShare(tier: seq<Candidate>, k: nat)
    requires k < |tier|
    ensures var share := (if tier[k].weight > 0.0 then tier[k].weight else 0.0) + 10.0;
      && share - 1.0 < |Cursors(tier, k)| as real < share + 1.0
      && (share.Floor as real == share ==> |Cursors(tier, k)| == share.Floor)
    ensures |Cursors(tier, k)| >= 10
  {
    var lo, hi := TotalShare(tier[..k]), TotalShare(tier[..k + 1]);
    assert tier[..k + 1][..k] == tier[..k];
    WholeInside(lo, Share(tier[k]));
    RangeSize(Ceil(lo), Ceil(hi));
    CursorsAreRange(tier, k);
  }

  lemma CursorsAreRange(tier: seq<Candidate>, k: nat)
    requires k < |tier|
    ensures Cursors(tier, k) == Range(Ceil(TotalShare(tier[..k])), Ceil(TotalShare(tier[..k + 1])))
  {
    var lo, hi := TotalShare(tier[..k]), TotalShare(tier[..k + 1]);
    assert tier[..k + 1][..k] == tier[..k];
    PrefixTotals(tier, k);
    PrefixTotals(tier, k + 1);
    WholeInside(lo, Share(tier[k]));
    RangeSize(Ceil(lo), Ceil(hi));
    forall c | c in Cursors(tier, k) || c in Range(Ceil(lo), Ceil(hi))
      ensures c in Cursors(tier, k) && c in Range(Ceil(lo), Ceil(hi))
    {
      CeilBounds(c, lo);
      CeilBounds(c, hi);
      CeilBounds(c, TotalShare(tier));
      StopsInShare(tier, c as real, k);
      assert StopsAt(tier, c, k) <==> lo <= c as real < hi;
    }
  }

  function Drawn(tier: seq<Candidate>, random: real): Option<Candidate> {
    if tier == [] then None
    else if |tier| == 1 then Some(tier[0])
    else
      var k := Stop(tier, Scaled(random, TotalShare(tier)));
      Some(if k < |tier| then tier[k] else tier[|tier| - 1])
  }

  method WeightedPick(tier: seq<Candidate>, random: real) returns (r: Option<Candidate>)
    ensures r == Drawn(tier, random)
  {
    if |tier| == 0 {
      return None;
    }
    if |tier| == 1 {
      return Some(tier[0]);
    }
    var total := 0.0;
    for i := 0 to |tier|
      invariant total == TotalShare(tier[..i])
    {
      assert tier[..i + 1][..i] == tier[..i];
      total := total + Share(tier[i]);
    }
    assert tier[..|tier|] == tier;
    var k := Walk(tier, Scaled(random, total));
    r := Some(if k < |tier| then tier[k] else tier[|tier| - 1]);
  }

  method Walk(tier: seq<Candidate>, start: real) returns (k: nat)
    ensures k == Stop(tier, start)
  {
    var cursor := start;
    assert tier[0..] == tier;
    for i := 0 to |tier|
      invariant Stop(tier, start) == i + Stop(tier[i..], cursor)
    {
      assert tier[i..][1..] == tier[i + 1..];
      cursor := cursor - Share(tier[i]) as real;
      if cursor < 0.0 {
        return i;
      }
    }
    assert tier[|tier|..] == [];
    k := |tier|;
  }

  // --- the election ----------------------------------------------------------------------------

  predicate Pinned(tier: seq<Candidate>, affinity: Option<string>, c: Candidate) {
    affinity.Some? && affinity.value != "" && c in tier && c.channelId == affinity.value
  }

  ghost predicate CanPin(tier: seq<Candidate>, affinity: Option<string>) {
    exists c :: Pinned(tier, affinity, c)
  }

  /** The tier of the attempt, counted from the first, and the last tier from there on. */
  function TierIndex(attempt: int, tiers: nat): (k: int)
    ensures tiers > 0 ==> 0 <= k < tiers && (k < attempt ==> k == tiers - 1) && (k > attempt ==> k == 0)
  {
    var at := if attempt > 0 then attempt else 0;
    if at < tiers then at else tiers - 1
  }

  function FirstPinned(tier: seq<Candidate>, id: string): Option<Candidate> {
    if tier == [] then None
    else if tier[0].channelId == id then Some(tier[0])
    else FirstPinned(tier[1..], id)
  }

  lemma {:induction false} FirstPinnedHolds(tier: seq<Candidate>, id: string)
    ensures var r := FirstPinned(tier, id);
      if r.Some? then r.value in tier && r.value.channelId == id else forall c :: c in tier ==> c.channelId != id
  {
    if tier != [] {
      FirstPinnedHolds(tier[1..], id);
    }
  }

  function ElectedIn(tier: seq<Candidate>, first: bool, affinity: Option<string>, random: real): Option<Candidate> {
    var pinned := if first && affinity.Some? && affinity.value != "" then FirstPinned(tier, affinity.value) else None;
    if pinned.Some? then pinned else Drawn(tier, random)
  }

  /** The candidate an election gives. */
  function Elected(candidates: seq<Candidate>, attempt: int, affinity: Option<string>, random: real): Option<Candidate> {
    var tiers := Tiers(candidates);
    if tiers == [] then None
    else ElectedIn(tiers[TierIndex(attempt, |tiers|)], attempt <= 0, affinity, random)
  }

  lemma DrawnInside(tier: seq<Candidate>, random: real)
    requires tier != []
    ensures Drawn(tier, random).Some? && Drawn(tier, random).value in tier
  {
  }

  /**
   * An election draws from the tier of the attempt, or from the last; the preferred channel wins on
   * the first attempt exactly when it is in the top tier.
   */
  lemma ElectedHolds(candidates: seq<Candidate>, attempt: int, affinity: Option<string>, random: real)
    ensures var r := Elected(candidates, attempt, affinity, random);
      && (r.None? <==> candidates == [])
      && (r.Some? ==>
            && r.value in candidates
            && 0 <= TierIndex(attempt, |Tiers(candidates)|) < |Tiers(candidates)|
            && var tier := Tiers(candidates)[TierIndex(attempt, |Tiers(candidates)|)];
               if attempt <= 0 && CanPin(tier, affinity) then Pinned(tier, affinity, r.value) else r == Drawn(tier, random))
  {
    TiersPartition(candidates);
    var tiers, priorities := Tiers(candidates), SortDown(Priorities(candidates));
    if candidates != [] {
      assert candidates[0] in candidates;
      assert candidates[0].priority in priorities;
      var k := TierIndex(attempt, |tiers|);
      WithPriorityHolds(candidates, priorities[k]);
      DrawnInside(tiers[k], random);
      if affinity.Some? && affinity.value != "" {
        FirstPinnedHolds(tiers[k], affinity.value);
        assert FirstPinned(tiers[k], affinity.value).Some? ==> Pinned(tiers[k], affinity, FirstPinned(tiers[k], affinity.value).value);
      }
    }
  }

  method ElectFrom(candidates: seq<Candidate>, attempt: int, affinity: Option<string>, random: real) returns (r: Option<Candidate>)
    ensures r == Elected(candidates, attempt, affinity, random)
    ensures r.None? <==> candidates == []
    ensures r.Some? ==> r.value in candidates
  {
    ElectedHolds(candidates, attempt, affinity, random);
    if |candidates| == 0 {
      return None;
    }
    var tiers := TiersOf(candidates);
    var tier := tiers[TierIndex(attempt, |tiers|)];
    if attempt <= 0 && affinity.Some? && affinity.value != "" {
      assert tier[0..] == tier;
      for i := 0 to |tier|
        invariant FirstPinned(tier, affinity.value) == FirstPinned(tier[i..], affinity.value)
      {
        assert tier[i..][1..] == tier[i + 1..];
        if tier[i].channelId == affinity.value {
          return Some(tier[i]);
        }
      }
    }
    r := WeightedPick(tier, random);
  }

  /** A draw in numbers: the candidate in whose stretch of the summed shares the random part of the total falls. */
  lemma DrawnExactly(tier: seq<Candidate>, random: real, cursor: real, k: nat)
    requires k < |tier| && |tier| >= 2 && cursor == Scaled(random, TotalShare(tier)) && cursor >= 0.0
    requires TotalShare(tier[..k]) <= cursor < TotalShare(tier[..k + 1])
    ensures Drawn(tier, random) == Some(tier[k])
  {
    StopsInShare(tier, cursor, k);
    DrawnWhereItStops(tier, random, cursor, k);
  }

  lemma DrawnWhereItStops(tier: seq<Candidate>, random: real, cursor: real, k: nat)
    requires k < |tier| && |tier| >= 2 && cursor == Scaled(random, TotalShare(tier)) && Stop(tier, cursor) == k
    ensures Drawn(tier, random) == Some(tier[k])
  {
  }

  /** The cursor is the random part of the total. */
  lemma ScaledSpelled(random: real, total: real)
    ensures Scaled(random, total) == random * total
  {
  }

  /** The summed shares are, for each candidate, its weight, not below zero, and ten. */
  lemma SharesSpelled(tier: seq<Candidate>, k: nat)
    requires k < |tier|
    ensures TotalShare([]) == 0.0
    ensures TotalShare(tier[..k + 1]) == TotalShare(tier[..k]) + (if tier[k].weight > 0.0 then tier[k].weight else 0.0) + 10.0
  {
    assert tier[..k + 1][..k] == tier[..k];
  }
}
