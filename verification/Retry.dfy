/**
 * Selecting a channel and retrying over channels. Everything outside the loop is the `World`: what
 * each read, key lookup, upstream call, clock check and random draw answers, per attempt.
 */
module Retry {
  import opened Options
  import opened Election

  datatype ChannelDoc = ChannelDoc(enabled: bool, groups: seq<string>, models: seq<string>)

  predicate Serves(channel: ChannelDoc, group: string, model: string) {
    && channel.enabled
    && (group in channel.groups || "*" in channel.groups)
    && (channel.models == [] || model in channel.models || "*" in channel.models)
  }

  datatype Error = Error(code: string, status: int, upstreamStatus: Option<int>, retryable: bool)

  datatype KeyAnswer = Key(fingerprint: string) | NoKey(error: Error)

  datatype CallAnswer = Value(value: string) | Failed(error: Error)

  /** A fresh read of a channel: its document, none, or a fault of the database. */
  datatype ReadAnswer = Found(channel: ChannelDoc) | Absent | Faulted(error: Error)

  /** Answers to the `i`th attempt; `read` answers the `j`th verification read of a channel. */
  datatype World = World(
    aborted: nat -> bool,
    expiredBefore: nat -> bool,
    rows: nat -> seq<Candidate>,
    open: nat -> set<string>,
    affinity: nat -> Option<string>,
    random: (nat, nat) -> real,
    read: (nat, nat, string) -> ReadAnswer,
    key: nat -> KeyAnswer,
    call: nat -> CallAnswer,
    expiredAfter: nat -> bool,
    sleepAborted: nat -> bool)

  datatype Request = Request(group: string, model: string, maxAttempts: int)

  const ABORTED := Error("UPSTREAM_TIMEOUT", 499, None, false)
  const NO_CHANNEL := Error("NO_CHANNEL_AVAILABLE", 503, None, false)

  // --- which failures another channel may cure ------------------------------------------------

  function IsRetryableStatus(status: int): bool {
    if 200 <= status < 300 then false
    else if status == 400 || status == 408 || status == 504 || status == 524 then false
    else if 100 <= status < 200 then true
    else if 300 <= status < 400 then true
    else if 401 <= status <= 407 then true
    else if 409 <= status < 500 then true
    else if 500 <= status <= 503 then true
    else if 505 <= status <= 523 then true
    else if 525 <= status <= 599 then true
    else false
  }

  /** Every status of three digits up to 599 but success and four named ones. */
  lemma RetryableStatuses(status: int)
    ensures IsRetryableStatus(status)
       <==> 100 <= status <= 599 && !(200 <= status < 300) && status !in {400, 408, 504, 524}
  {
  }

  function ShouldRetryError(e: Error): bool {
    if e.code == "MALFORMED_UPSTREAM_BODY" then false
    else if e.status == 499 then false
    else if e.upstreamStatus.Some? then IsRetryableStatus(e.upstreamStatus.value)
    else e.retryable
  }

  // --- selection ------------------------------------------------------------------------------

  /** Read `j` of the attempt asked for the channel, and the answer serves the request. */
  predicate PassedRead(world: World, i: nat, j: nat, request: Request, id: string) {
    world.read(i, j, id).Found? && Serves(world.read(i, j, id).channel, request.group, request.model)
  }

  /** A selection ends with a channel, with none, or in a fault of its reads. */
  datatype Selected = Chosen(id: string) | Nothing | Broken(error: Error)

  ghost predicate Listed(candidates: seq<Candidate>, id: string) {
    exists c :: c in candidates && c.channelId == id
  }

  function WithoutChannel(pool: seq<Candidate>, id: string): seq<Candidate> {
    if pool == [] then []
    else (if pool[0].channelId == id then [] else [pool[0]]) + WithoutChannel(pool[1..], id)
  }

  lemma {:induction false} WithoutChannelHolds(pool: seq<Candidate>, id: string)
    ensures forall c :: c in WithoutChannel(pool, id) <==> c in pool && c.channelId != id
  {
    if pool != [] {
      WithoutChannelHolds(pool[1..], id);
    }
  }

  const MAX_READS := 8

  /** Electing until a fresh read confirms the channel: the channel, and those dropped before it. */
  function Search(world: World, i: nat, request: Request, pool: seq<Candidate>, dropped: seq<string>): (Selected, seq<string>)
    decreases MAX_READS - |dropped|
  {
    var elected := Elected(pool, i, world.affinity(i), world.random(i, |dropped|));
    if |dropped| >= MAX_READS || elected.None? then (Nothing, dropped)
    else
      var id := elected.value.channelId;
      if world.read(i, |dropped|, id).Faulted? then (Broken(world.read(i, |dropped|, id).error), dropped)
      else if PassedRead(world, i, |dropped|, request, id) then (Chosen(id), dropped)
      else Search(world, i, request, WithoutChannel(pool, id), dropped + [id])
  }

  /** Read `j` asked for candidate `dropped[j]`, each once, was answered, and none of them passed. */
  ghost predicate AllRefused(world: World, i: nat, request: Request, candidates: seq<Candidate>, dropped: seq<string>) {
    forall j :: 0 <= j < |dropped| ==> RefusedAt(world, i, request, candidates, dropped, j)
  }

  ghost predicate RefusedAt(world: World, i: nat, request: Request, candidates: seq<Candidate>, dropped: seq<string>, j: nat)
    requires j < |dropped|
  {
    && dropped[j] !in dropped[..j] && Listed(candidates, dropped[j])
    && !world.read(i, j, dropped[j]).Faulted? && !PassedRead(world, i, j, request, dropped[j])
  }

  /** Read `j` of the attempt, of one of the candidates, ended in the fault. */
  ghost predicate FaultedAt(world: World, i: nat, j: nat, candidates: seq<Candidate>, error: Error) {
    exists c :: c in candidates && world.read(i, j, c.channelId) == Faulted(error)
  }

  ghost predicate LeftOver(candidates: seq<Candidate>, pool: seq<Candidate>, dropped: seq<string>) {
    forall c :: c in pool <==> c in candidates && c.channelId !in dropped
  }

  /**
   * A search confirms a candidate by a fresh read, or every candidate was read and refused, or
   * eight of them were, or a read ended in a fault.
   */
  ghost predicate SearchOk(world: World, i: nat, request: Request, candidates: seq<Candidate>, r: Selected, dropped: seq<string>) {
    && |dropped| <= MAX_READS && AllRefused(world, i, request, candidates, dropped)
    && match r
       case Chosen(id) => |dropped| < 8 && Listed(candidates, id) && id !in dropped && PassedRead(world, i, |dropped|, request, id)
       case Nothing => |dropped| == 8 || forall c :: c in candidates ==> c.channelId in dropped
       case Broken(e) => |dropped| < 8 && FaultedAt(world, i, |dropped|, candidates, e)
  }

  lemma DropOne(world: World, i: nat, request: Request, candidates: seq<Candidate>, pool: seq<Candidate>, dropped: seq<string>, c: Candidate)
    requires LeftOver(candidates, pool, dropped) && AllRefused(world, i, request, candidates, dropped)
    requires c in pool && !world.read(i, |dropped|, c.channelId).Faulted? && !PassedRead(world, i, |dropped|, request, c.channelId)
    ensures LeftOver(candidates, WithoutChannel(pool, c.channelId), dropped + [c.channelId])
    ensures AllRefused(world, i, request, candidates, dropped + [c.channelId])
  {
    WithoutChannelHolds(pool, c.channelId);
    var more := dropped + [c.channelId];
    forall j | 0 <= j < |more|
      ensures RefusedAt(world, i, request, candidates, more, j)
    {
      if j < |dropped| {
        assert RefusedAt(world, i, request, candidates, dropped, j);
        assert more[..j] == dropped[..j];
      } else {
        assert more[..j] == dropped;
      }
    }
  }

  lemma {:induction false} SearchHolds(world: World, i: nat, request: Request, candidates: seq<Candidate>, pool: seq<Candidate>, dropped: seq<string>)
    requires |dropped| <= MAX_READS && LeftOver(candidates, pool, dropped) && AllRefused(world, i, request, candidates, dropped)
    ensures var (r, all) := Search(world, i, request, pool, dropped); SearchOk(world, i, request, candidates, r, all)
    decreases MAX_READS - |dropped|
  {
    var elected := Elected(pool, i, world.affinity(i), world.random(i, |dropped|));
    ElectedHolds(pool, i, world.affinity(i), world.random(i, |dropped|));
    if |dropped| < MAX_READS && elected.Some? {
      var c := elected.value;
      assert c in candidates && c.channelId !in dropped;
      if !world.read(i, |dropped|, c.channelId).Faulted? && !PassedRead(world, i, |dropped|, request, c.channelId) {
        DropOne(world, i, request, candidates, pool, dropped, c);
        SearchHolds(world, i, request, candidates, WithoutChannel(pool, c.channelId), dropped + [c.channelId]);
      }
    }
  }

  /** Elects, reads again and drops, at most eight times. */
  method ElectAndVerify(world: World, i: nat, request: Request, candidates: seq<Candidate>)
    returns (r: Selected, dropped: seq<string>)
    ensures (r, dropped) == Search(world, i, request, candidates, [])
    ensures SearchOk(world, i, request, candidates, r, dropped)
  {
    SearchHolds(world, i, request, candidates, candidates, []);
    var pool := candidates;
    dropped := [];
    while |dropped| < MAX_READS && |pool| > 0
      invariant |dropped| <= MAX_READS
      invariant Search(world, i, request, pool, dropped) == Search(world, i, request, candidates, [])
      decreases MAX_READS - |dropped|
    {
      var elected := ElectFrom(pool, i, world.affinity(i), world.random(i, |dropped|));
      var id := elected.value.channelId;
      if world.read(i, |dropped|, id).Faulted? {
        return Broken(world.read(i, |dropped|, id).error), dropped;
      }
      if PassedRead(world, i, |dropped|, request, id) {
        return Chosen(id), dropped;
      }
      pool := WithoutChannel(pool, id);
      dropped := dropped + [id];
    }
    ElectedHolds(pool, i, world.affinity(i), world.random(i, |dropped|));
    r := Nothing;
  }

  /** The candidates neither tried already nor behind an open breaker. */
  function Keep(rows: seq<Candidate>, tried: seq<string>, open: set<string>): seq<Candidate> {
    if rows == [] then []
    else (if rows[0].channelId in tried || rows[0].channelId in open then [] else [rows[0]]) + Keep(rows[1..], tried, open)
  }

  lemma {:induction false} KeepHolds(rows: seq<Candidate>, tried: seq<string>, open: set<string>)
    ensures forall c :: c in Keep(rows, tried, open) <==> c in rows && c.channelId !in tried && c.channelId !in open
  {
    if rows != [] {
      KeepHolds(rows[1..], tried, open);
    }
  }

  function Healthy(world: World, i: nat, tried: seq<string>): seq<Candidate> {
    Keep(world.rows(i), tried, world.open(i))
  }

  /** What attempt `i` selects after `tried`, and what it read in vain. */
  function Selection(world: World, i: nat, request: Request, tried: seq<string>): (Selected, seq<string>) {
    Search(world, i, request, Healthy(world, i, tried), [])
  }

  /** The channel is listed, untried, behind no open breaker, and confirmed by a read of this attempt. */
  ghost predicate FreshlyServes(world: World, i: nat, request: Request, tried: seq<string>, id: string) {
    && id !in tried && id !in world.open(i) && Listed(world.rows(i), id)
    && exists j: nat :: j < 8 && PassedRead(world, i, j, request, id)
  }

  lemma SelectionHolds(world: World, i: nat, request: Request, tried: seq<string>)
    ensures var (r, dropped) := Selection(world, i, request, tried);
      && SearchOk(world, i, request, Healthy(world, i, tried), r, dropped)
      && (r.Chosen? ==> FreshlyServes(world, i, request, tried, r.id))
  {
    KeepHolds(world.rows(i), tried, world.open(i));
    SearchHolds(world, i, request, Healthy(world, i, tried), Healthy(world, i, tried), []);
  }

  method SelectChannel(world: World, i: nat, request: Request, tried: seq<string>)
    returns (r: Selected, dropped: seq<string>)
    ensures (r, dropped) == Selection(world, i, request, tried)
    ensures r.Chosen? ==> FreshlyServes(world, i, request, tried, r.id)
    ensures SearchOk(world, i, request, Healthy(world, i, tried), r, dropped)
  {
    SelectionHolds(world, i, request, tried);
    r, dropped := ElectAndVerify(world, i, request, Keep(world.rows(i), tried, world.open(i)));
  }

  // --- the retry loop ---------------------------------------------------------------------------

  /** One upstream call that was made. */
  datatype Call = Call(attempt: nat, channelId: string, answer: CallAnswer)

  datatype Reason = ClientAborted | OutOfTime | NothingSelectable | SelectionBroke | NotRetryable | Exhausted

  datatype Outcome =
    | Success(value: string, attempts: nat, channelId: string)
    | Threw(error: Error, reason: Reason)

  function Limit(request: Request): nat {
    if request.maxAttempts > 1 then request.maxAttempts else 1
  }

  /** The failure attempt `i` records when it goes on. */
  function FailureOf(world: World, i: nat): Error {
    match world.key(i)
    case NoKey(e) => e
    case Key(_) => if world.call(i).Failed? then world.call(i).error else ABORTED
  }

  /** The outcome decided before attempt `i` has a channel. */
  function Before(world: World, request: Request, i: nat, tried: seq<string>): Option<Outcome> {
    if i >= Limit(request) then Some(Threw(FailureOf(world, if i > 0 then i - 1 else 0), Exhausted))
    else if world.aborted(i) then Some(Threw(ABORTED, ClientAborted))
    else if i > 0 && world.expiredBefore(i) then Some(Threw(FailureOf(world, i - 1), OutOfTime))
    else
      match Selection(world, i, request, tried).0
      case Chosen(_) => None
      case Nothing => Some(Threw(NO_CHANNEL, NothingSelectable))
      case Broken(e) => Some(Threw(e, SelectionBroke))
  }

  /** The outcome decided once attempt `i` has channel `id`. */
  function During(world: World, request: Request, i: nat, id: string): Option<Outcome> {
    if world.key(i).NoKey? then None
    else
      match world.call(i)
      case Value(value) => Some(Success(value, i + 1, id))
      case Failed(e) =>
        if !ShouldRetryError(e) then Some(Threw(e, NotRetryable))
        else if i + 1 == Limit(request) then Some(Threw(e, Exhausted))
        else if world.expiredAfter(i) then Some(Threw(e, OutOfTime))
        else if world.sleepAborted(i) then Some(Threw(ABORTED, ClientAborted))
        else None
  }

  /** The channel of attempt `r` is what that attempt selects after the channels before it. */
  predicate ChosenAt(world: World, request: Request, chosen: seq<string>, r: nat)
    requires r < |chosen|
  {
    && Before(world, request, r, chosen[..r]).None?
    && Selection(world, r, request, chosen[..r]).0 == Chosen(chosen[r])
    && (r + 1 < |chosen| ==> During(world, request, r, chosen[r]).None?)
  }

  /** `chosen` lists the channels of the attempts so far, and every one but the last went on. */
  ghost predicate Path(world: World, request: Request, chosen: seq<string>) {
    forall r :: 0 <= r < |chosen| ==> ChosenAt(world, request, chosen, r)
  }

  /** The outcome after the chosen channels, when it is decided there. */
  function Decided(world: World, request: Request, chosen: seq<string>): Option<Outcome> {
    var n := |chosen|;
    if n > 0 && During(world, request, n - 1, chosen[n - 1]).Some? then During(world, request, n - 1, chosen[n - 1])
    else Before(world, request, n, chosen)
  }

  /** The upstream calls of the chosen channels: one for each that had a key. */
  function CallsOf(world: World, chosen: seq<string>): seq<Call> {
    if chosen == [] then []
    else
      var i := |chosen| - 1;
      CallsOf(world, chosen[..i]) + if world.key(i).Key? then [Call(i, chosen[i], world.call(i))] else []
  }

  /** The checks before attempt `i`, and its selection. */
  method Prepare(world: World, request: Request, i: nat, tried: seq<string>, lastError: Option<Error>)
    returns (early: Option<Outcome>, channelId: string)
    requires i < Limit(request) && lastError == if i > 0 then Some(FailureOf(world, i - 1)) else None
    ensures early == Before(world, request, i, tried)
    ensures early.None? ==> Selection(world, i, request, tried).0 == Chosen(channelId)
  {
    channelId := "";
    if world.aborted(i) {
      return Some(Threw(ABORTED, ClientAborted)), channelId;
    }
    if world.expiredBefore(i) && lastError.Some? {
      return Some(Threw(lastError.value, OutOfTime)), channelId;
    }
    var selected, _ := SelectChannel(world, i, request, tried);
    match selected
    case Nothing => return Some(Threw(NO_CHANNEL, NothingSelectable)), channelId;
    case Broken(e) => return Some(Threw(e, SelectionBroke)), channelId;
    case Chosen(id) => return None, id;
  }

  /** Attempt `i` on its channel: the outcome it decides, the call it made, the failure it records. */
  method Attempt(world: World, request: Request, i: nat, channelId: string)
    returns (decided: Option<Outcome>, calls: seq<Call>, failure: Error)
    ensures decided == During(world, request, i, channelId)
    ensures calls == if world.key(i).Key? then [Call(i, channelId, world.call(i))] else []
    ensures decided.None? ==> failure == FailureOf(world, i)
  {
    var key := world.key(i);
    if key.NoKey? {
      return None, [], key.error;
    }
    var answer := world.call(i);
    calls := [Call(i, channelId, answer)];
    if answer.Value? {
      return Some(Success(answer.value, i + 1, channelId)), calls, ABORTED;
    }
    failure := answer.error;
    if !ShouldRetryError(failure) {
      return Some(Threw(failure, NotRetryable)), calls, failure;
    }
    if i == Limit(request) - 1 {
      return Some(Threw(failure, Exhausted)), calls, failure;
    }
    if world.expiredAfter(i) {
      return Some(Threw(failure, OutOfTime)), calls, failure;
    }
    if world.sleepAborted(i) {
      return Some(Threw(ABORTED, ClientAborted)), calls, failure;
    }
    decided := None;
  }

  method WithChannelRetry(world: World, request: Request) returns (outcome: Outcome, calls: seq<Call>, chosen: seq<string>)
    ensures Path(world, request, chosen) && Decided(world, request, chosen) == Some(outcome)
    ensures calls == CallsOf(world, chosen)
    ensures RetryOk(world, request, chosen, outcome)
  {
    var lastError: Option<Error> := None;
    calls, chosen := [], [];
    for i := 0 to Limit(request)
      invariant i == |chosen| && Path(world, request, chosen) && calls == CallsOf(world, chosen)
      invariant lastError == if i > 0 then Some(FailureOf(world, i - 1)) else None
      invariant i > 0 ==> During(world, request, i - 1, chosen[i - 1]).None?
    {
      var early, channelId := Prepare(world, request, i, chosen, lastError);
      if early.Some? {
        outcome := early.value;
        RetriesAreBounded(world, request, chosen, outcome);
        return;
      }
      PathGoesOn(world, request, chosen, channelId);
      var decided, made, failure := Attempt(world, request, i, channelId);
      chosen := chosen + [channelId];
      assert chosen[..i] + [channelId] == chosen;
      calls := calls + made;
      if decided.Some? {
        outcome := decided.value;
        RetriesAreBounded(world, request, chosen, outcome);
        return;
      }
      lastError := Some(failure);
    }
    outcome := Threw(lastError.value, Exhausted);
    RetriesAreBounded(world, request, chosen, outcome);
  }

  lemma PathGoesOn(world: World, request: Request, chosen: seq<string>, id: string)
    requires Path(world, request, chosen) && Before(world, request, |chosen|, chosen).None?
    requires Selection(world, |chosen|, request, chosen).0 == Chosen(id)
    requires chosen != [] ==> During(world, request, |chosen| - 1, chosen[|chosen| - 1]).None?
    ensures Path(world, request, chosen + [id])
  {
    var more := chosen + [id];
    assert more[..|chosen|] == chosen;
    forall r | 0 <= r < |more|
      ensures ChosenAt(world, request, more, r)
    {
      if r < |chosen| {
        assert ChosenAt(world, request, chosen, r);
        ChosenInside(world, request, chosen, more, r);
      }
    }
  }

  lemma ChosenInside(world: World, request: Request, part: seq<string>, whole: seq<string>, r: nat)
    requires r < |part| <= |whole| && part == whole[..|part|] && ChosenAt(world, request, part, r)
    requires r + 1 == |part| < |whole| ==> During(world, request, r, part[r]).None?
    ensures ChosenAt(world, request, whole, r)
  {
    assert whole[..r] == part[..r];
  }

  // --- what the loop promises ---------------------------------------------------------------------

  /** A world forces its outcome, the channels on the way, and so the calls. */
  lemma OutcomeIsForced(world: World, request: Request, a: seq<string>, b: seq<string>)
    requires Path(world, request, a) && Decided(world, request, a).Some?
    requires Path(world, request, b) && Decided(world, request, b).Some?
    ensures a == b
  {
    PathFollows(world, request, a);
    PathFollows(world, request, b);
    SameFollowed(Chooser(world, request), a, b, if |a| < |b| then |a| else |b|);
    if |a| < |b| {
      DecidedStops(world, request, a, b);
    } else if |b| < |a| {
      DecidedStops(world, request, b, a);
    }
    assert a[..|a|] == a && b[..|b|] == b;
  }

  /** Each element is what `next` gives after those before it. */
  ghost predicate Follows(next: seq<string> -> Option<string>, chosen: seq<string>) {
    forall r :: 0 <= r < |chosen| ==> next(chosen[..r]) == Some(chosen[r])
  }

  lemma {:induction false} SameFollowed(next: seq<string> -> Option<string>, a: seq<string>, b: seq<string>, n: nat)
    requires Follows(next, a) && Follows(next, b) && n <= |a| && n <= |b|
    ensures a[..n] == b[..n]
  {
    if n > 0 {
      SameFollowed(next, a, b, n - 1);
      assert next(a[..n - 1]) == next(b[..n - 1]);
      assert a[..n] == a[..n - 1] + [a[n - 1]] && b[..n] == b[..n - 1] + [b[n - 1]];
    }
  }

  function Chooser(world: World, request: Request): seq<string> -> Option<string> {
    (tried: seq<string>) =>
      var selected := Selection(world, |tried|, request, tried).0;
      if selected.Chosen? then Some(selected.id) else None
  }

  lemma PathFollows(world: World, request: Request, chosen: seq<string>)
    requires Path(world, request, chosen)
    ensures Follows(Chooser(world, request), chosen)
  {
    forall r | 0 <= r < |chosen|
      ensures Chooser(world, request)(chosen[..r]) == Some(chosen[r])
    {
      assert ChosenAt(world, request, chosen, r);
    }
  }

  /** Where an outcome is decided no path goes on. */
  lemma DecidedStops(world: World, request: Request, a: seq<string>, b: seq<string>)
    requires Path(world, request, a) && Path(world, request, b) && |a| < |b| && a == b[..|a|]
    ensures Decided(world, request, a).None?
  {
    assert ChosenAt(world, request, b, |a|);
    if a != [] {
      assert ChosenAt(world, request, b, |a| - 1);
    }
  }

  predicate Retried(c: Call) {
    c.answer.Failed? && ShouldRetryError(c.answer.error)
  }

  ghost predicate CallOk(world: World, request: Request, chosen: seq<string>, c: Call) {
    && c.attempt < |chosen| && c.channelId == chosen[c.attempt] && c.answer == world.call(c.attempt) && world.key(c.attempt).Key?
    && FreshlyServes(world, c.attempt, request, chosen[..c.attempt], c.channelId)
  }

  /** No channel twice. */
  predicate AllDistinct(chosen: seq<string>) {
    forall r :: 0 <= r < |chosen| ==> chosen[r] !in chosen[..r]
  }

  ghost predicate CallsOk(world: World, request: Request, chosen: seq<string>, calls: seq<Call>) {
    && |calls| <= |chosen| <= Limit(request) && AllDistinct(chosen)
    && (forall k :: 0 <= k < |calls| ==> CallOk(world, request, chosen, calls[k]))
    && (forall k :: 0 < k < |calls| ==> calls[k - 1].attempt < calls[k].attempt)
  }

  /** A failure that was recorded: of a call, or of a channel without a key. */
  predicate Recorded(world: World, chosen: seq<string>, e: Error) {
    exists i: nat :: i < |chosen| && (world.key(i) == NoKey(e) || (world.key(i).Key? && world.call(i) == Failed(e)))
  }

  /** One of the first reads of the attempt ended in the fault. */
  ghost predicate SelectionFaulted(world: World, i: nat, e: Error) {
    exists j: nat :: j < MAX_READS && FaultedAt(world, i, j, world.rows(i), e)
  }

  /**
   * At most `maxAttempts` calls, on pairwise distinct channels, each confirmed by a fresh read; no
   * call follows one not worth another channel; the result is the first success, or a recorded
   * failure, or the fault that broke the last selection, or says that the client left or that
   * nothing can be selected.
   */
  ghost predicate RetryOk(world: World, request: Request, chosen: seq<string>, outcome: Outcome) {
    var calls := CallsOf(world, chosen);
    && CallsOk(world, request, chosen, calls)
    && (forall k :: 0 <= k < |calls| - 1 ==> Retried(calls[k]))
    && (outcome.Success? <==> calls != [] && calls[|calls| - 1].answer.Value?)
    && (outcome.Success? ==> outcome == Success(calls[|calls| - 1].answer.value, |chosen|, calls[|calls| - 1].channelId))
    && (outcome.Threw? ==>
          || Recorded(world, chosen, outcome.error)
          || (outcome.error == ABORTED && outcome.reason == ClientAborted)
          || (outcome.error == NO_CHANNEL && outcome.reason == NothingSelectable)
          || (outcome.reason == SelectionBroke && SelectionFaulted(world, |chosen|, outcome.error)))
  }

  lemma {:induction false} ChosenChannels(world: World, request: Request, chosen: seq<string>)
    requires Path(world, request, chosen)
    ensures |chosen| <= Limit(request) && AllDistinct(chosen)
    ensures forall r :: 0 <= r < |chosen| ==> FreshlyServes(world, r, request, chosen[..r], chosen[r])
  {
    forall r | 0 <= r < |chosen|
      ensures r < Limit(request) && FreshlyServes(world, r, request, chosen[..r], chosen[r])
    {
      assert ChosenAt(world, request, chosen, r);
      SelectionHolds(world, r, request, chosen[..r]);
    }
    if chosen != [] {
      assert ChosenAt(world, request, chosen, |chosen| - 1);
    }
  }

  lemma ChosenInPrefix(world: World, request: Request, whole: seq<string>, part: seq<string>, r: nat)
    requires r < |part| <= |whole| && part == whole[..|part|] && ChosenAt(world, request, whole, r)
    ensures ChosenAt(world, request, part, r)
    ensures r + 1 < |whole| ==> During(world, request, r, whole[r]).None?
  {
    assert whole[..r] == part[..r];
  }

  lemma PrefixPath(world: World, request: Request, chosen: seq<string>)
    requires Path(world, request, chosen) && chosen != []
    ensures Path(world, request, chosen[..|chosen| - 1])
    ensures |chosen| > 1 ==> During(world, request, |chosen| - 2, chosen[|chosen| - 2]).None?
  {
    var init := chosen[..|chosen| - 1];
    forall r | 0 <= r < |init|
      ensures ChosenAt(world, request, init, r)
    {
      assert ChosenAt(world, request, chosen, r);
      ChosenInPrefix(world, request, chosen, init, r);
    }
    if |chosen| > 1 {
      assert ChosenAt(world, request, chosen, |chosen| - 2);
      ChosenInPrefix(world, request, chosen, init, |chosen| - 2);
    }
  }

  lemma {:induction false} CallsAreOk(world: World, request: Request, chosen: seq<string>)
    requires Path(world, request, chosen)
    ensures CallsOk(world, request, chosen, CallsOf(world, chosen))
  {
    ChosenChannels(world, request, chosen);
    if chosen != [] {
      var init, i := chosen[..|chosen| - 1], |chosen| - 1;
      PrefixPath(world, request, chosen);
      CallsAreOk(world, request, init);
      CallsStayOk(world, request, chosen, CallsOf(world, init));
      assert CallOk(world, request, chosen, Call(i, chosen[i], world.call(i))) || world.key(i).NoKey?;
    }
  }

  lemma CallsStayOk(world: World, request: Request, chosen: seq<string>, calls: seq<Call>)
    requires chosen != [] && CallsOk(world, request, chosen[..|chosen| - 1], calls)
    ensures forall k :: 0 <= k < |calls| ==> CallOk(world, request, chosen, calls[k]) && calls[k].attempt < |chosen| - 1
  {
    forall k | 0 <= k < |calls|
      ensures CallOk(world, request, chosen, calls[k]) && calls[k].attempt < |chosen| - 1
    {
      assert CallOk(world, request, chosen[..|chosen| - 1], calls[k]);
      assert chosen[..|chosen| - 1][..calls[k].attempt] == chosen[..calls[k].attempt];
    }
  }

  /** The last call is that of the last channel, when that one had a key. */
  lemma LastCall(world: World, chosen: seq<string>)
    requires chosen != []
    ensures var calls, before, i := CallsOf(world, chosen), CallsOf(world, chosen[..|chosen| - 1]), |chosen| - 1;
      calls == if world.key(i).Key? then before + [Call(i, chosen[i], world.call(i))] else before
  {
  }

  predicate AllRetried(calls: seq<Call>) {
    forall k :: 0 <= k < |calls| ==> Retried(calls[k])
  }

  /** Every call of an attempt that went on failed in a way worth another channel. */
  lemma {:induction false} RetriedCalls(world: World, request: Request, chosen: seq<string>)
    requires Path(world, request, chosen)
    requires chosen != [] ==> During(world, request, |chosen| - 1, chosen[|chosen| - 1]).None?
    ensures AllRetried(CallsOf(world, chosen))
  {
    if chosen != [] {
      PrefixPath(world, request, chosen);
      RetriedCalls(world, request, chosen[..|chosen| - 1]);
      LastCall(world, chosen);
    }
  }

  lemma RetriesAreBounded(world: World, request: Request, chosen: seq<string>, outcome: Outcome)
    requires Path(world, request, chosen) && Decided(world, request, chosen) == Some(outcome)
    ensures RetryOk(world, request, chosen, outcome)
  {
    CallsAreOk(world, request, chosen);
    var n := |chosen|;
    if n > 0 && During(world, request, n - 1, chosen[n - 1]).Some? {
      EndsDuring(world, request, chosen, outcome);
    } else {
      EndsBefore(world, request, chosen, outcome);
    }
  }

  lemma EndsDuring(world: World, request: Request, chosen: seq<string>, outcome: Outcome)
    requires Path(world, request, chosen) && CallsOk(world, request, chosen, CallsOf(world, chosen))
    requires chosen != [] && During(world, request, |chosen| - 1, chosen[|chosen| - 1]) == Some(outcome)
    ensures RetryOk(world, request, chosen, outcome)
  {
    PrefixPath(world, request, chosen);
    RetriedCalls(world, request, chosen[..|chosen| - 1]);
    LastCall(world, chosen);
    assert world.call(|chosen| - 1).Failed? ==> Recorded(world, chosen, world.call(|chosen| - 1).error);
  }

  lemma EndsBefore(world: World, request: Request, chosen: seq<string>, outcome: Outcome)
    requires Path(world, request, chosen) && CallsOk(world, request, chosen, CallsOf(world, chosen))
    requires chosen != [] ==> During(world, request, |chosen| - 1, chosen[|chosen| - 1]).None?
    requires Before(world, request, |chosen|, chosen) == Some(outcome)
    ensures RetryOk(world, request, chosen, outcome)
  {
    RetriedCalls(world, request, chosen);
    if chosen != [] {
      WentOn(world, request, chosen);
    }
    if outcome.Threw? && outcome.reason == SelectionBroke {
      BrokenSelection(world, |chosen|, request, chosen, outcome.error);
    }
  }

  lemma BrokenSelection(world: World, i: nat, request: Request, tried: seq<string>, e: Error)
    requires Selection(world, i, request, tried).0 == Broken(e)
    ensures SelectionFaulted(world, i, e)
  {
    var (r, dropped) := Selection(world, i, request, tried);
    SelectionHolds(world, i, request, tried);
    KeepHolds(world.rows(i), tried, world.open(i));
    var c :| c in Healthy(world, i, tried) && world.read(i, |dropped|, c.channelId) == Faulted(e);
    assert FaultedAt(world, i, |dropped|, world.rows(i), e);
  }

  lemma WentOn(world: World, request: Request, chosen: seq<string>)
    requires chosen != [] && During(world, request, |chosen| - 1, chosen[|chosen| - 1]).None?
    ensures Recorded(world, chosen, FailureOf(world, |chosen| - 1))
  {
    var i: nat := |chosen| - 1;
    assert world.key(i) == NoKey(FailureOf(world, i)) || (world.key(i).Key? && world.call(i) == Failed(FailureOf(world, i)));
  }
}
