/** Which failures end a retried request, and how: the outcome in terms of what the world answered. */
module RetryOutcomes {
  import opened Options
  import opened Election
  import opened Retry

  /**
   * No other channel would do better: a malformed body, a client that is gone, an upstream status
   * that is final, or a failure of the gateway's own that is not marked as worth another try.
   */
  predicate Final(e: Error) {
    || e.code == "MALFORMED_UPSTREAM_BODY"
    || e.status == 499
    || (e.upstreamStatus.Some? && FinalStatus(e.upstreamStatus.value))
    || (e.upstreamStatus.None? && !e.retryable)
  }

  /** Success, a bad request, three timeouts, and anything that is no status. */
  predicate FinalStatus(status: int) {
    status < 100 || status > 599 || 200 <= status <= 299 || status in {400, 408, 504, 524}
  }

  lemma FinalIsNotRetried(e: Error)
    ensures ShouldRetryError(e) <==> !Final(e)
  {
    if e.upstreamStatus.Some? {
      RetryableStatuses(e.upstreamStatus.value);
    }
  }

  // --- the last attempt -------------------------------------------------------------------

  predicate CallFailed(world: World, i: nat) {
    world.key(i).Key? && world.call(i).Failed?
  }

  predicate CallSucceeded(world: World, i: nat) {
    world.key(i).Key? && world.call(i).Value?
  }

  /** The most attempts a request makes: what it asks for, and at least one. */
  predicate AttemptsAllowed(n: nat, request: Request) {
    n >= 1 && n >= request.maxAttempts && (n == 1 || n == request.maxAttempts)
  }

  /** Attempt `i` leaves something to try: its channel had no key, or failed in a curable way with time left. */
  predicate Continues(world: World, i: nat, most: nat) {
    || world.key(i).NoKey?
    || (CallFailed(world, i) && !Final(world.call(i).error) && i + 1 < most && !world.expiredAfter(i) && !world.sleepAborted(i))
  }

  /** A further attempt may begin after `n` of them. */
  predicate MayBegin(world: World, n: nat, most: nat) {
    n < most && !world.aborted(n) && !(n > 0 && world.expiredBefore(n))
  }

  lemma DuringSpelled(world: World, request: Request, i: nat, id: string, most: nat)
    requires AttemptsAllowed(most, request)
    ensures During(world, request, i, id).None?
       <==> world.key(i).NoKey? || (CallFailed(world, i) && !Final(world.call(i).error) && i + 1 != most
                                    && !world.expiredAfter(i) && !world.sleepAborted(i))
    ensures CallSucceeded(world, i) ==> During(world, request, i, id) == Some(Success(world.call(i).value, i + 1, id))
    ensures CallFailed(world, i) && Final(world.call(i).error) ==>
      During(world, request, i, id) == Some(Threw(world.call(i).error, NotRetryable))
    ensures CallFailed(world, i) && !Final(world.call(i).error) ==>
      var e := world.call(i).error;
      During(world, request, i, id) ==
        if i + 1 == most then Some(Threw(e, Exhausted))
        else if world.expiredAfter(i) then Some(Threw(e, OutOfTime))
        else if world.sleepAborted(i) then Some(Threw(ABORTED, ClientAborted))
        else None
  {
    if world.call(i).Failed? {
      FinalIsNotRetried(world.call(i).error);
    }
  }

  /**
   * How a request ends, given its attempts so far. A successful call is the outcome. A failed one is
   * thrown at once exactly when it is final; else it is thrown when attempts or time have run out,
   * and an abort is thrown when the client left meanwhile. Before a further attempt the client, the
   * time and the selection decide.
   */
  lemma EndsExactly(world: World, request: Request, chosen: seq<string>, outcome: Outcome, most: nat)
    requires Path(world, request, chosen) && Decided(world, request, chosen) == Some(outcome) && AttemptsAllowed(most, request)
    ensures var n := |chosen|;
      if n > 0 && CallSucceeded(world, n - 1) then outcome == Success(world.call(n - 1).value, n, chosen[n - 1])
      else if n > 0 && CallFailed(world, n - 1) && Final(world.call(n - 1).error) then
        outcome == Threw(world.call(n - 1).error, NotRetryable)
      else if n == most then
        outcome == Threw(if world.key(n - 1).NoKey? then world.key(n - 1).error else world.call(n - 1).error, Exhausted)
      else if n > 0 && CallFailed(world, n - 1) && world.expiredAfter(n - 1) then outcome == Threw(world.call(n - 1).error, OutOfTime)
      else if n > 0 && CallFailed(world, n - 1) && world.sleepAborted(n - 1) then outcome == Threw(ABORTED, ClientAborted)
      else if world.aborted(n) then outcome == Threw(ABORTED, ClientAborted)
      else if n > 0 && world.expiredBefore(n) then
        outcome == Threw(if world.key(n - 1).NoKey? then world.key(n - 1).error else world.call(n - 1).error, OutOfTime)
      else
        match Selection(world, n, request, chosen).0
        case Chosen(_) => false
        case Nothing => outcome == Threw(NO_CHANNEL, NothingSelectable)
        case Broken(e) => outcome == Threw(e, SelectionBroke)
  {
    var n := |chosen|;
    ChosenChannels(world, request, chosen);
    assert Limit(request) == most;
    if n > 0 {
      DuringSpelled(world, request, n - 1, chosen[n - 1], most);
    }
  }

  /** A request gives up as not worth another channel exactly when its last call failed for good. */
  lemma GivesUpExactly(world: World, request: Request, chosen: seq<string>, outcome: Outcome)
    requires Path(world, request, chosen) && Decided(world, request, chosen) == Some(outcome)
    ensures outcome.Threw? && outcome.reason == NotRetryable
       <==> chosen != [] && CallFailed(world, |chosen| - 1) && Final(world.call(|chosen| - 1).error)
  {
    EndsExactly(world, request, chosen, outcome, Limit(request));
  }

  /** While it may, a request goes on to the channel that is selected next. */
  lemma GoesOn(world: World, request: Request, chosen: seq<string>, most: nat, id: string)
    requires Path(world, request, chosen) && AttemptsAllowed(most, request)
    requires chosen != [] ==> Continues(world, |chosen| - 1, most)
    requires MayBegin(world, |chosen|, most) && Selection(world, |chosen|, request, chosen).0 == Chosen(id)
    ensures Decided(world, request, chosen).None? && Path(world, request, chosen + [id])
  {
    if chosen != [] {
      DuringSpelled(world, request, |chosen| - 1, chosen[|chosen| - 1], most);
    }
    PathGoesOn(world, request, chosen, id);
  }

  // --- the channels called ----------------------------------------------------------------

  /** Some read of the attempt found the channel enabled, open to the group, and with the model or with every model. */
  ghost predicate FoundOpen(world: World, i: nat, id: string, group: string, model: string) {
    exists j: nat :: j < 8 && world.read(i, j, id).Found? && OpenTo(world.read(i, j, id).channel, group, model)
  }

  predicate OpenTo(channel: ChannelDoc, group: string, model: string) {
    && channel.enabled
    && (exists g :: g in channel.groups && (g == group || g == "*"))
    && (channel.models == [] || (exists m :: m in channel.models && (m == model || m == "*")))
  }

  lemma PassedIsOpen(world: World, i: nat, j: nat, request: Request, id: string)
    ensures PassedRead(world, i, j, request, id)
       <==> world.read(i, j, id).Found? && OpenTo(world.read(i, j, id).channel, request.group, request.model)
  {
  }

  /** Every channel of a request was found, in its own attempt, enabled and open to the caller's group and model. */
  lemma ChosenAreOpen(world: World, request: Request, chosen: seq<string>, r: nat)
    requires Path(world, request, chosen) && r < |chosen|
    ensures FoundOpen(world, r, chosen[r], request.group, request.model)
  {
    ChosenChannels(world, request, chosen);
    var j: nat :| j < 8 && PassedRead(world, r, j, request, chosen[r]);
    PassedIsOpen(world, r, j, request, chosen[r]);
  }

  // --- the order of election --------------------------------------------------------------

  /** The candidates left when some were dropped one after the other. */
  function Remaining(candidates: seq<Candidate>, dropped: seq<string>): seq<Candidate> {
    if dropped == [] then candidates
    else WithoutChannel(Remaining(candidates, dropped[..|dropped| - 1]), dropped[|dropped| - 1])
  }

  /** Read `j` of attempt `i` is of the channel the election of that attempt gives among those not dropped yet. */
  predicate ElectedAt(world: World, i: nat, candidates: seq<Candidate>, dropped: seq<string>, id: string) {
    var elected := Elected(Remaining(candidates, dropped), i, world.affinity(i), world.random(i, |dropped|));
    elected.Some? && elected.value.channelId == id
  }

  lemma {:induction false} SearchElects(world: World, i: nat, request: Request, candidates: seq<Candidate>, dropped: seq<string>, j: nat)
    requires |dropped| <= j
    ensures var (r, all) := Search(world, i, request, Remaining(candidates, dropped), dropped);
      && dropped <= all
      && (j < |all| ==> ElectedAt(world, i, candidates, all[..j], all[j]))
      && (r.Chosen? ==> ElectedAt(world, i, candidates, all, r.id))
    decreases MAX_READS - |dropped|
  {
    var elected := Elected(Remaining(candidates, dropped), i, world.affinity(i), world.random(i, |dropped|));
    if |dropped| < MAX_READS && elected.Some? {
      var id := elected.value.channelId;
      if !world.read(i, |dropped|, id).Faulted? && !PassedRead(world, i, |dropped|, request, id) {
        var more := dropped + [id];
        assert more[..|dropped|] == dropped;
        SearchElects(world, i, request, candidates, more, if j > |dropped| then j else |more|);
        var all := Search(world, i, request, Remaining(candidates, more), more).1;
        assert all[..|dropped|] == more[..|dropped|] && all[|dropped|] == more[|dropped|];
      }
    }
  }

  /**
   * The channel of an attempt, and those read in vain before it, are elected in turn with the
   * attempt's own number, affinity and draws, among the untried channels behind no open breaker.
   */
  lemma SelectionElects(world: World, i: nat, request: Request, tried: seq<string>, j: nat)
    ensures var (r, dropped) := Selection(world, i, request, tried);
      && (j < |dropped| ==> ElectedAt(world, i, Keep(world.rows(i), tried, world.open(i)), dropped[..j], dropped[j]))
      && (r.Chosen? ==> ElectedAt(world, i, Keep(world.rows(i), tried, world.open(i)), dropped, r.id))
  {
    SearchElects(world, i, request, Healthy(world, i, tried), [], j);
  }
}
