/** What every run of ledger operations keeps: money, first completions, bounded debt, token caps. */
module LedgerRuns {
  import opened Options
  import opened Sums
  import opened QuotaLedger

  /** One committed or failed transaction, or an operator's edit. */
  datatype Step =
    | ReserveStep(who: Identity, id: Id, amount: Number, degraded: bool, now: int, fault: Fault)
    | CompleteStep(who: Identity, id: Id, actual: Number, kind: Kind, fault: Fault)
    | RedeemStep(userId: Id, digest: Id, now: int, fault: Fault)
    | CreateUser(userId: Id, enabled: bool, opening: Number)
    | EditUser(userId: Id, enabled: bool, quota: Option<Number>, expected: Option<Number>)
    | CreateToken(tokenId: Id, owner: Id, opening: Number, unlimitedQuota: bool, expiresAt: Option<int>)
    | EditToken(tokenId: Id, enabled: bool, unlimitedQuota: bool, expiresAt: Option<int>, quota: Option<Number>)
    | DeleteToken(tokenId: Id)
    | MintCode(digest: Id, credit: Number, expiresAt: Option<int>)

  /** What an operator's edit leaves as the balance; none when the edit is refused. */
  function Edited(current: int, quota: Option<Number>, expected: Option<Number>): Option<int> {
    if quota.None? then if expected.None? then Some(current) else None
    else if expected.Some? && QuotaAmount(expected.value) != Some(current) then None
    else QuotaAmount(quota.value)
  }

  function Next(s: State, step: Step): State {
    match step
    case ReserveStep(who, id, amount, degraded, now, fault) => ReserveQuota(s, who, id, amount, degraded, now, fault).0
    case CompleteStep(who, id, actual, kind, fault) => Complete(s, who, id, actual, kind, fault).0
    case RedeemStep(userId, digest, now, fault) => RedeemCode(s, userId, digest, now, fault).0
    case CreateUser(userId, enabled, opening) =>
      var quota := QuotaAmount(opening);
      if userId in s.users || quota.None? then s
      else s.(users := s.users[userId := UserDoc(enabled, Some(LEDGER_VERSION), quota.value, 0, 0)])
    case EditUser(userId, enabled, quota, expected) =>
      if userId !in s.users || Edited(s.users[userId].quota, quota, expected).None? then s
      else
        var user := s.users[userId];
        s.(users := s.users[userId := user.(enabled := enabled, quota := Edited(user.quota, quota, expected).value)])
    case CreateToken(tokenId, owner, opening, unlimitedQuota, expiresAt) =>
      var quota := QuotaAmount(opening);
      if tokenId in s.tokens || owner !in s.users || quota.None? then s
      else s.(tokens := s.tokens[tokenId := TokenDoc(owner, true, expiresAt, Some(LEDGER_VERSION), quota.value, 0, unlimitedQuota)])
    case EditToken(tokenId, enabled, unlimitedQuota, expiresAt, quota) =>
      if tokenId !in s.tokens || Edited(s.tokens[tokenId].quota, quota, None).None? then s
      else
        var token := s.tokens[tokenId];
        s.(tokens := s.tokens[tokenId := token.(enabled := enabled, unlimitedQuota := unlimitedQuota, expiresAt := expiresAt,
                                                quota := Edited(token.quota, quota, None).value)])
    case DeleteToken(tokenId) => s.(tokens := s.tokens - {tokenId})
    case MintCode(digest, quota, expiresAt) =>
      if digest in s.codes then s else s.(codes := s.codes[digest := CodeDoc(quota, Unused, expiresAt)])
  }

  function Run(s: State, steps: seq<Step>): State
    decreases |steps|
  {
    if steps == [] then s else Run(Next(s, steps[0]), steps[1..])
  }

  function NeedOf(amount: Number): int {
    var rounded := QuotaAmount(amount);
    if rounded.None? || rounded.value < 1 then 1 else rounded.value
  }

  function ChargeOf(actual: Number): int {
    var charge := QuotaAmount(actual);
    if charge.None? then 0 else charge.value
  }

  /** A reservation step does nothing or takes one hold. */
  lemma ReserveEffect(s: State, who: Identity, id: Id, amount: Number, degraded: bool, now: int, fault: Fault)
    ensures var after := ReserveQuota(s, who, id, amount, degraded, now, fault).0;
      after == s
      || (id !in s.journal && Refusal(s, who, NeedOf(amount), now) == None
          && after == Held(s, who, id, NeedOf(amount), now))
  {
  }

  /** A completion step does nothing or closes one pending hold. */
  lemma CompleteEffect(s: State, who: Identity, id: Id, actual: Number, kind: Kind, fault: Fault)
    ensures var after := Complete(s, who, id, actual, kind, fault).0;
      after == s
      || (OwnsPending(s, who, id) && who.userId in s.users && 0 <= ChargeOf(actual)
          && after == Completed(s, who, id, ChargeOf(actual), kind))
  {
  }

  // --- user money ---------------------------------------------------------------

  function HoldWeight(userId: Id): JournalDoc -> int {
    (d: JournalDoc) => if d.pending && d.userId == userId then d.reserved else 0
  }

  function CreditWeight(userId: Id): CodeDoc -> int {
    (c: CodeDoc) => if c.status == Used(userId) && QuotaAmount(c.quota).Some? then QuotaAmount(c.quota).value else 0
  }

  function Account(s: State, userId: Id): int {
    if userId in s.users then s.users[userId].quota + s.users[userId].usedQuota else 0
  }

  /** Spendable balance, spent balance and pending holds, less what codes have credited. */
  ghost function Money(s: State, userId: Id): int {
    Account(s, userId) + Sum(s.journal, HoldWeight(userId)) - Sum(s.codes, CreditWeight(userId))
  }

  lemma HeldConserves(s: State, who: Identity, id: Id, need: int, now: int, userId: Id)
    requires id !in s.journal && Refusal(s, who, need, now) == None
    ensures Money(Held(s, who, id, need, now), userId) == Money(s, userId)
  {
    var entry := Held(s, who, id, need, now).journal[id];
    SumUpdate(s.journal, id, entry, HoldWeight(userId));
  }

  lemma CompletedConserves(s: State, who: Identity, id: Id, charge: int, kind: Kind, userId: Id)
    requires OwnsPending(s, who, id) && who.userId in s.users
    ensures Money(Completed(s, who, id, charge, kind), userId) == Money(s, userId)
  {
    SumUpdate(s.journal, id, s.journal[id].(kind := kind, amount := charge, pending := false), HoldWeight(userId));
  }

  lemma RedeemConserves(s: State, redeemer: Id, digest: Id, now: int, userId: Id)
    ensures Money(RedeemWork(s, redeemer, digest, now).0, userId) == Money(s, userId)
  {
    if RedeemWork(s, redeemer, digest, now).1.Ok? {
      SumUpdate(s.codes, digest, s.codes[digest].(status := Used(redeemer)), CreditWeight(userId));
    }
  }

  lemma ReserveConserves(s: State, who: Identity, id: Id, amount: Number, degraded: bool, now: int, fault: Fault, userId: Id)
    ensures Money(ReserveQuota(s, who, id, amount, degraded, now, fault).0, userId) == Money(s, userId)
  {
    ReserveEffect(s, who, id, amount, degraded, now, fault);
    if ReserveQuota(s, who, id, amount, degraded, now, fault).0 != s {
      HeldConserves(s, who, id, NeedOf(amount), now, userId);
    }
  }

  lemma CompleteConserves(s: State, who: Identity, id: Id, actual: Number, kind: Kind, fault: Fault, userId: Id)
    ensures Money(Complete(s, who, id, actual, kind, fault).0, userId) == Money(s, userId)
  {
    CompleteEffect(s, who, id, actual, kind, fault);
    if Complete(s, who, id, actual, kind, fault).0 != s {
      CompletedConserves(s, who, id, ChargeOf(actual), kind, userId);
    }
  }

  /** What an operator's step adds to a user's total. */
  function Brought(s: State, step: Step, userId: Id): int {
    match step
    case CreateUser(id, _, opening) =>
      if id == userId && id !in s.users && QuotaAmount(opening).Some? then QuotaAmount(opening).value else 0
    case EditUser(id, _, quota, expected) =>
      if id == userId && id in s.users && Edited(s.users[id].quota, quota, expected).Some?
      then Edited(s.users[id].quota, quota, expected).value - s.users[id].quota else 0
    case _ => 0
  }

  function BroughtIn(s: State, steps: seq<Step>, userId: Id): int
    decreases |steps|
  {
    if steps == [] then 0 else Brought(s, steps[0], userId) + BroughtIn(Next(s, steps[0]), steps[1..], userId)
  }

  lemma StepConserves(s: State, step: Step, userId: Id)
    ensures Money(Next(s, step), userId) == Money(s, userId) + Brought(s, step, userId)
  {
    match step
    case ReserveStep(who, id, amount, degraded, now, fault) =>
      ReserveConserves(s, who, id, amount, degraded, now, fault, userId);
    case CompleteStep(who, id, actual, kind, fault) => CompleteConserves(s, who, id, actual, kind, fault, userId);
    case RedeemStep(redeemer, digest, now, fault) => RedeemConserves(s, redeemer, digest, now, userId);
    case CreateUser(_, _, _) => OperatorConserves(s, step, userId);
    case EditUser(_, _, _, _) => OperatorConserves(s, step, userId);
    case CreateToken(_, _, _, _, _) => OperatorConserves(s, step, userId);
    case EditToken(_, _, _, _, _) => OperatorConserves(s, step, userId);
    case DeleteToken(_) =>
    case MintCode(digest, quota, expiresAt) => MintConserves(s, digest, quota, expiresAt, userId);
  }

  lemma OperatorConserves(s: State, step: Step, userId: Id)
    requires step.CreateUser? || step.EditUser? || step.CreateToken? || step.EditToken?
    ensures Money(Next(s, step), userId) == Money(s, userId) + Brought(s, step, userId)
  {
    assert Next(s, step).journal == s.journal && Next(s, step).codes == s.codes;
    assert Account(Next(s, step), userId) == Account(s, userId) + Brought(s, step, userId);
  }

  lemma MintConserves(s: State, digest: Id, quota: Number, expiresAt: Option<int>, userId: Id)
    ensures Money(Next(s, MintCode(digest, quota, expiresAt)), userId) == Money(s, userId)
  {
    SumUpdate(s.codes, digest, CodeDoc(quota, Unused, expiresAt), CreditWeight(userId));
  }

  /** Over every run, faults included, a user's total moves only by what operators put in. */
  lemma {:induction false} RunConserves(s: State, steps: seq<Step>, userId: Id)
    ensures Money(Run(s, steps), userId) == Money(s, userId) + BroughtIn(s, steps, userId)
    decreases |steps|
  {
    if steps != [] {
      StepConserves(s, steps[0], userId);
      RunConserves(Next(s, steps[0]), steps[1..], userId);
    }
  }

  // --- token caps ----------------------------------------------------------------

  function CapWeight(tokenId: Id): JournalDoc -> int {
    (d: JournalDoc) => if d.tokenLimited && d.tokenId == tokenId then (if d.pending then d.reserved else d.amount) else 0
  }

  /** The cap left on a token, with what its limited reservations hold or were charged. */
  ghost function Cap(s: State, tokenId: Id): int {
    (if tokenId in s.tokens then s.tokens[tokenId].quota else 0) + Sum(s.journal, CapWeight(tokenId))
  }

  /** Journal rows that name a token are its owner's, and the token is there. */
  ghost predicate OwnersAgree(s: State, tokenId: Id) {
    forall id :: id in s.journal && s.journal[id].tokenId == tokenId ==>
      tokenId in s.tokens && s.tokens[tokenId].userId == s.journal[id].userId
  }

  /** What an operator's step adds to a token's cap. */
  function CapBrought(s: State, step: Step, tokenId: Id): int {
    match step
    case CreateToken(id, owner, opening, _, _) =>
      if id == tokenId && id !in s.tokens && owner in s.users && QuotaAmount(opening).Some? then QuotaAmount(opening).value else 0
    case EditToken(id, _, _, _, quota) =>
      if id == tokenId && id in s.tokens && Edited(s.tokens[id].quota, quota, None).Some?
      then Edited(s.tokens[id].quota, quota, None).value - s.tokens[id].quota else 0
    case _ => 0
  }

  function CapBroughtIn(s: State, steps: seq<Step>, tokenId: Id): int
    decreases |steps|
  {
    if steps == [] then 0 else CapBrought(s, steps[0], tokenId) + CapBroughtIn(Next(s, steps[0]), steps[1..], tokenId)
  }

  lemma HeldKeepsCap(s: State, who: Identity, id: Id, need: int, now: int, tokenId: Id)
    requires OwnersAgree(s, tokenId) && id !in s.journal && Refusal(s, who, need, now) == None
    ensures var after := Held(s, who, id, need, now);
      OwnersAgree(after, tokenId) && Cap(after, tokenId) == Cap(s, tokenId)
  {
    SumUpdate(s.journal, id, Held(s, who, id, need, now).journal[id], CapWeight(tokenId));
  }

  lemma CompletedKeepsCap(s: State, who: Identity, id: Id, charge: int, kind: Kind, tokenId: Id)
    requires OwnersAgree(s, tokenId) && OwnsPending(s, who, id) && who.userId in s.users
    ensures var after := Completed(s, who, id, charge, kind);
      OwnersAgree(after, tokenId) && Cap(after, tokenId) == Cap(s, tokenId)
  {
    SumUpdate(s.journal, id, s.journal[id].(kind := kind, amount := charge, pending := false), CapWeight(tokenId));
  }

  lemma OperatorKeepsCap(s: State, step: Step, tokenId: Id)
    requires OwnersAgree(s, tokenId) && step != DeleteToken(tokenId) && !step.ReserveStep? && !step.CompleteStep?
    ensures OwnersAgree(Next(s, step), tokenId)
    ensures Cap(Next(s, step), tokenId) == Cap(s, tokenId) + CapBrought(s, step, tokenId)
  {
    var after := Next(s, step);
    assert after.journal == s.journal;
    if step.CreateToken? || step.EditToken? || step.DeleteToken? {
      TokensKept(s, step, tokenId);
    } else {
      assert after.tokens == s.tokens;
    }
  }

  /** A token stays with its owner, and its cap moves by what the step brings. */
  lemma TokensKept(s: State, step: Step, tokenId: Id)
    requires step.CreateToken? || step.EditToken? || (step.DeleteToken? && step.tokenId != tokenId)
    ensures tokenId in s.tokens ==> tokenId in Next(s, step).tokens && Next(s, step).tokens[tokenId].userId == s.tokens[tokenId].userId
    ensures (if tokenId in Next(s, step).tokens then Next(s, step).tokens[tokenId].quota else 0)
         == (if tokenId in s.tokens then s.tokens[tokenId].quota else 0) + CapBrought(s, step, tokenId)
  {
  }

  lemma StepKeepsCap(s: State, step: Step, tokenId: Id)
    requires OwnersAgree(s, tokenId) && step != DeleteToken(tokenId)
    ensures OwnersAgree(Next(s, step), tokenId)
    ensures Cap(Next(s, step), tokenId) == Cap(s, tokenId) + CapBrought(s, step, tokenId)
  {
    if step.ReserveStep? {
      ReserveEffect(s, step.who, step.id, step.amount, step.degraded, step.now, step.fault);
      if Next(s, step) != s {
        HeldKeepsCap(s, step.who, step.id, NeedOf(step.amount), step.now, tokenId);
      }
    } else if step.CompleteStep? {
      CompleteEffect(s, step.who, step.id, step.actual, step.kind, step.fault);
      if Next(s, step) != s {
        CompletedKeepsCap(s, step.who, step.id, ChargeOf(step.actual), step.kind, tokenId);
      }
    } else {
      OperatorKeepsCap(s, step, tokenId);
    }
  }

  /**
   * Until its deletion a token's cap total moves only by what operators put in, whatever flips of
   * `unlimitedQuota` the run holds.
   */
  lemma {:induction false} RunKeepsCap(s: State, steps: seq<Step>, tokenId: Id)
    requires OwnersAgree(s, tokenId) && DeleteToken(tokenId) !in steps
    ensures OwnersAgree(Run(s, steps), tokenId)
    ensures Cap(Run(s, steps), tokenId) == Cap(s, tokenId) + CapBroughtIn(s, steps, tokenId)
    decreases |steps|
  {
    if steps != [] {
      StepKeepsCap(s, steps[0], tokenId);
      RunKeepsCap(Next(s, steps[0]), steps[1..], tokenId);
    }
  }

  // --- first completion wins -------------------------------------------------------

  predicate Closed(s: State, id: Id) {
    id in s.journal && !s.journal[id].pending
  }

  /** A reservation keeps its owner and its hold, and once closed it keeps everything. */
  predicate Continues(first: State, later: State, id: Id)
    requires id in first.journal
  {
    && id in later.journal
    && later.journal[id].userId == first.journal[id].userId && later.journal[id].tokenId == first.journal[id].tokenId
    && later.journal[id].tokenLimited == first.journal[id].tokenLimited && later.journal[id].reserved == first.journal[id].reserved
    && (!first.journal[id].pending ==> later.journal[id] == first.journal[id])
  }

  lemma StepContinues(s: State, step: Step, id: Id)
    requires id in s.journal
    ensures Continues(s, Next(s, step), id)
  {
    match step
    case ReserveStep(who, id', amount, degraded, now, fault) => ReserveEffect(s, who, id', amount, degraded, now, fault);
    case CompleteStep(who, id', actual, kind, fault) => CompleteEffect(s, who, id', actual, kind, fault);
    case RedeemStep(_, _, _, _) =>
    case CreateUser(_, _, _) =>
    case EditUser(_, _, _, _) =>
    case CreateToken(_, _, _, _, _) =>
    case EditToken(_, _, _, _, _) =>
    case DeleteToken(_) =>
    case MintCode(_, _, _) =>
  }

  lemma {:induction false} RunContinues(s: State, steps: seq<Step>, id: Id)
    requires id in s.journal
    ensures Continues(s, Run(s, steps), id)
    decreases |steps|
  {
    if steps != [] {
      StepContinues(s, steps[0], id);
      RunContinues(Next(s, steps[0]), steps[1..], id);
    }
  }

  /** The completion that closes a hold: its owner's, within bounds, and committed. */
  predicate Closes(s: State, step: Step, id: Id) {
    && step.CompleteStep? && step.id == id && OwnsPending(s, step.who, id)
    && !step.fault.FailsBeforeCommit? && step.who.userId in s.users && QuotaAmount(step.actual).Some?
    && IsSafe(s.users[step.who.userId].quota + s.journal[id].reserved - ChargeOf(step.actual))
    && IsSafe(s.users[step.who.userId].usedQuota + ChargeOf(step.actual))
  }

  lemma StepCloses(s: State, step: Step, id: Id)
    requires id in s.journal && s.journal[id].pending
    ensures Closed(Next(s, step), id) <==> Closes(s, step, id)
  {
    StepContinues(s, step, id);
    if step.ReserveStep? {
      ReserveEffect(s, step.who, step.id, step.amount, step.degraded, step.now, step.fault);
    }
  }

  lemma {:induction false} RunExtends(s: State, steps: seq<Step>, step: Step)
    ensures Run(s, steps + [step]) == Next(Run(s, steps), step)
    decreases |steps|
  {
    if steps == [] {
      assert [step][1..] == [];
    } else {
      assert (steps + [step])[1..] == steps[1..] + [step];
      RunExtends(Next(s, steps[0]), steps[1..], step);
    }
  }

  /** A hold stays pending until a completion closes it: no time, retry, edit or fault does. */
  lemma {:induction false} PendingUntilClosed(s: State, steps: seq<Step>, id: Id)
    requires id in s.journal && s.journal[id].pending
    ensures id in Run(s, steps).journal
    ensures Run(s, steps).journal[id].pending <==> forall k :: 0 <= k < |steps| ==> !Closes(Run(s, steps[..k]), steps[k], id)
    decreases |steps|
  {
    if steps != [] {
      var n := |steps| - 1;
      PendingUntilClosed(s, steps[..n], id);
      assert steps == steps[..n] + [steps[n]];
      RunExtends(s, steps[..n], steps[n]);
      StepContinues(Run(s, steps[..n]), steps[n], id);
      if Run(s, steps[..n]).journal[id].pending {
        StepCloses(Run(s, steps[..n]), steps[n], id);
      }
      assert forall k :: 0 <= k < n ==> steps[..n][..k] == steps[..k];
    }
  }

  lemma TwoSteps(s: State, first: Step, second: Step)
    ensures Run(s, [first, second]) == Next(Next(s, first), second)
  {
    RunExtends(s, [first], second);
    assert [first] + [second] == [first, second];
    assert [first][1..] == [];
  }

  /** A hold asked for again when it has expired is refused; hold and debit both stay. */
  lemma ExpiredHoldStays(s: State, who: Identity, id: Id, amount: Number, now: int, later: int)
    requires id !in s.journal && Refusal(s, who, NeedOf(amount), now) == None
    requires 1 <= |id| <= 128 && QuotaAmount(amount).Some? && later >= now + RESERVATION_TTL_MS
    ensures var end := Run(s, [ReserveStep(who, id, amount, false, now, NoFault), ReserveStep(who, id, amount, false, later, NoFault)]);
      && end == Held(s, who, id, NeedOf(amount), now)
      && end.journal[id].pending && end.journal[id].expiresAt <= later
      && ReserveQuota(end, who, id, amount, false, later, NoFault) == (end, Err(InvalidRequest))
  {
    var asked := ReserveStep(who, id, amount, false, now, NoFault);
    TwoSteps(s, asked, ReserveStep(who, id, amount, false, later, NoFault));
    assert Next(s, asked) == Held(s, who, id, NeedOf(amount), now);
  }

  /** Once a completion has committed, every later one, replays and releases included, changes nothing. */
  lemma ReplayChangesNothing(s: State, steps: seq<Step>, who: Identity, id: Id, actual: Number, kind: Kind, fault: Fault)
    requires Closed(s, id)
    ensures Complete(Run(s, steps), who, id, actual, kind, fault).0 == Run(s, steps)
    ensures Closed(Run(s, steps), id) && Run(s, steps).journal[id] == s.journal[id]
  {
    RunContinues(s, steps, id);
  }

  /**
   * A completion whose answer was lost has the effect of one that was answered, and the replay that
   * follows reports that nothing was applied.
   */
  lemma AmbiguousCommit(s: State, who: Identity, id: Id, actual: Number, kind: Kind, replay: Kind)
    requires Complete(s, who, id, actual, kind, NoFault).1.Ok?
    ensures var after := Complete(s, who, id, actual, kind, LosesAnswer);
      && after.1 == Err(Unavailable)
      && after.0 == Complete(s, who, id, actual, kind, NoFault).0
      && var again := Complete(after.0, who, id, actual, replay, NoFault);
         again.0 == after.0 && again.1.Ok? && !again.1.value.applied
  {
  }

  /** Asking for a hold under an id already in the journal never debits again. */
  lemma ReserveOnce(s: State, who: Identity, id: Id, amount: Number, degraded: bool, now: int, fault: Fault)
    requires id in s.journal
    ensures ReserveQuota(s, who, id, amount, degraded, now, fault).0 == s
  {
  }

  lemma {:induction false} CodeCreditsOnce(s: State, steps: seq<Step>, digest: Id, redeemer: Id)
    requires digest in s.codes && s.codes[digest].status == Used(redeemer)
    ensures digest in Run(s, steps).codes && Run(s, steps).codes[digest] == s.codes[digest]
    ensures forall userId, now, fault :: RedeemCode(Run(s, steps), userId, digest, now, fault).0 == Run(s, steps)
    decreases |steps|
  {
    if steps != [] {
      CodeCreditsOnce(Next(s, steps[0]), steps[1..], digest, redeemer);
    }
  }

  // --- bounded debt ------------------------------------------------------------------

  /** By how much a completed reservation was charged beyond its hold. */
  function OvershootWeight(userId: Id): JournalDoc -> int {
    (d: JournalDoc) => if !d.pending && d.userId == userId && d.amount > d.reserved then d.amount - d.reserved else 0
  }

  ghost function Overshoot(s: State, userId: Id): int {
    Sum(s.journal, OvershootWeight(userId))
  }

  /** The balance stays above `floor` less the overshoots. */
  ghost predicate Above(s: State, userId: Id, floor: int) {
    userId in s.users ==> s.users[userId].quota >= floor - Overshoot(s, userId)
  }

  lemma OvershootNonNegative(s: State, userId: Id)
    ensures Overshoot(s, userId) >= 0
  {
    TotalNonNegative(Weighed(s.journal, OvershootWeight(userId)));
  }

  lemma HeldStaysAbove(s: State, who: Identity, id: Id, need: int, now: int, userId: Id, floor: int)
    requires id !in s.journal && Refusal(s, who, need, now) == None
    requires floor <= 0 && Above(s, userId, floor)
    ensures Above(Held(s, who, id, need, now), userId, floor)
  {
    var after := Held(s, who, id, need, now);
    SumUpdate(s.journal, id, after.journal[id], OvershootWeight(userId));
    OvershootNonNegative(after, userId);
  }

  lemma CompletedStaysAbove(s: State, who: Identity, id: Id, charge: int, kind: Kind, userId: Id, floor: int)
    requires OwnsPending(s, who, id) && who.userId in s.users && Above(s, userId, floor)
    ensures Above(Completed(s, who, id, charge, kind), userId, floor)
  {
    SumUpdate(s.journal, id, s.journal[id].(kind := kind, amount := charge, pending := false), OvershootWeight(userId));
  }

  lemma StepStaysAbove(s: State, step: Step, userId: Id, floor: int)
    requires floor <= 0 && Above(s, userId, floor)
    ensures Above(Next(s, step), userId, floor)
  {
    OvershootNonNegative(s, userId);
    match step
    case ReserveStep(who, id, amount, degraded, now, fault) =>
      ReserveEffect(s, who, id, amount, degraded, now, fault);
      if Next(s, step) != s {
        HeldStaysAbove(s, who, id, NeedOf(amount), now, userId, floor);
      }
    case CompleteStep(who, id, actual, kind, fault) =>
      CompleteEffect(s, who, id, actual, kind, fault);
      if Next(s, step) != s {
        CompletedStaysAbove(s, who, id, ChargeOf(actual), kind, userId, floor);
      }
    case RedeemStep(_, _, _, _) =>
    case CreateUser(_, _, _) =>
    case EditUser(_, _, _, _) =>
    case CreateToken(_, _, _, _, _) =>
    case EditToken(_, _, _, _, _) =>
    case DeleteToken(_) =>
    case MintCode(_, _, _) =>
  }

  lemma {:induction false} RunStaysAbove(s: State, steps: seq<Step>, userId: Id, floor: int)
    requires floor <= 0 && Above(s, userId, floor)
    ensures Above(Run(s, steps), userId, floor)
    decreases |steps|
  {
    if steps != [] {
      StepStaysAbove(s, steps[0], userId, floor);
      RunStaysAbove(Next(s, steps[0]), steps[1..], userId, floor);
    }
  }

  /**
   * From an account that opens without debt and without a journal, the balance never falls below
   * minus what settled requests cost beyond their holds.
   */
  lemma DebtIsOvershoot(s: State, steps: seq<Step>, userId: Id)
    requires userId in s.users && s.users[userId].quota >= 0 && s.journal == map[]
    requires userId in Run(s, steps).users
    ensures Run(s, steps).users[userId].quota >= -Overshoot(Run(s, steps), userId)
  {
    OvershootNonNegative(s, userId);
    RunStaysAbove(s, steps, userId, 0);
  }
}
