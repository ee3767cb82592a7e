/**
 * What the ledger's operations charge, in the terms of their inputs: who is granted a hold and what
 * it takes, what a completion charges, and where every charge is found again after a run.
 */
module LedgerCharges {
  import opened Options
  import opened Sums
  import opened QuotaLedger
  import opened LedgerRuns

  // --- reservations ------------------------------------------------------------------

  /** What is held for an amount: the amount rounded up, and at least one. */
  predicate Needs(need: int, amount: Number) {
    amount.Finite? && 0.0 <= amount.r <= MAX_SAFE as real
    && if amount.r == 0.0 then need == 1 else RoundedUp(need, amount)
  }

  predicate Active(s: State, who: Identity, now: int) {
    && who.userId in s.users && s.users[who.userId].enabled
    && who.tokenId in s.tokens && s.tokens[who.tokenId].userId == who.userId && s.tokens[who.tokenId].enabled
    && (s.tokens[who.tokenId].expiresAt.Some? ==> now < s.tokens[who.tokenId].expiresAt.value)
  }

  predicate Migrated(s: State, who: Identity)
    requires who.userId in s.users && who.tokenId in s.tokens
  {
    s.users[who.userId].version == Some(2) && s.tokens[who.tokenId].version == Some(2)
  }

  /** The balance covers the hold, and so does the cap of a key that has one. */
  predicate Covered(s: State, who: Identity, need: int)
    requires who.userId in s.users && who.tokenId in s.tokens
  {
    && need <= s.users[who.userId].quota
    && (s.tokens[who.tokenId].unlimitedQuota || need <= s.tokens[who.tokenId].quota)
  }

  predicate Sound(s: State, who: Identity)
    requires who.userId in s.users && who.tokenId in s.tokens
  {
    && -9007199254740991 <= s.users[who.userId].quota <= 9007199254740991
    && -9007199254740991 <= s.tokens[who.tokenId].quota <= 9007199254740991
  }

  /** The hold leaves the balance, and the cap of a limited key; the journal gains its row. */
  predicate HoldTaken(before: State, after: State, who: Identity, id: Id, need: int, now: int)
    requires who.userId in before.users && who.tokenId in before.tokens
  {
    var user, token := before.users[who.userId], before.tokens[who.tokenId];
    && after.users == before.users[who.userId := user.(quota := user.quota - need)]
    && after.tokens == (if token.unlimitedQuota then before.tokens else before.tokens[who.tokenId := token.(quota := token.quota - need)])
    && after.journal == before.journal[id := JournalDoc(who.userId, who.tokenId, !token.unlimitedQuota, Reserve, true, 0, need, now + 900_000)]
    && after.codes == before.codes
  }

  /** A new hold is granted exactly to an active, migrated account that covers it; else the reason is given. */
  lemma ReservationAnswers(s: State, who: Identity, id: Id, amount: Number, need: int, now: int, fault: Fault)
    requires Needs(need, amount) && 1 <= |id| <= 128 && id !in s.journal
    ensures var (after, answer) := ReserveQuota(s, who, id, amount, false, now, fault);
      if fault == FailsBeforeCommit then after == s && answer == Err(Unavailable)
      else if !Active(s, who, now) then after == s && answer == Err(Forbidden)
      else if !Migrated(s, who) then after == s && answer == Err(MigrationRequired)
      else if !Sound(s, who) then after == s && answer == Err(Unavailable)
      else if !Covered(s, who, need) then after == s && answer == Err(Insufficient)
      else
        && HoldTaken(s, after, who, id, need, now)
        && answer == if fault == LosesAnswer then Err(Unavailable) else Ok(Reservation(need, s.users[who.userId].quota - need, false))
  {
    assert QuotaAmount(amount).Some?;
    assert NeedOf(amount) == need;
  }

  /** An id already in the journal answers with its hold exactly to its owner, for the same amount, while it is pending and fresh. */
  lemma ReplayAnswers(s: State, who: Identity, id: Id, amount: Number, need: int, now: int)
    requires Needs(need, amount) && 1 <= |id| <= 128 && id in s.journal
    ensures var answer := ReserveQuota(s, who, id, amount, false, now, NoFault).1;
      var entry := s.journal[id];
      && (answer.Ok? <==> entry.userId == who.userId && entry.tokenId == who.tokenId && entry.pending
                          && entry.reserved == need && now < entry.expiresAt)
      && (answer.Ok? ==> answer.value.reserved == need && answer.value.replayed
                         && (who.userId in s.users ==> answer.value.remaining == s.users[who.userId].quota))
      && (answer.Err? ==> answer.error == InvalidRequest)
  {
    assert QuotaAmount(amount).Some?;
    assert NeedOf(amount) == need;
  }

  /** Amounts that are negative, not finite or too large, and ids that are empty or too long, are refused. */
  lemma MalformedRefused(s: State, who: Identity, id: Id, amount: Number, now: int, fault: Fault)
    requires amount.NotFinite? || amount.r < 0.0 || amount.r > 9007199254740991.0 || id == "" || |id| > 128
    ensures ReserveQuota(s, who, id, amount, false, now, fault) == (s, Err(InvalidRequest))
    ensures ReserveQuota(s, who, id, amount, true, now, fault) == (s, Err(Unavailable))
  {
  }

  // --- completions -------------------------------------------------------------------

  /** The owner pays the charge out of the hold, the rest returns; the key's totals and the journal follow. */
  predicate Charged(before: State, after: State, who: Identity, id: Id, charge: int, kind: Kind)
    requires id in before.journal && who.userId in before.users
  {
    var entry, user := before.journal[id], before.users[who.userId];
    && after.users == before.users[who.userId := UserDoc(user.enabled, user.version, user.quota + entry.reserved - charge,
         user.usedQuota + charge, if kind == Settle then user.requestCount + 1 else user.requestCount)]
    && after.tokens.Keys == before.tokens.Keys
    && (forall t :: t in before.tokens && !(t == who.tokenId && before.tokens[t].userId == who.userId) ==> after.tokens[t] == before.tokens[t])
    && (who.tokenId in before.tokens && before.tokens[who.tokenId].userId == who.userId ==>
          var token := before.tokens[who.tokenId];
          after.tokens[who.tokenId] == token.(usedQuota := token.usedQuota + charge,
            quota := if entry.tokenLimited then token.quota + entry.reserved - charge else token.quota))
    && after.journal == before.journal[id := entry.(kind := kind, amount := charge, pending := false)]
    && after.codes == before.codes
  }

  /** The hold is pending and the caller's own. */
  predicate Mine(s: State, who: Identity, id: Id) {
    id in s.journal && s.journal[id].pending && s.journal[id].userId == who.userId && s.journal[id].tokenId == who.tokenId
  }

  /** The owner's account is there, and both sums stay exact. */
  predicate Postable(s: State, who: Identity, id: Id, charge: int)
    requires id in s.journal
  {
    && who.userId in s.users
    && -9007199254740991 <= s.users[who.userId].quota + s.journal[id].reserved - charge <= 9007199254740991
    && -9007199254740991 <= s.users[who.userId].usedQuota + charge <= 9007199254740991
  }

  /**
   * A completion of a measured amount closes the caller's own pending hold and charges that amount;
   * of anything else it changes nothing and says that it did not apply.
   */
  lemma CompletionAnswers(s: State, who: Identity, id: Id, actual: Number, charge: int, kind: Kind, fault: Fault)
    requires RoundedUp(charge, actual) && 0.0 <= actual.r <= 9007199254740991.0
    ensures var (after, answer) := Complete(s, who, id, actual, kind, fault);
      if fault == FailsBeforeCommit then after == s && answer == Err(Unavailable)
      else if !Mine(s, who, id) then
        && after == s
        && answer == if fault == LosesAnswer then Err(Unavailable)
                     else Ok(Completion(false, if who.userId in s.users then s.users[who.userId].quota else 0, 0))
      else if !Postable(s, who, id, charge) then after == s && answer == Err(Unavailable)
      else
        && Charged(s, after, who, id, charge, kind)
        && answer == if fault == LosesAnswer then Err(Unavailable)
                     else Ok(Completion(true, s.users[who.userId].quota + s.journal[id].reserved - charge,
                                        if kind == Release then s.journal[id].reserved else 0))
  {
    assert QuotaAmount(actual) == Some(charge);
  }

  lemma MalformedChargeRefused(s: State, who: Identity, id: Id, actual: Number, kind: Kind, fault: Fault)
    requires actual.NotFinite? || actual.r < 0.0 || actual.r > 9007199254740991.0
    ensures Complete(s, who, id, actual, kind, fault) == (s, Err(InvalidRequest))
  {
  }

  /** The completion that closes a hold charges what it was told, rounded up. */
  lemma CompletionCharges(s: State, step: Step, id: Id) returns (charge: int)
    requires Closes(s, step, id)
    ensures RoundedUp(charge, step.actual) && Charged(s, Next(s, step), step.who, id, charge, step.kind)
  {
    charge := QuotaAmount(step.actual).value;
    CompletionAnswers(s, step.who, id, step.actual, charge, step.kind, step.fault);
  }

  lemma {:induction false} RunSplit(s: State, steps: seq<Step>, k: nat)
    requires k <= |steps|
    ensures Run(s, steps) == Run(Run(s, steps[..k]), steps[k..])
    decreases |steps|
  {
    if k == 0 {
      assert steps[..0] == [] && steps[0..] == steps;
    } else {
      RunSplit(Next(s, steps[0]), steps[1..], k - 1);
      assert steps[..k][0] == steps[0] && steps[..k][1..] == steps[1..][..k - 1] && steps[1..][k - 1..] == steps[k..];
    }
  }

  /** After any run, the journal tells for each closed hold what the completion that closed it measured. */
  lemma ChargedAsClosed(s: State, steps: seq<Step>, id: Id, k: nat) returns (charge: int)
    requires k < |steps| && Closes(Run(s, steps[..k]), steps[k], id)
    ensures RoundedUp(charge, steps[k].actual)
    ensures Charged(Run(s, steps[..k]), Run(s, steps[..k + 1]), steps[k].who, id, charge, steps[k].kind)
    ensures var end := Run(s, steps);
      id in end.journal && !end.journal[id].pending && end.journal[id].amount == charge && end.journal[id].kind == steps[k].kind
  {
    charge := CompletionCharges(Run(s, steps[..k]), steps[k], id);
    RunExtends(s, steps[..k], steps[k]);
    assert steps[..k] + [steps[k]] == steps[..k + 1];
    RunSplit(s, steps, k + 1);
    RunContinues(Run(s, steps[..k + 1]), steps[k + 1..], id);
  }

  // --- where the charges are ----------------------------------------------------------

  function UserCharge(userId: Id): JournalDoc -> int {
    (d: JournalDoc) => if !d.pending && d.userId == userId then d.amount else 0
  }

  function TokenCharge(tokenId: Id): JournalDoc -> int {
    (d: JournalDoc) => if !d.pending && d.tokenId == tokenId then d.amount else 0
  }

  /** What a user has spent beyond the charges in the journal. */
  ghost function UserSurplus(s: State, userId: Id): int {
    (if userId in s.users then s.users[userId].usedQuota else 0) - Sum(s.journal, UserCharge(userId))
  }

  ghost function TokenSurplus(s: State, tokenId: Id): int {
    (if tokenId in s.tokens then s.tokens[tokenId].usedQuota else 0) - Sum(s.journal, TokenCharge(tokenId))
  }

  lemma HeldKeepsSurplus(s: State, who: Identity, id: Id, need: int, now: int, userId: Id, tokenId: Id)
    requires id !in s.journal && Refusal(s, who, need, now) == None
    ensures var after := Held(s, who, id, need, now);
      UserSurplus(after, userId) == UserSurplus(s, userId) && TokenSurplus(after, tokenId) == TokenSurplus(s, tokenId)
  {
    var entry := Held(s, who, id, need, now).journal[id];
    SumUpdate(s.journal, id, entry, UserCharge(userId));
    SumUpdate(s.journal, id, entry, TokenCharge(tokenId));
  }

  lemma CompletedKeepsSurplus(s: State, who: Identity, id: Id, charge: int, kind: Kind, userId: Id, tokenId: Id)
    requires OwnsPending(s, who, id) && who.userId in s.users && OwnersAgree(s, tokenId)
    ensures var after := Completed(s, who, id, charge, kind);
      UserSurplus(after, userId) == UserSurplus(s, userId) && TokenSurplus(after, tokenId) == TokenSurplus(s, tokenId)
  {
    var entry := s.journal[id].(kind := kind, amount := charge, pending := false);
    SumUpdate(s.journal, id, entry, UserCharge(userId));
    SumUpdate(s.journal, id, entry, TokenCharge(tokenId));
  }

  lemma StepKeepsSurplus(s: State, step: Step, userId: Id, tokenId: Id)
    requires OwnersAgree(s, tokenId) && step != DeleteToken(tokenId)
    ensures UserSurplus(Next(s, step), userId) == UserSurplus(s, userId)
    ensures TokenSurplus(Next(s, step), tokenId) == TokenSurplus(s, tokenId)
  {
    if step.ReserveStep? {
      ReserveEffect(s, step.who, step.id, step.amount, step.degraded, step.now, step.fault);
      if Next(s, step) != s {
        HeldKeepsSurplus(s, step.who, step.id, NeedOf(step.amount), step.now, userId, tokenId);
      }
    } else if step.CompleteStep? {
      CompleteEffect(s, step.who, step.id, step.actual, step.kind, step.fault);
      if Next(s, step) != s {
        CompletedKeepsSurplus(s, step.who, step.id, ChargeOf(step.actual), step.kind, userId, tokenId);
      }
    } else {
      assert Next(s, step).journal == s.journal;
    }
  }

  /**
   * Over every run a user's spent total grows by exactly the amounts of the holds closed in it, and
   * so does a key's until the key is deleted.
   */
  lemma {:induction false} SpentIsTheCharges(s: State, steps: seq<Step>, userId: Id, tokenId: Id)
    requires OwnersAgree(s, tokenId) && DeleteToken(tokenId) !in steps
    ensures UserSurplus(Run(s, steps), userId) == UserSurplus(s, userId)
    ensures TokenSurplus(Run(s, steps), tokenId) == TokenSurplus(s, tokenId)
    decreases |steps|
  {
    if steps != [] {
      StepKeepsSurplus(s, steps[0], userId, tokenId);
      StepKeepsCap(s, steps[0], tokenId);
      SpentIsTheCharges(Next(s, steps[0]), steps[1..], userId, tokenId);
    }
  }

  // --- redemption ---------------------------------------------------------------------

  predicate Redeemable(s: State, userId: Id, digest: Id, now: int) {
    && userId in s.users && s.users[userId].enabled && s.users[userId].version == Some(2)
    && digest in s.codes && s.codes[digest].status == Unused
    && (s.codes[digest].expiresAt.Some? ==> now < s.codes[digest].expiresAt.value)
    && s.codes[digest].quota.Finite? && 0.0 <= s.codes[digest].quota.r <= 9007199254740991.0
  }

  /** A code is claimed exactly while it is unused, unexpired and its amount fits; its amount, rounded up, is the credit. */
  lemma RedemptionCredits(s: State, userId: Id, digest: Id, now: int, credit: int)
    requires Redeemable(s, userId, digest, now) ==> RoundedUp(credit, s.codes[digest].quota)
    ensures var (after, answer) := RedeemCode(s, userId, digest, now, NoFault);
      if Redeemable(s, userId, digest, now) && -9007199254740991 <= s.users[userId].quota + credit <= 9007199254740991 then
        && after.users == s.users[userId := s.users[userId].(quota := s.users[userId].quota + credit)]
        && after.codes == s.codes[digest := s.codes[digest].(status := Used(userId))]
        && after.tokens == s.tokens && after.journal == s.journal
        && answer == Ok(s.users[userId].quota + credit)
      else after == s && answer == Err(InvalidRequest)
  {
  }

  // --- operators' edits ------------------------------------------------------------------

  /** A new account opens with its amount rounded up; an edit sets a new amount unless another one was expected. */
  lemma OperatorsEdit(s: State, userId: Id, enabled: bool, quota: Number, amount: int, expected: Option<Number>)
    requires RoundedUp(amount, quota) && 0.0 <= quota.r <= 9007199254740991.0
    ensures userId !in s.users ==>
      && Next(s, CreateUser(userId, enabled, quota)) == s.(users := s.users[userId := UserDoc(enabled, Some(2), amount, 0, 0)])
      && Next(s, EditUser(userId, enabled, Some(quota), expected)) == s
    ensures userId in s.users ==>
      && Next(s, CreateUser(userId, enabled, quota)) == s
      && var user := s.users[userId];
         Next(s, EditUser(userId, enabled, Some(quota), expected)) ==
           if expected.Some? && !(expected.value.Finite? && expected.value.r >= 0.0 && RoundedUp(user.quota, expected.value)
                                  && user.quota <= 9007199254740991) then s
           else s.(users := s.users[userId := user.(enabled := enabled, quota := amount)])
  {
    assert QuotaAmount(quota) == Some(amount);
  }
}
