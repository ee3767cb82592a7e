/**
 * The durable quota ledger: user balances, token caps, the journal of reservations and the
 * redemption codes. Every operation is one database transaction, which may also fail before it
 * commits or lose its answer after it committed.
 */
module QuotaLedger {
  import opened Options
  import opened Numbers

  type Id = string

  const MAX_SAFE := 9007199254740991
  const LEDGER_VERSION := 2
  const RESERVATION_TTL_MS := 900_000

  predicate IsSafe(n: int) {
    -MAX_SAFE <= n <= MAX_SAFE
  }

  /** A runtime number: a real, or one of the values that are not finite. */
  datatype Number = NotFinite | Finite(r: real)

  datatype LedgerError = InvalidRequest | Forbidden | Insufficient | MigrationRequired | Unavailable

  datatype Outcome<+T> = Ok(value: T) | Err(error: LedgerError)

  datatype UserDoc = UserDoc(enabled: bool, version: Option<int>, quota: int, usedQuota: int, requestCount: int)

  datatype TokenDoc = TokenDoc(userId: Id, enabled: bool, expiresAt: Option<int>, version: Option<int>,
                               quota: int, usedQuota: int, unlimitedQuota: bool)

  datatype Kind = Reserve | Settle | Release

  datatype JournalDoc = JournalDoc(userId: Id, tokenId: Id, tokenLimited: bool, kind: Kind, pending: bool,
                                   amount: int, reserved: int, expiresAt: int)

  datatype CodeStatus = Unused | Used(usedBy: Id) | Disabled

  datatype CodeDoc = CodeDoc(quota: Number, status: CodeStatus, expiresAt: Option<int>)

  datatype State = State(
    users: map<Id, UserDoc>,
    tokens: map<Id, TokenDoc>,
    journal: map<Id, JournalDoc>,
    codes: map<Id, CodeDoc>)

  datatype Identity = Identity(userId: Id, tokenId: Id)

  datatype Reservation = Reservation(reserved: int, remaining: int, replayed: bool)

  datatype Completion = Completion(applied: bool, remaining: int, refunded: int)

  /** What the database does to a transaction. */
  datatype Fault = NoFault | FailsBeforeCommit | LosesAnswer

  /** `n` is the amount rounded up to a whole number. */
  predicate RoundedUp(n: int, value: Number) {
    value.Finite? && value.r <= n as real < value.r + 1.0
  }

  /** A financial input: whole, bounded and not negative, or rejected. */
  function QuotaAmount(value: Number): (n: Option<int>)
    ensures n.Some? ==> 0 <= n.value <= MAX_SAFE && RoundedUp(n.value, value)
    ensures n.Some? <==> value.Finite? && 0.0 <= value.r <= MAX_SAFE as real
  {
    if value.NotFinite? || value.r < 0.0 || !IsSafe(Ceil(value.r)) then None else Some(Ceil(value.r))
  }

  /** A transaction commits only when its work succeeds; the caller may not learn that it did. */
  function Transacted<T>(before: State, work: (State, Outcome<T>), fault: Fault): (State, Outcome<T>) {
    if fault.FailsBeforeCommit? then (before, Err(Unavailable))
    else if work.1.Err? then (before, work.1)
    else if fault.LosesAnswer? then (work.0, Err(Unavailable))
    else work
  }

  // --- reserve ---------------------------------------------------------------

  predicate Upgraded(version: Option<int>) {
    version == Some(LEDGER_VERSION)
  }

  /** Why a new reservation is refused, if it is. */
  function Refusal(s: State, who: Identity, need: int, now: int): Option<LedgerError> {
    if who.userId !in s.users || !s.users[who.userId].enabled || who.tokenId !in s.tokens then Some(Forbidden)
    else
      var user, token := s.users[who.userId], s.tokens[who.tokenId];
      if token.userId != who.userId || !token.enabled || (token.expiresAt.Some? && token.expiresAt.value <= now) then
        Some(Forbidden)
      else if !Upgraded(user.version) || !Upgraded(token.version) then Some(MigrationRequired)
      else if !IsSafe(user.quota) || !IsSafe(token.quota) then Some(Unavailable)
      else if user.quota < need || (!token.unlimitedQuota && token.quota < need) then Some(Insufficient)
      else None
  }

  function Held(s: State, who: Identity, id: Id, need: int, now: int): State
    requires Refusal(s, who, need, now) == None
  {
    var user, token := s.users[who.userId], s.tokens[who.tokenId];
    var limited := !token.unlimitedQuota;
    State(
      s.users[who.userId := user.(quota := user.quota - need)],
      if limited then s.tokens[who.tokenId := token.(quota := token.quota - need)] else s.tokens,
      s.journal[id := JournalDoc(who.userId, who.tokenId, limited, Reserve, true, 0, need, now + RESERVATION_TTL_MS)],
      s.codes)
  }

  /** The same hold asked for again, while it is still pending. */
  predicate SameHold(entry: JournalDoc, who: Identity, need: int, now: int) {
    entry.userId == who.userId && entry.tokenId == who.tokenId && entry.pending && entry.reserved == need
    && entry.expiresAt > now
  }

  function ReserveWork(s: State, who: Identity, id: Id, need: int, now: int): (State, Outcome<Reservation>) {
    if id in s.journal then
      if !SameHold(s.journal[id], who, need, now) then (s, Err(InvalidRequest))
      else (s, Ok(Reservation(s.journal[id].reserved, if who.userId in s.users then s.users[who.userId].quota else 0, true)))
    else
      var refusal := Refusal(s, who, need, now);
      if refusal.Some? then (s, Err(refusal.value))
      else (Held(s, who, id, need, now), Ok(Reservation(need, s.users[who.userId].quota - need, false)))
  }

  function ReserveQuota(s: State, who: Identity, id: Id, amount: Number, degraded: bool, now: int, fault: Fault)
    : (State, Outcome<Reservation>)
  {
    if degraded then (s, Err(Unavailable))
    else
      var rounded := QuotaAmount(amount);
      if rounded.None? || id == "" || |id| > 128 then (s, Err(InvalidRequest))
      else Transacted(s, ReserveWork(s, who, id, if rounded.value < 1 then 1 else rounded.value, now), fault)
  }

  // --- complete --------------------------------------------------------------

  predicate OwnsPending(s: State, who: Identity, id: Id) {
    id in s.journal && s.journal[id].pending
    && s.journal[id].userId == who.userId && s.journal[id].tokenId == who.tokenId
  }

  function Completed(s: State, who: Identity, id: Id, charge: int, kind: Kind): State
    requires OwnsPending(s, who, id) && who.userId in s.users
  {
    var entry, user := s.journal[id], s.users[who.userId];
    var delta := entry.reserved - charge;
    State(
      s.users[who.userId := user.(quota := user.quota + delta, usedQuota := user.usedQuota + charge,
                                  requestCount := user.requestCount + if kind == Settle then 1 else 0)],
      if who.tokenId in s.tokens && s.tokens[who.tokenId].userId == who.userId then
        var token := s.tokens[who.tokenId];
        s.tokens[who.tokenId := token.(quota := token.quota + (if entry.tokenLimited then delta else 0),
                                       usedQuota := token.usedQuota + charge)]
      else s.tokens,
      s.journal[id := entry.(kind := kind, amount := charge, pending := false)],
      s.codes)
  }

  function CompleteWork(s: State, who: Identity, id: Id, charge: int, kind: Kind): (State, Outcome<Completion>) {
    if !OwnsPending(s, who, id) then
      (s, Ok(Completion(false, if who.userId in s.users then s.users[who.userId].quota else 0, 0)))
    else if who.userId !in s.users then (s, Err(Unavailable))
    else
      var entry, user := s.journal[id], s.users[who.userId];
      var delta := entry.reserved - charge;
      if !IsSafe(user.quota + delta) || !IsSafe(user.usedQuota + charge) then (s, Err(Unavailable))
      else (Completed(s, who, id, charge, kind),
            Ok(Completion(true, user.quota + delta, if kind == Release then entry.reserved else 0)))
  }

  function Complete(s: State, who: Identity, id: Id, actual: Number, kind: Kind, fault: Fault)
    : (State, Outcome<Completion>)
  {
    var charge := QuotaAmount(actual);
    if charge.None? then (s, Err(InvalidRequest))
    else Transacted(s, CompleteWork(s, who, id, charge.value, kind), fault)
  }

  // --- redeem ----------------------------------------------------------------

  function RedeemWork(s: State, userId: Id, digest: Id, now: int): (State, Outcome<int>) {
    if userId !in s.users || !s.users[userId].enabled || !Upgraded(s.users[userId].version) then (s, Err(InvalidRequest))
    else if digest !in s.codes || s.codes[digest].status != Unused
      || (s.codes[digest].expiresAt.Some? && s.codes[digest].expiresAt.value <= now) then (s, Err(InvalidRequest))
    else
      var credit, user := QuotaAmount(s.codes[digest].quota), s.users[userId];
      if credit.None? || !IsSafe(user.quota + credit.value) then (s, Err(InvalidRequest))
      else (s.(users := s.users[userId := user.(quota := user.quota + credit.value)],
               codes := s.codes[digest := s.codes[digest].(status := Used(userId))]),
            Ok(user.quota + credit.value))
  }

  function RedeemCode(s: State, userId: Id, digest: Id, now: int, fault: Fault): (State, Outcome<int>) {
    Transacted(s, RedeemWork(s, userId, digest, now), fault)
  }

  // --- the documents, updated in place -----------------------------------------

  class Ledger {
    var users: map<Id, UserDoc>
    var tokens: map<Id, TokenDoc>
    var journal: map<Id, JournalDoc>
    var codes: map<Id, CodeDoc>

    ghost function Contents(): State
      reads this
    {
      State(users, tokens, journal, codes)
    }

    /** Undo everything a transaction wrote. */
    method Abort(ghost to: State, users0: map<Id, UserDoc>, tokens0: map<Id, TokenDoc>,
                 journal0: map<Id, JournalDoc>, codes0: map<Id, CodeDoc>)
      requires to == State(users0, tokens0, journal0, codes0)
      modifies this
      ensures Contents() == to
    {
      users, tokens, journal, codes := users0, tokens0, journal0, codes0;
    }

    method Reserve(who: Identity, id: Id, amount: Number, degraded: bool, now: int, fault: Fault)
      returns (r: Outcome<Reservation>)
      modifies this
      ensures (Contents(), r) == ReserveQuota(old(Contents()), who, id, amount, degraded, now, fault)
    {
      if degraded {
        return Err(Unavailable);
      }
      var rounded := QuotaAmount(amount);
      if rounded.None? || id == "" || |id| > 128 {
        return Err(InvalidRequest);
      }
      var need := if rounded.value < 1 then 1 else rounded.value;
      if fault.FailsBeforeCommit? {
        return Err(Unavailable);
      }
      r := ReserveInside(who, id, need, now);
      if r.Ok? && fault.LosesAnswer? {
        r := Err(Unavailable);
      }
    }

    /** The work of one reservation: two debits and a journal row, or none of them. */
    method ReserveInside(who: Identity, id: Id, need: int, now: int) returns (r: Outcome<Reservation>)
      modifies this
      ensures var work := ReserveWork(old(Contents()), who, id, need, now);
        r == work.1 && Contents() == if r.Ok? then work.0 else old(Contents())
    {
      if id in journal {
        if !SameHold(journal[id], who, need, now) {
          return Err(InvalidRequest);
        }
        return Ok(Reservation(journal[id].reserved, if who.userId in users then users[who.userId].quota else 0, true));
      }
      if who.userId !in users || !users[who.userId].enabled || who.tokenId !in tokens {
        return Err(Forbidden);
      }
      var user, token := users[who.userId], tokens[who.tokenId];
      if token.userId != who.userId || !token.enabled || (token.expiresAt.Some? && token.expiresAt.value <= now) {
        return Err(Forbidden);
      }
      if !Upgraded(user.version) || !Upgraded(token.version) {
        return Err(MigrationRequired);
      }
      if !IsSafe(user.quota) || !IsSafe(token.quota) {
        return Err(Unavailable);
      }
      var tokenLimited := !token.unlimitedQuota;
      if user.quota < need || (tokenLimited && token.quota < need) {
        return Err(Insufficient);
      }
      users := users[who.userId := user.(quota := user.quota - need)];
      if tokenLimited {
        tokens := tokens[who.tokenId := token.(quota := token.quota - need)];
      }
      journal := journal[id := JournalDoc(who.userId, who.tokenId, tokenLimited, Kind.Reserve, true, 0, need, now + RESERVATION_TTL_MS)];
      return Ok(Reservation(need, user.quota - need, false));
    }

    method CompleteReservation(who: Identity, id: Id, actual: Number, kind: Kind, fault: Fault)
      returns (r: Outcome<Completion>)
      modifies this
      ensures (Contents(), r) == Complete(old(Contents()), who, id, actual, kind, fault)
    {
      var charge := QuotaAmount(actual);
      if charge.None? {
        return Err(InvalidRequest);
      }
      if fault.FailsBeforeCommit? {
        return Err(Unavailable);
      }
      r := CompleteInside(who, id, charge.value, kind);
      if r.Ok? && fault.LosesAnswer? {
        r := Err(Unavailable);
      }
    }

    method CompleteInside(who: Identity, id: Id, charge: int, kind: Kind) returns (r: Outcome<Completion>)
      modifies this
      ensures var work := CompleteWork(old(Contents()), who, id, charge, kind);
        r == work.1 && Contents() == if r.Ok? then work.0 else old(Contents())
    {
      if id !in journal || journal[id].userId != who.userId || journal[id].tokenId != who.tokenId || !journal[id].pending {
        return Ok(Completion(false, if who.userId in users then users[who.userId].quota else 0, 0));
      }
      if who.userId !in users {
        return Err(Unavailable);
      }
      var reservation, user := journal[id], users[who.userId];
      var delta := reservation.reserved - charge;
      if !IsSafe(user.quota + delta) || !IsSafe(user.usedQuota + charge) {
        return Err(Unavailable);
      }
      var requests := if kind == Settle then 1 else 0;
      users := users[who.userId := user.(quota := user.quota + delta, usedQuota := user.usedQuota + charge,
                                         requestCount := user.requestCount + requests)];
      if who.tokenId in tokens && tokens[who.tokenId].userId == who.userId {
        var token := tokens[who.tokenId];
        if reservation.tokenLimited {
          token := token.(quota := token.quota + delta);
        }
        tokens := tokens[who.tokenId := token.(usedQuota := token.usedQuota + charge)];
      }
      journal := journal[id := reservation.(kind := kind, amount := charge, pending := false)];
      return Ok(Completion(true, user.quota + delta, if kind == Release then reservation.reserved else 0));
    }

    method Redeem(userId: Id, digest: Id, now: int, fault: Fault) returns (r: Outcome<int>)
      modifies this
      ensures (Contents(), r) == RedeemCode(old(Contents()), userId, digest, now, fault)
    {
      if fault.FailsBeforeCommit? {
        return Err(Unavailable);
      }
      if userId !in users || !users[userId].enabled || !Upgraded(users[userId].version) {
        return Err(InvalidRequest);
      }
      if digest !in codes || codes[digest].status != Unused
        || (codes[digest].expiresAt.Some? && codes[digest].expiresAt.value <= now)
      {
        return Err(InvalidRequest);
      }
      var claimed, user := codes[digest], users[userId];
      var users0, tokens0, journal0, codes0 := users, tokens, journal, codes;
      codes := codes[digest := claimed.(status := Used(userId))];
      var credit := QuotaAmount(claimed.quota);
      if credit.None? || !IsSafe(user.quota + credit.value) {
        Abort(old(Contents()), users0, tokens0, journal0, codes0);
        return Err(InvalidRequest);
      }
      users := users[userId := user.(quota := user.quota + credit.value)];
      return if fault.LosesAnswer? then Err(Unavailable) else Ok(user.quota + credit.value);
    }
  }
}
