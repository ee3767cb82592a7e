/** What finalizing, releasing and replaying charge, in the terms of the request that was served. */
module SettlementCharges {
  import opened QuotaLedger
  import opened LedgerRuns
  import opened LedgerCharges
  import opened SettlementReplay

  /** Nothing to charge is a release, anything else a settlement. */
  predicate KindFits(kind: Kind, actual: Number) {
    kind == if actual == Finite(0.0) then Release else Settle
  }

  lemma KindOfFits(actual: Number)
    ensures KindFits(KindOf(actual), actual)
  {
  }

  /**
   * Finalizing completes the caller's hold with the measured amount and releasing with nothing; what
   * the database did not confirm is buffered at the end, as it was asked for, if the buffer is reached.
   */
  lemma FinalizingCompletes(o: Outbox, who: Identity, id: Id, actual: Number, kind: Kind, fault: Fault, pushed: bool)
    requires KindFits(kind, actual)
    ensures var after := NextOutbox(o, Finalize(who, id, actual, fault, pushed));
      && after.ledger == Next(o.ledger, CompleteStep(who, id, actual, kind, fault))
      && after.q.queue == o.q.queue + (if pushed && Complete(o.ledger, who, id, actual, kind, fault).1 == Err(Unavailable)
                                       then [Entry(id, who.userId, who.tokenId, actual)] else [])
    ensures actual == Finite(0.0) ==> NextOutbox(o, ReleaseHold(who, id, fault, pushed)) == NextOutbox(o, Finalize(who, id, actual, fault, pushed))
  {
    KindOfFits(actual);
    assert o.q.queue + [] == o.q.queue;
  }

  lemma OtherHoldKept(s: State, who: Identity, id: Id, actual: Number, kind: Kind, fault: Fault, other: Id)
    requires other != id && other in s.journal
    ensures var after := Complete(s, who, id, actual, kind, fault).0; other in after.journal && after.journal[other] == s.journal[other]
  {
    CompleteEffect(s, who, id, actual, kind, fault);
  }

  lemma {:induction false} ReplayKeepsClosed(s: State, entries: seq<Entry>, faults: nat -> Fault, k: nat, id: Id)
    requires k <= |entries| && Closed(s, id)
    ensures var end := Replay(s, entries, faults, k).0; id in end.journal && end.journal[id] == s.journal[id]
    decreases |entries| - k
  {
    if k < |entries| {
      var e := entries[k];
      var step := CompleteStep(WhoOf(e), e.requestId, e.actual, KindOf(e.actual), faults(k));
      StepContinues(s, step, id);
      if Named(e) && Complete(s, step.who, step.id, step.actual, step.kind, step.fault).1.Ok? {
        ReplayKeepsClosed(Next(s, step), entries, faults, k + 1, id);
      }
    }
  }

  /** An answered completion of one's own pending hold charges its amount. */
  lemma AnsweredCharges(s: State, e: Entry, fault: Fault) returns (charge: int)
    requires Owned(s, e) && s.journal[e.requestId].pending
    requires Complete(s, WhoOf(e), e.requestId, e.actual, KindOf(e.actual), fault).1.Ok?
    ensures RoundedUp(charge, e.actual)
    ensures var row := Complete(s, WhoOf(e), e.requestId, e.actual, KindOf(e.actual), fault).0.journal;
      e.requestId in row && !row[e.requestId].pending && row[e.requestId].amount == charge && KindFits(row[e.requestId].kind, e.actual)
  {
    charge := QuotaAmount(e.actual).value;
    KindOfFits(e.actual);
    CompletionAnswers(s, WhoOf(e), e.requestId, e.actual, charge, KindOf(e.actual), fault);
  }

  /**
   * A batch that was replayed to its end charged each hold that was still pending what its first
   * entry measured, rounded up, and as a release exactly when that was nothing.
   */
  lemma {:induction false} ReplayCharges(s: State, entries: seq<Entry>, faults: nat -> Fault, k: nat, i: nat) returns (charge: int)
    requires k <= i < |entries| && Replay(s, entries, faults, k).1.Ok?
    requires Owned(s, entries[i]) && s.journal[entries[i].requestId].pending
    requires forall j :: k <= j < i ==> entries[j].requestId != entries[i].requestId
    ensures RoundedUp(charge, entries[i].actual)
    ensures var end := Replay(s, entries, faults, k).0.journal;
      && entries[i].requestId in end && !end[entries[i].requestId].pending
      && end[entries[i].requestId].amount == charge && KindFits(end[entries[i].requestId].kind, entries[i].actual)
    decreases |entries| - k
  {
    var e := entries[k];
    var after := Complete(s, WhoOf(e), e.requestId, e.actual, KindOf(e.actual), faults(k)).0;
    if k < i {
      OtherHoldKept(s, WhoOf(e), e.requestId, e.actual, KindOf(e.actual), faults(k), entries[i].requestId);
      charge := ReplayCharges(after, entries, faults, k + 1, i);
    } else {
      charge := AnsweredCharges(s, e, faults(k));
      ReplayKeepsClosed(after, entries, faults, k + 1, e.requestId);
    }
  }

  /** A batch with an entry that lacks one of its ids is not replayed to its end. */
  lemma {:induction false} UnnamedStopsReplay(s: State, entries: seq<Entry>, faults: nat -> Fault, k: nat, i: nat)
    requires k <= i < |entries|
    requires entries[i].requestId == "" || entries[i].userId == "" || entries[i].tokenId == ""
    ensures Replay(s, entries, faults, k).1.Err?
    decreases |entries| - k
  {
    if k < i {
      var e := entries[k];
      UnnamedStopsReplay(Complete(s, WhoOf(e), e.requestId, e.actual, KindOf(e.actual), faults(k)).0, entries, faults, k + 1, i);
    }
  }
}
