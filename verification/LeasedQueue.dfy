/**
 * A shared queue drained by any number of workers under an expiring, owner-checked lock:
 * take the lock, peek a prefix, commit every peeked item elsewhere, then acknowledge the prefix.
 * Both the usage buffer and the settlement buffer are drained this way.
 *
 * One step is one atomic operation of the shared store. A worker may stop for good between any two
 * of its steps, its lease may run out at any time, and items may be pushed at any time. What
 * "committed" means is the reader's: `done` says it of an item, and may only grow.
 */
module LeasedQueue {

  /** A worker's random lock value; never used twice. */
  type Owner = nat

  datatype Lock = Free | HeldBy(owner: Owner, expiresAt: int)

  datatype Phase<Item> =
    | Started
    | Peeked(items: seq<Item>)
    | Committed(items: seq<Item>)
    | Acked(items: seq<Item>)
    | Stopped

  datatype System<Item> = System(queue: seq<Item>, lock: Lock, now: int, workers: map<Owner, Phase<Item>>)

  datatype Step<Item> =
    | Push(item: Item)
    | Tick(ms: nat)
    | Acquire(w: Owner, ttl: int)
    | Peek(w: Owner, limit: int)
    | Commit(w: Owner)
    | Ack(w: Owner)
    | Release(w: Owner)
    | Crash(w: Owner)

  /** The lock value a reader sees: an expired lock is no lock. */
  predicate Holds<Item>(s: System<Item>, w: Owner) {
    s.lock.HeldBy? && s.lock.owner == w && s.lock.expiresAt > s.now
  }

  predicate Locked<Item>(s: System<Item>) {
    s.lock.HeldBy? && s.lock.expiresAt > s.now
  }

  const MAX_BATCH := 1000

  /** How many entries one flush asks for: at least one, at most a thousand. */
  function BatchSize(limit: int): (n: nat)
    ensures 1 <= n <= 1000 && (n < limit ==> n == 1000) && (n > limit ==> n == 1)
  {
    if limit < 1 then 1 else if limit > MAX_BATCH then MAX_BATCH else limit
  }

  function AtMost(limit: int, length: nat): (n: nat)
    ensures n <= length && n <= 1000 && (limit >= 1 ==> n <= limit)
    ensures n == length || n == 1000 || n == limit || (n == 1 && limit < 1)
  {
    if BatchSize(limit) < length then BatchSize(limit) else length
  }

  /** LTRIM from `n` to the end. */
  function TrimFront<Item>(queue: seq<Item>, n: nat): seq<Item> {
    if n <= |queue| then queue[n..] else []
  }

  function PhaseOf<Item>(s: System<Item>, w: Owner): Phase<Item> {
    if w in s.workers then s.workers[w] else Stopped
  }

  /** When a step can happen. A commit needs every peeked item committed. */
  ghost predicate Enabled<Item(!new)>(s: System<Item>, step: Step<Item>, done: Item -> bool) {
    match step
    case Push(_) => true
    case Tick(_) => true
    case Acquire(w, _) => w !in s.workers
    case Peek(w, _) => PhaseOf(s, w) == Started
    case Commit(w) => PhaseOf(s, w).Peeked? && forall item :: item in PhaseOf(s, w).items ==> done(item)
    case Ack(w) => PhaseOf(s, w).Committed?
    case Release(w) => !PhaseOf(s, w).Stopped?
    case Crash(w) => w in s.workers
  }

  function Apply<Item>(s: System<Item>, step: Step<Item>): System<Item> {
    match step
    case Push(item) => s.(queue := s.queue + [item])
    case Tick(ms) => s.(now := s.now + ms)
    case Acquire(w, ttl) =>
      if Locked(s) then s.(workers := s.workers[w := Stopped])
      else s.(lock := HeldBy(w, s.now + ttl), workers := s.workers[w := Started])
    case Peek(w, limit) => s.(workers := s.workers[w := Peeked(s.queue[..AtMost(limit, |s.queue|)])])
    case Commit(w) =>
      if PhaseOf(s, w).Peeked? then s.(workers := s.workers[w := Committed(PhaseOf(s, w).items)]) else s
    case Ack(w) =>
      if !PhaseOf(s, w).Committed? then s
      else
        var items := PhaseOf(s, w).items;
        if Holds(s, w) then
          s.(queue := TrimFront(s.queue, |items|), lock := Free, workers := s.workers[w := Acked(items)])
        else s.(workers := s.workers[w := Acked(items)])
    case Release(w) => s.(lock := if Holds(s, w) then Free else s.lock, workers := s.workers[w := Stopped])
    case Crash(w) => s.(workers := s.workers[w := Stopped])
  }

  ghost predicate Grows<Item(!new)>(was: Item -> bool, done: Item -> bool) {
    forall item :: was(item) ==> done(item)
  }

  predicate Pending<Item>(phase: Phase<Item>) {
    phase.Peeked? || phase.Committed?
  }

  /** While a worker still owns the lock, what it peeked is still the front of the queue. */
  ghost predicate Inv<Item(!new)>(s: System<Item>, pushed: set<Item>, done: Item -> bool) {
    && (s.lock.HeldBy? ==> s.lock.owner in s.workers)
    && (forall w :: w in s.workers && Pending(s.workers[w]) && s.lock.HeldBy? && s.lock.owner == w ==>
          s.workers[w].items <= s.queue)
    && (forall w, item :: w in s.workers && s.workers[w].Committed? && item in s.workers[w].items ==> done(item))
    && (forall item :: item in pushed ==> item in s.queue || done(item))
  }

  ghost function PushedBy<Item>(pushed: set<Item>, step: Step<Item>): set<Item> {
    if step.Push? then pushed + {step.item} else pushed
  }

  lemma DoneMayGrow<Item(!new)>(s: System<Item>, pushed: set<Item>, was: Item -> bool, done: Item -> bool)
    requires Inv(s, pushed, was) && Grows(was, done)
    ensures Inv(s, pushed, done)
  {
  }

  lemma AckTrimsPeeked<Item(!new)>(s: System<Item>, w: Owner, pushed: set<Item>, done: Item -> bool)
    requires Inv(s, pushed, done) && PhaseOf(s, w).Committed?
    ensures var items, after := PhaseOf(s, w).items, Apply(s, Ack(w));
      if Holds(s, w) then s.queue == items + after.queue else after.queue == s.queue && after.lock == s.lock
  {
    assert Pending(s.workers[w]);
  }

  lemma AckKeepsInv<Item(!new)>(s: System<Item>, w: Owner, pushed: set<Item>, done: Item -> bool)
    requires Inv(s, pushed, done) && PhaseOf(s, w).Committed?
    ensures Inv(Apply(s, Ack(w)), pushed, done)
  {
    AckTrimsPeeked(s, w, pushed, done);
    var items, after := PhaseOf(s, w).items, Apply(s, Ack(w));
    forall item | item in pushed
      ensures item in after.queue || done(item)
    {
      if item in s.queue && Holds(s, w) {
        assert item in items || item in after.queue;
      }
    }
  }

  lemma StepKeepsInv<Item(!new)>(s: System<Item>, step: Step<Item>, pushed: set<Item>, done: Item -> bool)
    requires Inv(s, pushed, done) && Enabled(s, step, done)
    ensures Inv(Apply(s, step), PushedBy(pushed, step), done)
  {
    match step
    case Push(item) => PushKeepsInv(s, item, pushed, done);
    case Ack(w) => AckKeepsInv(s, w, pushed, done);
    case Peek(w, limit) => PeekKeepsInv(s, w, limit, pushed, done);
    case Tick(_) =>
    case Acquire(_, _) =>
    case Commit(_) =>
    case Release(_) =>
    case Crash(_) =>
  }

  lemma PushKeepsInv<Item(!new)>(s: System<Item>, item: Item, pushed: set<Item>, done: Item -> bool)
    requires Inv(s, pushed, done)
    ensures Inv(Apply(s, Push(item)), pushed + {item}, done)
  {
    var after := Apply(s, Push(item));
    assert after.queue[|s.queue|] == item;
    assert forall x :: x in s.queue ==> x in after.queue;
  }

  lemma PeekKeepsInv<Item(!new)>(s: System<Item>, w: Owner, limit: int, pushed: set<Item>, done: Item -> bool)
    requires Inv(s, pushed, done) && PhaseOf(s, w) == Started
    ensures Inv(Apply(s, Peek(w, limit)), pushed, done)
  {
    var after := Apply(s, Peek(w, limit));
    assert after.workers[w].items <= s.queue;
  }

  // --- whole runs ----------------------------------------------------------------

  /** A run: states, what was done by then, and the steps between. */
  ghost predicate IsRun<Item(!new)>(ss: seq<System<Item>>, ds: seq<Item -> bool>, steps: seq<Step<Item>>) {
    && |ss| == |ds| == |steps| + 1
    && ss[0].lock == Free && ss[0].queue == [] && ss[0].workers == map[]
    && (forall k :: 0 <= k < |steps| ==>
          && Enabled(ss[k], steps[k], ds[k])
          && ss[k + 1] == Apply(ss[k], steps[k])
          && Grows(ds[k], ds[k + 1]))
  }

  ghost function PushedIn<Item>(steps: seq<Step<Item>>, k: nat): set<Item>
    requires k <= |steps|
  {
    if k == 0 then {} else PushedBy(PushedIn(steps, k - 1), steps[k - 1])
  }

  lemma {:induction false} RunKeepsInv<Item(!new)>(ss: seq<System<Item>>, ds: seq<Item -> bool>, steps: seq<Step<Item>>, k: nat)
    requires IsRun(ss, ds, steps) && k <= |steps|
    ensures Inv(ss[k], PushedIn(steps, k), ds[k])
  {
    if k > 0 {
      RunKeepsInv(ss, ds, steps, k - 1);
      StepKeepsInv(ss[k - 1], steps[k - 1], PushedIn(steps, k - 1), ds[k - 1]);
      DoneMayGrow(ss[k], PushedIn(steps, k), ds[k - 1], ds[k]);
    }
  }

  /** Nothing pushed is ever lost: it is still queued or it has been committed. */
  lemma NothingLost<Item(!new)>(ss: seq<System<Item>>, ds: seq<Item -> bool>, steps: seq<Step<Item>>, j: nat, k: nat)
    requires IsRun(ss, ds, steps) && j < k <= |steps| && steps[j].Push?
    ensures steps[j].item in ss[k].queue || ds[k](steps[j].item)
  {
    RunKeepsInv(ss, ds, steps, k);
    PushedStays(steps, j, k);
  }

  lemma {:induction false} PushedStays<Item(!new)>(steps: seq<Step<Item>>, j: nat, k: nat)
    requires j < k <= |steps| && steps[j].Push?
    ensures steps[j].item in PushedIn(steps, k)
  {
    if j + 1 < k {
      PushedStays(steps, j, k - 1);
    }
  }

  /**
   * In every run an acknowledgement removes exactly what its worker peeked, from the front, or
   * leaves queue and lock alone because the worker no longer owns the lock.
   */
  lemma AckIsExact<Item(!new)>(ss: seq<System<Item>>, ds: seq<Item -> bool>, steps: seq<Step<Item>>, k: nat)
    requires IsRun(ss, ds, steps) && k < |steps| && steps[k].Ack?
    ensures var w := steps[k].w;
      && PhaseOf(ss[k], w).Committed?
      && if Holds(ss[k], w) then ss[k].queue == PhaseOf(ss[k], w).items + ss[k + 1].queue
         else ss[k + 1].queue == ss[k].queue && ss[k + 1].lock == ss[k].lock
  {
    RunKeepsInv(ss, ds, steps, k);
    AckTrimsPeeked(ss[k], steps[k].w, PushedIn(steps, k), ds[k]);
  }

  function PushAll<Item>(s: System<Item>, items: seq<Item>): System<Item>
    decreases |items|
  {
    if items == [] then s else PushAll(Apply(s, Push(items[0])), items[1..])
  }

  lemma {:induction false} PushAllAppends<Item>(s: System<Item>, items: seq<Item>)
    ensures PushAll(s, items) == s.(queue := s.queue + items)
    decreases |items|
  {
    if items == [] {
      assert s.queue + items == s.queue;
    } else {
      PushAllAppends(Apply(s, Push(items[0])), items[1..]);
      assert s.queue + [items[0]] + items[1..] == s.queue + items;
    }
  }

  /** A worker that never lost its lock empties the front of the queue; pushes meanwhile stay. */
  lemma UndisturbedFlush<Item(!new)>(s: System<Item>, w: Owner, ttl: int, limit: int, early: seq<Item>, late: seq<Item>)
    requires w !in s.workers && !Locked(s) && ttl > 0
    ensures var peeked := Apply(Apply(s, Acquire(w, ttl)), Peek(w, limit));
      var committed := PushAll(Apply(PushAll(peeked, early), Commit(w)), late);
      var end := Apply(Apply(committed, Ack(w)), Release(w));
      var n := AtMost(limit, |s.queue|);
      end.queue == s.queue[n..] + early + late && end.lock == Free
  {
    var n := AtMost(limit, |s.queue|);
    var peeked := Apply(Apply(s, Acquire(w, ttl)), Peek(w, limit));
    PushAllAppends(peeked, early);
    PushAllAppends(Apply(PushAll(peeked, early), Commit(w)), late);
    assert n <= |s.queue| && |s.queue[..n]| == n;
    RestOf(s.queue, early, late, n);
  }

  lemma RestOf<Item>(queue: seq<Item>, early: seq<Item>, late: seq<Item>, n: nat)
    requires n <= |queue|
    ensures (queue + early + late)[n..] == queue[n..] + early + late
  {
  }

  /** A live lock keeps everyone else out: only its owner's acknowledgement or release, or time, takes it away. */
  lemma LiveLockStays<Item>(s: System<Item>, w: Owner, step: Step<Item>)
    requires Holds(s, w) && step != Ack(w) && step != Release(w)
    ensures var after := Apply(s, step);
      && after.lock == s.lock
      && (Holds(after, w) <==> !(step.Tick? && s.now + step.ms >= s.lock.expiresAt))
      && (step.Acquire? ==> after.workers == s.workers[step.w := Stopped])
      && (!step.Push? ==> after.queue == s.queue)
  {
  }

  /** A worker that finds no live lock owns it from then on for its time to live. */
  lemma FreeLockIsTaken<Item>(s: System<Item>, w: Owner, ttl: int)
    requires s.lock == Free || s.lock.expiresAt <= s.now
    ensures var after := Apply(s, Acquire(w, ttl)); after == System(s.queue, HeldBy(w, s.now + ttl), s.now, s.workers[w := Started])
  {
  }
}
