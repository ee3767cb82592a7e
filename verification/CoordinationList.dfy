/**
 * Lists kept as one document per position, with a head, a tail and a generation in a key document.
 * A reaper deletes expired documents of either collection at any time and in any order. Seen
 * through the operations the documents are a plain list with an expiry: the refinement target is
 * one `Cell` per key.
 */
module CoordinationList {
  import opened Options

  type Key = string
  type Generation = string

  const MAX_SAFE := 9007199254740991
  const MAX_LIST_READ := 1000
  const MAX_DATE := 8_640_000_000_000_000

  type Expiry = Option<int>

  datatype KeyDoc =
    | ListDoc(expiresAt: Expiry, head: int, tail: int, generation: Generation)
    | ValueDoc(expiresAt: Expiry)

  /** The identity of a row; the source stores a digest of these three. */
  datatype RowId = RowId(key: Key, generation: Generation, position: int)

  datatype RowDoc = RowDoc(value: string, expiresAt: Expiry)

  type Rows = map<RowId, RowDoc>

  datatype Store = Store(keys: map<Key, KeyDoc>, rows: Rows, now: int)

  datatype Error = WrongType | PositionOverflow | CountOutOfRange | ReadTooLarge | InvalidExpiry | Inconsistent

  datatype Reply = Length(n: int) | Values(values: seq<string>) | Single(value: Option<string>) | Status | Failed(error: Error)

  predicate Expired(expiresAt: Expiry, now: int) {
    expiresAt.Some? && expiresAt.value <= now
  }

  // --- what the documents mean ---------------------------------------------------------

  /** The values at positions `lo..hi` that have a row, in order: a sorted range query. */
  function Found(rows: Rows, key: Key, generation: Generation, lo: int, hi: int): seq<string>
    decreases hi - lo
  {
    if lo > hi then []
    else
      var id := RowId(key, generation, lo);
      (if id in rows then [rows[id].value] else []) + Found(rows, key, generation, lo + 1, hi)
  }

  /** Every position of the range has a row with the given expiry. */
  ghost predicate Full(rows: Rows, key: Key, generation: Generation, lo: int, hi: int, expiresAt: Expiry) {
    forall p :: lo <= p <= hi ==>
      RowId(key, generation, p) in rows && rows[RowId(key, generation, p)].expiresAt == expiresAt
  }

  /** The rows of a live list fill exactly head..tail and share the key's expiry. */
  ghost predicate ListOk(doc: KeyDoc, key: Key, rows: Rows)
    requires doc.ListDoc?
  {
    && doc.head <= doc.tail
    && Full(rows, key, doc.generation, doc.head, doc.tail, doc.expiresAt)
    && (forall id: RowId :: id in rows && id.key == key && id.generation == doc.generation ==> doc.head <= id.position <= doc.tail)
  }

  predicate LiveKey(s: Store, key: Key) {
    key in s.keys && !Expired(s.keys[key].expiresAt, s.now)
  }

  ghost predicate Sound(s: Store) {
    forall key :: LiveKey(s, key) && s.keys[key].ListDoc? ==> ListOk(s.keys[key], key, s.rows)
  }

  datatype Cell = Absent | List(values: seq<string>, expiresAt: Expiry) | Scalar(expiresAt: Expiry)

  /** What an operation can see of a key. */
  function CellOf(s: Store, key: Key): Cell {
    if !LiveKey(s, key) then Absent
    else
      match s.keys[key]
      case ListDoc(expiresAt, head, tail, generation) => List(Found(s.rows, key, generation, head, tail), expiresAt)
      case ValueDoc(expiresAt) => Scalar(expiresAt)
  }

  // --- the list operations, on a cell ---------------------------------------------------

  function Reverse(vs: seq<string>): seq<string> {
    if vs == [] then [] else Reverse(vs[1..]) + [vs[0]]
  }

  function ValuesOf(c: Cell): seq<string> {
    if c.List? then c.values else []
  }

  function ExpiryOf(c: Cell): Expiry {
    if c.Absent? then None else c.expiresAt
  }

  datatype Side = Left | Right

  function Pushed(c: Cell, side: Side, vs: seq<string>): Cell {
    List(if side == Right then ValuesOf(c) + vs else Reverse(vs) + ValuesOf(c), ExpiryOf(c))
  }

  function ListOrAbsent(vs: seq<string>, expiresAt: Expiry): Cell {
    if vs == [] then Absent else List(vs, expiresAt)
  }

  /** The range of a list an index pair names, clamped to the list. */
  function FirstIndex(length: nat, from: int): int {
    var first := if from < 0 then length + from else from;
    if first < 0 then 0 else first
  }

  function LastIndex(length: nat, to: int): int {
    var last := if to < 0 then length + to else to;
    if last > length - 1 then length - 1 else last
  }

  function Slice(vs: seq<string>, from: int, to: int): seq<string> {
    var first, last := FirstIndex(|vs|, from), LastIndex(|vs|, to);
    if first > last then [] else vs[first..last + 1]
  }

  // --- range queries --------------------------------------------------------------------

  lemma {:induction false} FoundFull(rows: Rows, key: Key, generation: Generation, lo: int, hi: int, expiresAt: Expiry)
    requires Full(rows, key, generation, lo, hi, expiresAt) && lo <= hi + 1
    ensures |Found(rows, key, generation, lo, hi)| == hi - lo + 1
    decreases hi - lo
  {
    if lo <= hi {
      FoundFull(rows, key, generation, lo + 1, hi, expiresAt);
    }
  }

  lemma {:induction false} FoundSplit(rows: Rows, key: Key, generation: Generation, lo: int, mid: int, hi: int)
    requires lo <= mid <= hi + 1
    ensures Found(rows, key, generation, lo, hi)
         == Found(rows, key, generation, lo, mid - 1) + Found(rows, key, generation, mid, hi)
    decreases mid - lo
  {
    if lo < mid {
      FoundSplit(rows, key, generation, lo + 1, mid, hi);
    }
  }

  /** Rows outside the range, or of another key or generation, are not seen. */
  lemma {:induction false} FoundFrame(rows: Rows, rows': Rows, key: Key, generation: Generation, lo: int, hi: int)
    requires forall p {:trigger RowId(key, generation, p)} :: lo <= p <= hi ==>
      var id := RowId(key, generation, p);
      (id in rows <==> id in rows') && (id in rows ==> rows[id].value == rows'[id].value)
    ensures Found(rows, key, generation, lo, hi) == Found(rows', key, generation, lo, hi)
    decreases hi - lo
  {
    if lo <= hi {
      var id := RowId(key, generation, lo);
      assert (id in rows <==> id in rows') && (id in rows ==> rows[id].value == rows'[id].value);
      FoundFrame(rows, rows', key, generation, lo + 1, hi);
    }
  }

  /** A sub-range of a full range reads the corresponding slice. */
  lemma FoundSlice(rows: Rows, key: Key, generation: Generation, lo: int, hi: int, from: int, to: int, expiresAt: Expiry)
    requires Full(rows, key, generation, lo, hi, expiresAt) && lo <= from <= to <= hi
    ensures |Found(rows, key, generation, lo, hi)| == hi - lo + 1
    ensures Found(rows, key, generation, from, to) == Found(rows, key, generation, lo, hi)[from - lo..to - lo + 1]
  {
    var before, inside := Found(rows, key, generation, lo, from - 1), Found(rows, key, generation, from, to);
    var after := Found(rows, key, generation, to + 1, hi);
    FoundSplit(rows, key, generation, lo, from, hi);
    FoundSplit(rows, key, generation, from, to + 1, hi);
    FoundLengths(rows, key, generation, lo, hi, from, to, expiresAt);
    MiddleSlice(before, inside, after, from - lo, to - lo + 1);
  }

  lemma FoundLengths(rows: Rows, key: Key, generation: Generation, lo: int, hi: int, from: int, to: int, expiresAt: Expiry)
    requires Full(rows, key, generation, lo, hi, expiresAt) && lo <= from <= to <= hi
    ensures |Found(rows, key, generation, lo, hi)| == hi - lo + 1
    ensures |Found(rows, key, generation, lo, from - 1)| == from - lo
    ensures |Found(rows, key, generation, from, to)| == to - from + 1
  {
    FoundFull(rows, key, generation, lo, hi, expiresAt);
    FoundFull(rows, key, generation, lo, from - 1, expiresAt);
    FoundFull(rows, key, generation, from, to, expiresAt);
  }

  lemma MiddleSlice(before: seq<string>, inside: seq<string>, after: seq<string>, i: int, j: int)
    requires i == |before| && j == |before| + |inside|
    ensures (before + (inside + after))[i..j] == inside
  {
  }

  // --- other keys, the clock and the reaper -----------------------------------------------

  /** The stores differ at most in the documents of one key. */
  ghost predicate OnlyKey(s: Store, s': Store, key: Key) {
    && s'.now == s.now
    && (forall k :: k != key ==> (k in s.keys <==> k in s'.keys) && (k in s.keys ==> s.keys[k] == s'.keys[k]))
    && (forall id: RowId :: id.key != key ==> (id in s.rows <==> id in s'.rows) && (id in s.rows ==> s.rows[id] == s'.rows[id]))
  }

  lemma OtherCellsKept(s: Store, s': Store, key: Key, k: Key)
    requires OnlyKey(s, s', key) && k != key
    ensures CellOf(s', k) == CellOf(s, k)
  {
    if LiveKey(s, k) && s.keys[k].ListDoc? {
      var doc := s.keys[k];
      assert forall p {:trigger RowId(k, doc.generation, p)} :: RowId(k, doc.generation, p).key != key;
      FoundFrame(s.rows, s'.rows, k, doc.generation, doc.head, doc.tail);
    }
  }

  lemma SoundExcept(s: Store, s': Store, key: Key)
    requires Sound(s) && OnlyKey(s, s', key)
    requires LiveKey(s', key) && s'.keys[key].ListDoc? ==> ListOk(s'.keys[key], key, s'.rows)
    ensures Sound(s')
  {
    forall k | LiveKey(s', k) && s'.keys[k].ListDoc?
      ensures ListOk(s'.keys[k], k, s'.rows)
    {
      if k != key {
        var doc := s.keys[k];
        assert ListOk(doc, k, s.rows);
        forall p | doc.head <= p <= doc.tail
          ensures RowId(k, doc.generation, p) in s'.rows && s'.rows[RowId(k, doc.generation, p)].expiresAt == doc.expiresAt
        {
          assert RowId(k, doc.generation, p).key != key;
        }
      }
    }
  }

  /** Time passes. */
  function Later(s: Store, ms: nat): Store {
    s.(now := s.now + ms)
  }

  lemma TimeKeepsSound(s: Store, ms: nat)
    requires Sound(s)
    ensures Sound(Later(s, ms))
    ensures forall key :: CellOf(Later(s, ms), key) == if Expired(ExpiryOf(CellOf(s, key)), s.now + ms) then Absent else CellOf(s, key)
  {
  }

  /** The reaper removes some expired documents: any keys, any rows, no order between them. */
  function Reaped(s: Store, keys: set<Key>, ids: set<RowId>): Store {
    Store(
      map k | k in s.keys && !(k in keys && Expired(s.keys[k].expiresAt, s.now)) :: s.keys[k],
      map id | id in s.rows && !(id in ids && Expired(s.rows[id].expiresAt, s.now)) :: s.rows[id],
      s.now)
  }

  /** No operation can tell whether the reaper ran. */
  lemma ReaperIsUnseen(s: Store, keys: set<Key>, ids: set<RowId>)
    requires Sound(s)
    ensures Sound(Reaped(s, keys, ids))
    ensures forall key :: CellOf(Reaped(s, keys, ids), key) == CellOf(s, key)
  {
    var s' := Reaped(s, keys, ids);
    forall key
      ensures LiveKey(s', key) == LiveKey(s, key)
      ensures LiveKey(s, key) && s.keys[key].ListDoc? ==> ListOk(s'.keys[key], key, s'.rows)
      ensures CellOf(s', key) == CellOf(s, key)
    {
      if LiveKey(s, key) && s.keys[key].ListDoc? {
        var doc := s.keys[key];
        assert ListOk(doc, key, s.rows);
        FoundFrame(s.rows, s'.rows, key, doc.generation, doc.head, doc.tail);
      }
    }
  }
}
