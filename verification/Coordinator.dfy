/** The coordination commands, working on the documents in place; each call is one transaction. */
module Coordinator {
  import opened Options
  import opened CoordinationList
  import Q = LeasedQueue

  /** The rows of a generation fill head..tail, possibly nothing, and nothing else. */
  ghost predicate Filled(rows: Rows, key: Key, generation: Generation, head: int, tail: int, expiresAt: Expiry) {
    && head <= tail + 1
    && Full(rows, key, generation, head, tail, expiresAt)
    && (forall id: RowId :: id in rows && id.key == key && id.generation == generation ==> head <= id.position <= tail)
  }

  ghost predicate Fresh(s: Store, generation: Generation) {
    forall id: RowId :: id in s.rows ==> id.generation != generation
  }

  lemma {:induction false} ReverseSnoc(vs: seq<string>, v: string)
    ensures Reverse(vs + [v]) == [v] + Reverse(vs)
  {
    if vs == [] {
      assert vs + [v] == [v];
    } else {
      assert (vs + [v])[1..] == vs[1..] + [v];
      ReverseSnoc(vs[1..], v);
    }
  }

  /** One inserted row lengthens the list at its end. */
  lemma InsertRight(rows: Rows, key: Key, generation: Generation, head: int, tail: int, expiresAt: Expiry, v: string)
    requires Filled(rows, key, generation, head, tail, expiresAt)
    ensures var after := rows[RowId(key, generation, tail + 1) := RowDoc(v, expiresAt)];
      && Filled(after, key, generation, head, tail + 1, expiresAt)
      && Found(after, key, generation, head, tail + 1) == Found(rows, key, generation, head, tail) + [v]
  {
    var after := rows[RowId(key, generation, tail + 1) := RowDoc(v, expiresAt)];
    FoundSplit(after, key, generation, head, tail + 1, tail + 1);
    FoundFrame(rows, after, key, generation, head, tail);
    assert Found(after, key, generation, tail + 2, tail + 1) == [];
    assert Found(after, key, generation, tail + 1, tail + 1) == [v] + [];
  }

  lemma InsertLeft(rows: Rows, key: Key, generation: Generation, head: int, tail: int, expiresAt: Expiry, v: string)
    requires Filled(rows, key, generation, head, tail, expiresAt)
    ensures var after := rows[RowId(key, generation, head - 1) := RowDoc(v, expiresAt)];
      && Filled(after, key, generation, head - 1, tail, expiresAt)
      && Found(after, key, generation, head - 1, tail) == [v] + Found(rows, key, generation, head, tail)
  {
    var after := rows[RowId(key, generation, head - 1) := RowDoc(v, expiresAt)];
    FoundFrame(rows, after, key, generation, head, tail);
  }

  /** Deleting the rows outside a sub-range keeps exactly that sub-range. */
  function Without(rows: Rows, key: Key, generation: Generation, lo: int, hi: int): Rows {
    map id: RowId | id in rows && !(id.key == key && id.generation == generation && (id.position < lo || id.position > hi)) :: rows[id]
  }

  lemma WithoutKeeps(rows: Rows, key: Key, generation: Generation, head: int, tail: int, lo: int, hi: int, expiresAt: Expiry)
    requires Filled(rows, key, generation, head, tail, expiresAt) && head <= lo && hi <= tail && lo <= hi + 1
    ensures Filled(Without(rows, key, generation, lo, hi), key, generation, lo, hi, expiresAt)
    ensures Found(Without(rows, key, generation, lo, hi), key, generation, lo, hi) == Found(rows, key, generation, lo, hi)
  {
    FoundFrame(rows, Without(rows, key, generation, lo, hi), key, generation, lo, hi);
  }

  function Redated(rows: Rows, key: Key, generation: Generation, expiresAt: Expiry): Rows {
    map id: RowId | id in rows :: if id.key == key && id.generation == generation then rows[id].(expiresAt := expiresAt) else rows[id]
  }

  function Cleared(s: Store, key: Key): Store {
    Store(s.keys - {key}, map id: RowId | id in s.rows && id.key != key :: s.rows[id], s.now)
  }

  ghost predicate SameElsewhere(rows: Rows, rows': Rows, key: Key) {
    forall id: RowId :: id.key != key ==> (id in rows <==> id in rows') && (id in rows ==> rows[id] == rows'[id])
  }

  /** Whether the positions a push needs stay safe integers. */
  predicate RoomFor(doc: KeyDoc, side: Side, n: int)
    requires doc.ListDoc?
  {
    if side == Right then -MAX_SAFE <= doc.tail + 1 && doc.tail + n <= MAX_SAFE
    else doc.head - 1 <= MAX_SAFE && -MAX_SAFE <= doc.head - n
  }

  function PushedValues(base: seq<string>, side: Side, vs: seq<string>): seq<string> {
    if side == Right then base + vs else Reverse(vs) + base
  }

  lemma PushOneMore(base: seq<string>, side: Side, values: seq<string>, i: nat)
    requires i < |values|
    ensures PushedValues(base, side, values[..i + 1]) ==
      if side == Right then PushedValues(base, side, values[..i]) + [values[i]]
      else [values[i]] + PushedValues(base, side, values[..i])
  {
    var init, v := values[..i], values[i];
    assert values[..i + 1] == init + [v];
    if side == Right {
      assert base + (init + [v]) == base + init + [v];
    } else {
      ReverseSnoc(init, v);
      assert [v] + Reverse(init) + base == [v] + (Reverse(init) + base);
    }
  }

  /** The list document a push starts from. */
  function DocOr(s: Store, key: Key, generation: Generation): KeyDoc {
    if LiveKey(s, key) && s.keys[key].ListDoc? then s.keys[key] else ListDoc(None, 0, -1, generation)
  }

  lemma LoadedList(s: Store, key: Key, doc: KeyDoc, generation: Generation)
    requires Sound(s) && (LiveKey(s, key) || key !in s.keys) && !CellOf(s, key).Scalar?
    requires doc == DocOr(s, key, generation) && Fresh(s, generation)
    ensures Filled(s.rows, key, doc.generation, doc.head, doc.tail, doc.expiresAt)
    ensures Found(s.rows, key, doc.generation, doc.head, doc.tail) == ValuesOf(CellOf(s, key))
    ensures doc.expiresAt == ExpiryOf(CellOf(s, key))
    ensures |ValuesOf(CellOf(s, key))| == doc.tail - doc.head + 1
  {
    if LiveKey(s, key) {
      assert ListOk(doc, key, s.rows);
    }
    FoundFull(s.rows, key, doc.generation, doc.head, doc.tail, doc.expiresAt);
  }

  /** Clearing one key, from any store that differs from a sound one in that key only. */
  lemma ClearedIsSound(s: Store, changed: Store, key: Key)
    requires Sound(s) && OnlyKey(s, changed, key)
    ensures Sound(Cleared(changed, key)) && OnlyKey(s, Cleared(changed, key), key)
    ensures CellOf(Cleared(changed, key), key) == Absent
  {
    SoundExcept(s, Cleared(changed, key), key);
  }

  /** What a live list document reads as, whole and in the clamped range. */
  lemma ReadsAs(s: Store, key: Key, from: int, to: int)
    requires Sound(s) && LiveKey(s, key) && s.keys[key].ListDoc?
    ensures var doc, vs := s.keys[key], ValuesOf(CellOf(s, key));
      var first, last := FirstIndex(|vs|, from), LastIndex(|vs|, to);
      && ListOk(doc, key, s.rows)
      && |vs| == doc.tail - doc.head + 1
      && vs == Found(s.rows, key, doc.generation, doc.head, doc.tail)
      && (first > last ==> Slice(vs, from, to) == [])
      && (first <= last ==>
            && |Slice(vs, from, to)| == last - first + 1
            && Found(s.rows, key, doc.generation, doc.head + first, doc.head + last) == Slice(vs, from, to))
  {
    var doc, vs := s.keys[key], ValuesOf(CellOf(s, key));
    assert ListOk(doc, key, s.rows);
    FoundFull(s.rows, key, doc.generation, doc.head, doc.tail, doc.expiresAt);
    var first, last := FirstIndex(|vs|, from), LastIndex(|vs|, to);
    if first <= last {
      FoundSlice(s.rows, key, doc.generation, doc.head, doc.tail, doc.head + first, doc.head + last, doc.expiresAt);
    }
  }

  /** A list document narrowed to a sub-range, rows first, then the document. */
  lemma NarrowedReadsAs(s: Store, key: Key, lo: int, hi: int)
    requires Sound(s) && LiveKey(s, key) && s.keys[key].ListDoc? && s.keys[key].head <= lo <= hi <= s.keys[key].tail
    ensures var doc := s.keys[key];
      var after := Store(s.keys[key := doc.(head := lo, tail := hi)], Without(s.rows, key, doc.generation, lo, hi), s.now);
      && Sound(after) && OnlyKey(s, after, key)
      && CellOf(after, key) == List(Found(s.rows, key, doc.generation, lo, hi), doc.expiresAt)
  {
    var doc := s.keys[key];
    var after := Store(s.keys[key := doc.(head := lo, tail := hi)], Without(s.rows, key, doc.generation, lo, hi), s.now);
    assert ListOk(doc, key, s.rows);
    WithoutKeeps(s.rows, key, doc.generation, doc.head, doc.tail, lo, hi, doc.expiresAt);
    SoundExcept(s, after, key);
  }

  class Coordinator {
    var keys: map<Key, KeyDoc>
    var rows: Rows
    var now: int

    ghost function Docs(): Store
      reads this
    {
      Store(keys, rows, now)
    }

    constructor (now: int)
      ensures Sound(Docs()) && keys == map[] && rows == map[] && this.now == now
    {
      keys, rows, this.now := map[], map[], now;
    }

    /** The key document, unless it has expired: then it and its rows go. */
    method Load(key: Key) returns (record: Option<KeyDoc>)
      requires Sound(Docs())
      modifies this
      ensures Docs() == if key in old(keys) && !LiveKey(old(Docs()), key) then Cleared(old(Docs()), key) else old(Docs())
      ensures record == if LiveKey(old(Docs()), key) then Some(old(keys)[key]) else None
      ensures Sound(Docs()) && OnlyKey(old(Docs()), Docs(), key) && CellOf(Docs(), key) == CellOf(old(Docs()), key)
    {
      if key !in keys {
        return None;
      }
      if Expired(keys[key].expiresAt, now) {
        ClearedIsSound(Docs(), Docs(), key);
        Remove(key);
        return None;
      }
      return Some(keys[key]);
    }

    method Remove(key: Key)
      modifies this`keys, this`rows
      ensures Docs() == Cleared(old(Docs()), key)
    {
      keys := keys - {key};
      rows := map id: RowId | id in rows && id.key != key :: rows[id];
    }

    method Save(key: Key, doc: KeyDoc)
      modifies this`keys
      ensures keys == old(keys)[key := doc]
    {
      keys := keys[key := doc];
    }

    /** Removes the key from a sound store. */
    method Clear(key: Key)
      requires Sound(Docs())
      modifies this`keys, this`rows
      ensures Sound(Docs()) && OnlyKey(old(Docs()), Docs(), key) && CellOf(Docs(), key) == Absent
    {
      ClearedIsSound(Docs(), Docs(), key);
      Remove(key);
    }

    /** Keeps only the positions `lo..hi` of a list. */
    method Narrow(key: Key, doc: KeyDoc, lo: int, hi: int)
      requires Sound(Docs()) && LiveKey(Docs(), key) && doc == keys[key] && doc.ListDoc? && doc.head <= lo <= hi <= doc.tail
      modifies this`keys, this`rows
      ensures Sound(Docs()) && OnlyKey(old(Docs()), Docs(), key)
      ensures CellOf(Docs(), key) == List(Found(old(rows), key, doc.generation, lo, hi), doc.expiresAt)
    {
      NarrowedReadsAs(Docs(), key, lo, hi);
      rows := Without(rows, key, doc.generation, lo, hi);
      Save(key, doc.(head := lo, tail := hi));
    }

    /** Puts a transaction's documents back. */
    method Abort(keys0: map<Key, KeyDoc>, rows0: Rows)
      modifies this`keys, this`rows
      ensures keys == keys0 && rows == rows0
    {
      keys, rows := keys0, rows0;
    }

    /** One row per value, at one position after the other; false when a position is not a safe integer. */
    method InsertAll(side: Side, key: Key, doc: KeyDoc, values: seq<string>) returns (head: int, tail: int, ok: bool)
      requires doc.ListDoc? && Filled(rows, key, doc.generation, doc.head, doc.tail, doc.expiresAt)
      requires values != []
      modifies this`rows
      ensures SameElsewhere(old(rows), rows, key)
      ensures ok <==> RoomFor(doc, side, |values|)
      ensures ok ==> Filled(rows, key, doc.generation, head, tail, doc.expiresAt)
      ensures ok ==> tail - head == doc.tail - doc.head + |values|
      ensures ok ==>
        Found(rows, key, doc.generation, head, tail)
        == PushedValues(Found(old(rows), key, doc.generation, doc.head, doc.tail), side, values)
    {
      head, tail := doc.head, doc.tail;
      ghost var base := Found(rows, key, doc.generation, head, tail);
      for i := 0 to |values|
        invariant SameElsewhere(old(rows), rows, key)
        invariant Filled(rows, key, doc.generation, head, tail, doc.expiresAt)
        invariant if side == Right then head == doc.head && tail == doc.tail + i else tail == doc.tail && head == doc.head - i
        invariant i > 0 ==> RoomFor(doc, side, i)
        invariant Found(rows, key, doc.generation, head, tail) == PushedValues(base, side, values[..i])
      {
        PushOneMore(base, side, values, i);
        var position := if side == Right then tail + 1 else head - 1;
        if position > MAX_SAFE || position < -MAX_SAFE {
          return head, tail, false;
        }
        head, tail := InsertRow(side, key, doc, head, tail, values[i]);
      }
      assert values[..|values|] == values;
      ok := true;
    }

    /** One row next to the list on either side. */
    method InsertRow(side: Side, key: Key, doc: KeyDoc, head: int, tail: int, value: string) returns (head': int, tail': int)
      requires doc.ListDoc? && Filled(rows, key, doc.generation, head, tail, doc.expiresAt)
      modifies this`rows
      ensures SameElsewhere(old(rows), rows, key)
      ensures if side == Right then head' == head && tail' == tail + 1 else tail' == tail && head' == head - 1
      ensures Filled(rows, key, doc.generation, head', tail', doc.expiresAt)
      ensures var was := Found(old(rows), key, doc.generation, head, tail);
        Found(rows, key, doc.generation, head', tail') == if side == Right then was + [value] else [value] + was
    {
      if side == Right {
        InsertRight(rows, key, doc.generation, head, tail, doc.expiresAt, value);
        head', tail' := head, tail + 1;
      } else {
        InsertLeft(rows, key, doc.generation, head, tail, doc.expiresAt, value);
        head', tail' := head - 1, tail;
      }
      rows := rows[RowId(key, doc.generation, if side == Right then tail' else head') := RowDoc(value, doc.expiresAt)];
    }

    /** RPUSH and LPUSH of at least one value. */
    method Push(side: Side, key: Key, values: seq<string>, generation: Generation) returns (reply: Reply)
      requires Sound(Docs()) && values != [] && Fresh(Docs(), generation)
      modifies this
      ensures Sound(Docs()) && OnlyKey(old(Docs()), Docs(), key)
      ensures reply.Failed? ==> Docs() == old(Docs())
      ensures reply == Failed(WrongType) <==> CellOf(old(Docs()), key).Scalar?
      ensures reply == Failed(PositionOverflow) <==>
        !CellOf(old(Docs()), key).Scalar? && !RoomFor(DocOr(old(Docs()), key, generation), side, |values|)
      ensures reply.Failed? ==> reply.error == WrongType || reply.error == PositionOverflow
      ensures !reply.Failed? ==>
        CellOf(Docs(), key) == Pushed(CellOf(old(Docs()), key), side, values)
        && reply == Length(|ValuesOf(CellOf(old(Docs()), key))| + |values|)
    {
      var keys0, rows0 := keys, rows;
      var record := Load(key);
      if record.Some? && record.value.ValueDoc? {
        Abort(keys0, rows0);
        return Failed(WrongType);
      }
      ghost var start := Docs();
      var doc := if record.Some? then record.value else ListDoc(None, 0, -1, generation);
      LoadedList(start, key, doc, generation);
      var head, tail, ok := InsertAll(side, key, doc, values);
      if !ok {
        Abort(keys0, rows0);
        return Failed(PositionOverflow);
      }
      Save(key, ListDoc(doc.expiresAt, head, tail, doc.generation));
      SoundExcept(start, Docs(), key);
      return Length(tail - head + 1);
    }

    method LLen(key: Key) returns (reply: Reply)
      requires Sound(Docs())
      modifies this
      ensures Sound(Docs()) && OnlyKey(old(Docs()), Docs(), key) && CellOf(Docs(), key) == CellOf(old(Docs()), key)
      ensures reply == if CellOf(old(Docs()), key).Scalar? then Failed(WrongType) else Length(|ValuesOf(CellOf(old(Docs()), key))|)
    {
      var record := Load(key);
      if record.None? {
        return Length(0);
      }
      if record.value.ValueDoc? {
        return Failed(WrongType);
      }
      var doc := record.value;
      assert ListOk(doc, key, rows);
      FoundFull(rows, key, doc.generation, doc.head, doc.tail, doc.expiresAt);
      return Length(doc.tail - doc.head + 1);
    }

    /** LPOP, with or without a count. */
    method LPop(key: Key, count: Option<int>) returns (reply: Reply)
      requires Sound(Docs())
      modifies this
      ensures Sound(Docs()) && OnlyKey(old(Docs()), Docs(), key)
      ensures var c := CellOf(old(Docs()), key);
        var wanted := if count.Some? then count.value else 1;
        var taken := if wanted < |ValuesOf(c)| then wanted else |ValuesOf(c)|;
        if c.Scalar? then reply == Failed(WrongType) && CellOf(Docs(), key) == c
        else if wanted < 0 || wanted > MAX_LIST_READ then reply == Failed(CountOutOfRange) && CellOf(Docs(), key) == c
        else
          && CellOf(Docs(), key) == ListOrAbsent(ValuesOf(c)[taken..], ExpiryOf(c))
          && reply == if count.Some? then Values(ValuesOf(c)[..taken])
                      else Single(if taken == 0 then None else Some(ValuesOf(c)[0]))
    {
      ghost var c := CellOf(Docs(), key);
      var record := Load(key);
      if record.Some? && record.value.ValueDoc? {
        return Failed(WrongType);
      }
      var wanted := if count.Some? then count.value else 1;
      if wanted < 0 || wanted > MAX_LIST_READ {
        return Failed(CountOutOfRange);
      }
      if record.None? || wanted == 0 {
        assert ValuesOf(c)[0..] == ValuesOf(c);
        ListCellsAreNotEmpty(Docs(), key);
        return if count.Some? then Values([]) else Single(None);
      }
      ReadsAs(Docs(), key, 0, -1);
      var length := record.value.tail - record.value.head + 1;
      var found, ok := PopFront(key, record.value, if wanted < length then wanted else length);
      if !ok {
        return Failed(Inconsistent);
      }
      return if count.Some? then Values(found) else Single(Some(found[0]));
    }

    /** Takes `taken` values off the front of a list, and the key when that empties it. */
    method PopFront(key: Key, doc: KeyDoc, taken: int) returns (found: seq<string>, ok: bool)
      requires Sound(Docs()) && LiveKey(Docs(), key) && doc == keys[key] && doc.ListDoc? && 0 < taken <= doc.tail - doc.head + 1
      modifies this`keys, this`rows
      ensures Sound(Docs()) && OnlyKey(old(Docs()), Docs(), key) && ok
      ensures var c := CellOf(old(Docs()), key);
        && taken <= |c.values| && found == c.values[..taken]
        && CellOf(Docs(), key) == ListOrAbsent(c.values[taken..], c.expiresAt)
    {
      assert ListOk(doc, key, rows);
      PopSplit(Docs(), key, doc, taken);
      found := Found(rows, key, doc.generation, doc.head, doc.head + taken - 1);
      if |found| != taken {
        return found, false;
      }
      if doc.head + taken > doc.tail {
        Clear(key);
      } else {
        Narrow(key, doc, doc.head + taken, doc.tail);
      }
      ok := true;
    }

    method LRange(key: Key, from: int, to: int) returns (reply: Reply)
      requires Sound(Docs())
      modifies this
      ensures Sound(Docs()) && OnlyKey(old(Docs()), Docs(), key) && CellOf(Docs(), key) == CellOf(old(Docs()), key)
      ensures var c := CellOf(old(Docs()), key);
        reply == if c.Scalar? then Failed(WrongType)
                 else if |Slice(ValuesOf(c), from, to)| > MAX_LIST_READ then Failed(ReadTooLarge)
                 else Values(Slice(ValuesOf(c), from, to))
    {
      var record := Load(key);
      if record.None? {
        return Values([]);
      }
      if record.value.ValueDoc? {
        return Failed(WrongType);
      }
      var doc := record.value;
      ReadsAs(Docs(), key, from, to);
      var length := doc.tail - doc.head + 1;
      var first, last := FirstIndex(length, from), LastIndex(length, to);
      if first > last {
        return Values([]);
      }
      var size := last - first + 1;
      if size > MAX_LIST_READ {
        return Failed(ReadTooLarge);
      }
      var found := Found(rows, key, doc.generation, doc.head + first, doc.head + last);
      if |found| != size {
        return Failed(Inconsistent);
      }
      return Values(found);
    }

    method LTrim(key: Key, from: int, to: int) returns (reply: Reply)
      requires Sound(Docs())
      modifies this
      ensures Sound(Docs()) && OnlyKey(old(Docs()), Docs(), key)
      ensures var c := CellOf(old(Docs()), key);
        if c.Scalar? then reply == Failed(WrongType) && CellOf(Docs(), key) == c
        else reply == Status && CellOf(Docs(), key) == ListOrAbsent(Slice(ValuesOf(c), from, to), ExpiryOf(c))
    {
      var record := Load(key);
      if record.Some? && record.value.ValueDoc? {
        return Failed(WrongType);
      }
      if record.None? {
        Clear(key);
        return Status;
      }
      TrimList(key, record.value, from, to);
      return Status;
    }

    method TrimList(key: Key, doc: KeyDoc, from: int, to: int)
      requires Sound(Docs()) && LiveKey(Docs(), key) && doc == keys[key] && doc.ListDoc?
      modifies this`keys, this`rows
      ensures Sound(Docs()) && OnlyKey(old(Docs()), Docs(), key)
      ensures var c := CellOf(old(Docs()), key); CellOf(Docs(), key) == ListOrAbsent(Slice(c.values, from, to), c.expiresAt)
    {
      ReadsAs(Docs(), key, from, to);
      var length := doc.tail - doc.head + 1;
      var first, last := FirstIndex(length, from), LastIndex(length, to);
      if first > last {
        Clear(key);
      } else {
        Narrow(key, doc, doc.head + first, doc.head + last);
      }
    }

    /** EXPIRE and PEXPIRE; a duration that is not positive deletes. */
    method Expire(key: Key, durationMs: int) returns (reply: Reply)
      requires Sound(Docs())
      modifies this
      ensures Sound(Docs()) && OnlyKey(old(Docs()), Docs(), key)
      ensures var c := CellOf(old(Docs()), key);
        if c.Absent? then reply == Length(0) && CellOf(Docs(), key) == Absent
        else if durationMs <= 0 then reply == Length(1) && CellOf(Docs(), key) == Absent
        else if now + durationMs > MAX_DATE then reply == Failed(InvalidExpiry) && CellOf(Docs(), key) == c
        else reply == Length(1) && CellOf(Docs(), key) == Expiring(c, now + durationMs)
    {
      var record := Load(key);
      if record.None? {
        return Length(0);
      }
      if durationMs <= 0 {
        Clear(key);
        return Length(1);
      }
      if now + durationMs > MAX_DATE {
        return Failed(InvalidExpiry);
      }
      ghost var start := Docs();
      var doc := record.value.(expiresAt := Some(now + durationMs));
      Save(key, doc);
      if doc.ListDoc? {
        assert ListOk(record.value, key, rows);
        rows := Redated(rows, key, doc.generation, doc.expiresAt);
        FoundFrame(start.rows, rows, key, doc.generation, doc.head, doc.tail);
        assert ListOk(doc, key, rows);
      }
      SoundExcept(start, Docs(), key);
      return Length(1);
    }

    method Del(key: Key) returns (reply: Reply)
      requires Sound(Docs())
      modifies this
      ensures Sound(Docs()) && OnlyKey(old(Docs()), Docs(), key) && CellOf(Docs(), key) == Absent
      ensures reply == Length(if CellOf(old(Docs()), key).Absent? then 0 else 1)
    {
      var record := Load(key);
      Clear(key);
      return Length(if record.Some? then 1 else 0);
    }

    method RunReaper(expiredKeys: set<Key>, expiredRows: set<RowId>)
      requires Sound(Docs())
      modifies this
      ensures Docs() == Reaped(old(Docs()), expiredKeys, expiredRows) && Sound(Docs())
      ensures forall key :: CellOf(Docs(), key) == CellOf(old(Docs()), key)
    {
      ReaperIsUnseen(Docs(), expiredKeys, expiredRows);
      keys := map k | k in keys && !(k in expiredKeys && Expired(keys[k].expiresAt, now)) :: keys[k];
      rows := map id: RowId | id in rows && !(id in expiredRows && Expired(rows[id].expiresAt, now)) :: rows[id];
    }

    method Tick(ms: nat)
      requires Sound(Docs())
      modifies this`now
      ensures Docs() == Later(old(Docs()), ms) && Sound(Docs())
    {
      TimeKeepsSound(Docs(), ms);
      now := now + ms;
    }
  }

  function Expiring(c: Cell, at: int): Cell {
    match c
    case Absent => Absent
    case List(values, _) => List(values, Some(at))
    case Scalar(_) => Scalar(Some(at))
  }

  lemma ListCellsAreNotEmpty(s: Store, key: Key)
    requires Sound(s)
    ensures var c := CellOf(s, key); c.List? ==> c.values != []
  {
    if LiveKey(s, key) && s.keys[key].ListDoc? {
      var doc := s.keys[key];
      assert ListOk(doc, key, s.rows);
      FoundFull(s.rows, key, doc.generation, doc.head, doc.tail, doc.expiresAt);
    }
  }

  lemma PopSplit(s: Store, key: Key, doc: KeyDoc, taken: int)
    requires doc.ListDoc? && ListOk(doc, key, s.rows) && 0 < taken <= doc.tail - doc.head + 1
    ensures var all := Found(s.rows, key, doc.generation, doc.head, doc.tail);
      && |all| == doc.tail - doc.head + 1
      && Found(s.rows, key, doc.generation, doc.head, doc.head + taken - 1) == all[..taken]
      && Found(s.rows, key, doc.generation, doc.head + taken, doc.tail) == all[taken..]
  {
    FoundSplit(s.rows, key, doc.generation, doc.head, doc.head + taken, doc.tail);
    FoundFull(s.rows, key, doc.generation, doc.head, doc.tail, doc.expiresAt);
    FoundFull(s.rows, key, doc.generation, doc.head, doc.head + taken - 1, doc.expiresAt);
  }

  /** Rows left over from an earlier generation of a key are never seen. */
  lemma StaleRowsUnseen(s: Store, key: Key, id: RowId, row: RowDoc)
    requires LiveKey(s, key) && s.keys[key].ListDoc? ==> id.key != key || id.generation != s.keys[key].generation
    ensures CellOf(s.(rows := s.rows[id := row]), key) == CellOf(s, key)
    ensures CellOf(s.(rows := s.rows - {id}), key) == CellOf(s, key)
  {
    if LiveKey(s, key) && s.keys[key].ListDoc? {
      var doc := s.keys[key];
      FoundFrame(s.rows, s.rows[id := row], key, doc.generation, doc.head, doc.tail);
      FoundFrame(s.rows, s.rows - {id}, key, doc.generation, doc.head, doc.tail);
    }
  }

  /** The two list commands the flush workers use are the prefix and the rest of the queue. */
  lemma QueueCommands(vs: seq<string>, limit: int, n: nat)
    requires n <= |vs|
    ensures Slice(vs, 0, Q.BatchSize(limit) - 1) == vs[..Q.AtMost(limit, |vs|)]
    ensures |Slice(vs, 0, Q.BatchSize(limit) - 1)| <= MAX_LIST_READ
    ensures Slice(vs, n, -1) == Q.TrimFront(vs, n)
  {
  }

  function Clamp(i: int, n: nat): nat {
    if i < 0 then 0 else if i > n then n else i
  }

  /** An index pair names the positions between both, inclusively; a negative index counts from the end. */
  lemma SliceSpelled(vs: seq<string>, from: int, to: int)
    ensures var n := |vs|;
      var lo, hi := Clamp(if from < 0 then n + from else from, n), Clamp(if to < 0 then n + to + 1 else to + 1, n);
      Slice(vs, from, to) == if lo < hi then vs[lo..hi] else []
  {
  }

  /** A key is seen exactly while it has a document that has no expiry, or one still to come. */
  lemma SeenUntilExpiry(s: Store, key: Key)
    ensures CellOf(s, key).Absent? <==> key !in s.keys || (s.keys[key].expiresAt.Some? && s.keys[key].expiresAt.value <= s.now)
    ensures CellOf(s, key).Scalar? ==> s.keys[key].ValueDoc?
  {
  }

  /** The `i`th position a push takes, from 1, can be written exactly. */
  predicate Exact(doc: KeyDoc, side: Side, i: int)
    requires doc.ListDoc?
  {
    -9007199254740991 <= (if side == Right then doc.tail + i else doc.head - i) <= 9007199254740991
  }

  /** A push finds room exactly when each position it takes is a safe integer. */
  lemma RoomSpelled(doc: KeyDoc, side: Side, n: nat)
    requires doc.ListDoc? && n > 0
    ensures RoomFor(doc, side, n) <==> forall i :: 1 <= i <= n ==> Exact(doc, side, i)
  {
    if !RoomFor(doc, side, n) {
      assert !Exact(doc, side, 1) || !Exact(doc, side, n);
    }
  }
}
