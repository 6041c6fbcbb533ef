/**
 The batched upsert of the regional importer, for any of its tables.

 A batch prefetches the rows it touches, compares every desired row with what was prefetched, and only then
 writes. Row by row is the same with batches of one.
 */
module Upsert {
  import opened Common

  /** Ids derived from a source by a collision-free digest, and ids that came from elsewhere. */
  datatype Id = Generated(region: string, kind: string, parts: seq<string>) | Foreign(n: nat)

  /** The key that identifies a row among its siblings and that an upsert never changes. */
  datatype Key = Key(scope: Id, slug: string)

  /** The scope of a table whose slugs are unique as a whole. */
  const EVERYWHERE := Foreign(0)

  /**
   A row: its key, its unique handle if the table has one, its cover image, the fields that the importer
   manages and the fields that it only sets on insert.
   */
  datatype Row<M, U> = Row(key: Key, handle: Option<string>, cover: Option<string>, managed: M, kept: U)

  datatype Entry<M, U> = Entry(id: Id, row: Row<M, U>)

  type Table<M, U> = map<Id, Row<M, U>>

  datatype UpsertError = KeyTaken(id: Id) | HandleTaken(id: Id) | IdBelongsElsewhere(id: Id)

  datatype Tally = Tally(inserted: nat, updated: nat, same: nat)

  datatype Change<M, U> = Change(table: Table<M, U>, inserted: set<Id>, changed: set<Id>, tally: Tally)

  // ----------------------------------------------------------------------- one row

  predicate HoldsKey<M, U>(t: Table<M, U>, id: Id, e: Entry<M, U>) {
    id in t && id != e.id && t[id].key == e.row.key
  }

  predicate HoldsHandle<M, U>(t: Table<M, U>, id: Id, e: Entry<M, U>) {
    id in t && id != e.id && e.row.handle.Some? && t[id].handle == e.row.handle
  }

  ghost function Refusal<M, U>(t: Table<M, U>, e: Entry<M, U>): Option<UpsertError> {
    if exists id :: HoldsKey(t, id, e) then Some(KeyTaken(e.id))
    else if exists id :: HoldsHandle(t, id, e) then Some(HandleTaken(e.id))
    else if e.id in t && t[e.id].key != e.row.key then Some(IdBelongsElsewhere(e.id))
    else None
  }

  ghost predicate Accepts<M, U>(t: Table<M, U>, e: Entry<M, U>) {
    Refusal(t, e).None?
  }

  /** An update keeps what the importer does not manage, and the cover when the source has none. */
  function Merge<M, U>(stored: Row<M, U>, desired: Row<M, U>): Row<M, U> {
    stored.(handle := desired.handle,
            cover := if desired.cover.None? then stored.cover else desired.cover,
            managed := desired.managed)
  }

  function Placed<M, U>(t: Table<M, U>, e: Entry<M, U>): Row<M, U> {
    if e.id in t then Merge(t[e.id], e.row) else e.row
  }

  function Put<M, U>(t: Table<M, U>, e: Entry<M, U>): Table<M, U> {
    t[e.id := Placed(t, e)]
  }

  // --------------------------------------------------------------- one batch, all batches

  ghost function FirstRefusal<M, U>(t: Table<M, U>, es: seq<Entry<M, U>>): Option<UpsertError> {
    if es == [] then None
    else
      var front := FirstRefusal(t, es[..|es| - 1]);
      if front.Some? then front else Refusal(t, es[|es| - 1])
  }

  function Applied<M, U>(t: Table<M, U>, es: seq<Entry<M, U>>): Table<M, U> {
    if es == [] then t else Put(Applied(t, es[..|es| - 1]), es[|es| - 1])
  }

  ghost function Batch<M, U>(t: Table<M, U>, es: seq<Entry<M, U>>): Result<Table<M, U>, UpsertError> {
    var refusal := FirstRefusal(t, es);
    if refusal.Some? then Err(refusal.value) else Ok(Applied(t, es))
  }

  ghost function Batches<M, U>(t: Table<M, U>, es: seq<Entry<M, U>>, size: nat): Result<Table<M, U>, UpsertError>
    requires size >= 1
    decreases |es|
  {
    if es == [] then Ok(t)
    else
      var n := Min(size, |es|);
      var first := Batch(t, es[..n]);
      if first.Err? then first else Batches(first.value, es[n..], size)
  }

  /** The reference: each row is checked against the table that the rows before it left. */
  ghost function RowByRow<M, U>(t: Table<M, U>, es: seq<Entry<M, U>>): Result<Table<M, U>, UpsertError> {
    if es == [] then Ok(t)
    else
      var front := RowByRow(t, es[..|es| - 1]);
      if front.Err? then front
      else
        var refusal := Refusal(front.value, es[|es| - 1]);
        if refusal.Some? then Err(refusal.value) else Ok(Put(front.value, es[|es| - 1]))
  }

  // ------------------------------------------------------------------- well-formedness

  ghost predicate UniqueTable<M, U>(t: Table<M, U>) {
    forall a, b :: a in t && b in t && a != b ==>
      t[a].key != t[b].key && (t[a].handle.Some? ==> t[a].handle != t[b].handle)
  }

  /** A source names each row once. */
  ghost predicate Distinct<M, U>(es: seq<Entry<M, U>>) {
    forall i, j :: 0 <= i < j < |es| ==> Differ(es[i], es[j])
  }

  predicate Differ<M, U>(a: Entry<M, U>, b: Entry<M, U>) {
    a.id != b.id && a.row.key != b.row.key && (a.row.handle.Some? ==> a.row.handle != b.row.handle)
  }

  predicate Names<M, U>(es: seq<Entry<M, U>>, id: Id) {
    exists i :: 0 <= i < |es| && es[i].id == id
  }

  // ------------------------------------------------------------------- the closed form

  /**
   The row that the entry asks for is in the table: its handle and its managed fields are the entry's, and so is its
   cover if the entry has one; what else was stored stays, and a new row is the entry's.
   */
  ghost predicate Upserted<M, U>(t: Table<M, U>, t': Table<M, U>, e: Entry<M, U>) {
    && e.id in t'
    && var row := t'[e.id];
    && row.handle == e.row.handle && row.managed == e.row.managed
    && (e.row.cover.Some? ==> row.cover == e.row.cover)
    && (e.id !in t ==> row == e.row)
    && (e.id in t ==> row.key == t[e.id].key && row.kept == t[e.id].kept && (e.row.cover.None? ==> row.cover == t[e.id].cover))
  }

  /** The upserted table, row by row: every entry is upserted, every other row is untouched. */
  lemma AppliedUpserts<M, U>(t: Table<M, U>, es: seq<Entry<M, U>>)
    requires Distinct(es)
    ensures var t' := Applied(t, es);
            && (forall i :: 0 <= i < |es| ==> Upserted(t, t', es[i]))
            && (forall id :: id in t && !Names(es, id) ==> id in t' && t'[id] == t[id])
            && (forall id :: id in t' ==> id in t || Names(es, id))
  {
    AppliedAt(t, es);
    forall i | 0 <= i < |es| ensures Upserted(t, Applied(t, es), es[i]) {
      assert Applied(t, es)[es[i].id] == Placed(t, es[i]);
    }
  }

  lemma {:induction false} AppliedAt<M, U>(t: Table<M, U>, es: seq<Entry<M, U>>)
    requires Distinct(es)
    ensures var t' := Applied(t, es);
            && (forall i :: 0 <= i < |es| ==> es[i].id in t' && t'[es[i].id] == Placed(t, es[i]))
            && (forall id :: id in t && !Names(es, id) ==> id in t' && t'[id] == t[id])
            && (forall id :: id in t' ==> id in t || Names(es, id))
  {
    if es != [] {
      var front, last := es[..|es| - 1], es[|es| - 1];
      AppliedAt(t, front);
      var t1, t' := Applied(t, front), Applied(t, es);
      forall i | 0 <= i < |front| ensures es[i].id in t' && t'[es[i].id] == Placed(t, es[i]) {
        assert front[i] == es[i] && Differ(es[i], es[|es| - 1]);
      }
      assert !Names(front, last.id) by {
        forall i | 0 <= i < |front| ensures front[i].id != last.id {
          assert Differ(es[i], es[|es| - 1]);
        }
      }
      assert last.id in t1 <==> last.id in t;
      forall id | !Names(es, id) ensures !Names(front, id) && id != last.id {
        assert es[|es| - 1].id == last.id;
        forall i | 0 <= i < |front| ensures front[i].id != id { assert es[i] == front[i]; }
      }
      forall id | id in t' ensures id in t || Names(es, id) {
        if id != last.id && Names(front, id) {
          var i :| 0 <= i < |front| && front[i].id == id;
          assert es[i].id == id;
        }
      }
    }
  }

  // ----------------------------------------------------- batched against row by row

  /** Row i wants a handle that row j of the source still holds in the table. */
  predicate Blocks<M, U>(t: Table<M, U>, es: seq<Entry<M, U>>, j: int, i: int)
    requires 0 <= j < |es| && 0 <= i < |es|
  {
    es[j].id in t && es[i].row.handle.Some? && t[es[j].id].handle == es[i].row.handle
  }

  /** What a batch sees of a row and what a row-by-row run sees differ only by the handles that earlier rows gave up. */
  lemma AcceptsBefore<M, U>(t: Table<M, U>, es: seq<Entry<M, U>>, i: int)
    requires Distinct(es) && 0 <= i < |es|
    ensures Accepts(t, es[i]) <==> AcceptsInTurn(t, es, i) && forall j :: 0 <= j < i ==> !Blocks(t, es, j, i)
  {
    var front, e := es[..i], es[i];
    var t1 := Applied(t, front);
    assert Distinct(front);
    AppliedAt(t, front);
    forall j | 0 <= j < i ensures Differ(es[j], e) && front[j] == es[j] {}
    assert !Names(front, e.id);
    if Accepts(t, e) {
      forall id | id in t1 && id != e.id ensures !HoldsKey(t1, id, e) && !HoldsHandle(t1, id, e) {
        NotHeldLater(t, t1, front, e, id);
      }
      forall j | 0 <= j < i ensures !Blocks(t, es, j, i) {
        assert !HoldsHandle(t, es[j].id, e);
      }
    } else if Accepts(t1, e) && forall j :: 0 <= j < i ==> !Blocks(t, es, j, i) {
      forall id ensures !HoldsKey(t, id, e) && !HoldsHandle(t, id, e) {
        assert !HoldsKey(t1, id, e) && !HoldsHandle(t1, id, e);
        if id in t && Names(front, id) {
          var j :| 0 <= j < |front| && front[j].id == id;
          assert !Blocks(t, es, j, i);
        }
      }
    }
  }

  lemma NotHeldLater<M, U>(t: Table<M, U>, t1: Table<M, U>, front: seq<Entry<M, U>>, e: Entry<M, U>, id: Id)
    requires Accepts(t, e) && id in t1 && id != e.id
    requires forall i :: 0 <= i < |front| ==> front[i].id in t1 && t1[front[i].id] == Placed(t, front[i])
    requires forall other :: other in t && !Names(front, other) ==> other in t1 && t1[other] == t[other]
    requires forall other :: other in t1 ==> other in t || Names(front, other)
    requires forall i :: 0 <= i < |front| ==> Differ(front[i], e)
    ensures !HoldsKey(t1, id, e) && !HoldsHandle(t1, id, e)
  {
    assert !HoldsKey(t, id, e) && !HoldsHandle(t, id, e);
    if Names(front, id) {
      var i :| 0 <= i < |front| && front[i].id == id;
      assert Differ(front[i], e);
    }
  }

  lemma {:induction false} BatchAcceptsAll<M, U>(t: Table<M, U>, es: seq<Entry<M, U>>)
    ensures FirstRefusal(t, es).None? <==> forall i :: 0 <= i < |es| ==> Accepts(t, es[i])
  {
    if es != [] {
      BatchAcceptsAll(t, es[..|es| - 1]);
      assert es == es[..|es| - 1] + [es[|es| - 1]];
    }
  }

  /** Row i is accepted by the table that the rows before it leave. */
  ghost predicate AcceptsInTurn<M, U>(t: Table<M, U>, es: seq<Entry<M, U>>, i: int)
    requires 0 <= i < |es|
  {
    Accepts(Applied(t, es[..i]), es[i])
  }

  lemma TurnInPrefix<M, U>(t: Table<M, U>, es: seq<Entry<M, U>>, n: int, i: int)
    requires 0 <= i < n <= |es|
    ensures AcceptsInTurn(t, es[..n], i) <==> AcceptsInTurn(t, es, i)
  {
    assert es[..n][..i] == es[..i];
  }

  lemma {:induction false} RowByRowAcceptsEach<M, U>(t: Table<M, U>, es: seq<Entry<M, U>>)
    ensures RowByRow(t, es).Ok? <==> forall i :: 0 <= i < |es| ==> AcceptsInTurn(t, es, i)
    ensures RowByRow(t, es).Ok? ==> RowByRow(t, es).value == Applied(t, es)
  {
    if es != [] {
      var n := |es| - 1;
      RowByRowAcceptsEach(t, es[..n]);
      forall i | 0 <= i < n ensures AcceptsInTurn(t, es[..n], i) <==> AcceptsInTurn(t, es, i) {
        TurnInPrefix(t, es, n, i);
      }
      if RowByRow(t, es[..n]).Ok? {
        assert RowByRow(t, es).Ok? <==> AcceptsInTurn(t, es, n);
      } else {
        var i :| 0 <= i < n && !AcceptsInTurn(t, es[..n], i);
        assert !AcceptsInTurn(t, es, i);
      }
    }
  }

  /** One batch succeeds exactly when its rows go in one by one and none of them wants a handle that an earlier one holds. */
  lemma BatchExact<M, U>(t: Table<M, U>, es: seq<Entry<M, U>>)
    requires Distinct(es)
    ensures Batch(t, es).Ok? <==>
              RowByRow(t, es).Ok? && forall i, j :: 0 <= j < i < |es| ==> !Blocks(t, es, j, i)
    ensures Batch(t, es).Ok? ==> Batch(t, es) == RowByRow(t, es)
  {
    BatchAcceptsAll(t, es);
    RowByRowAcceptsEach(t, es);
    forall i | 0 <= i < |es|
      ensures Accepts(t, es[i]) <==> AcceptsInTurn(t, es, i) && forall j :: 0 <= j < i ==> !Blocks(t, es, j, i)
    {
      AcceptsBefore(t, es, i);
    }
  }

  lemma {:induction false} AppliedTwice<M, U>(t: Table<M, U>, a: seq<Entry<M, U>>, b: seq<Entry<M, U>>)
    ensures Applied(t, a + b) == Applied(Applied(t, a), b)
  {
    if b == [] {
      assert a + b == a;
    } else {
      AppliedTwice(t, a, b[..|b| - 1]);
      assert (a + b)[..|a + b| - 1] == a + b[..|b| - 1];
    }
  }

  lemma {:induction false} RowByRowTwice<M, U>(t: Table<M, U>, a: seq<Entry<M, U>>, b: seq<Entry<M, U>>)
    ensures RowByRow(t, a + b) ==
              if RowByRow(t, a).Err? then RowByRow(t, a) else RowByRow(RowByRow(t, a).value, b)
  {
    if b == [] {
      assert a + b == a;
    } else {
      RowByRowTwice(t, a, b[..|b| - 1]);
      assert (a + b)[..|a + b| - 1] == a + b[..|b| - 1];
    }
  }

  predicate SameBatch(i: nat, j: nat, size: nat)
    requires size >= 1
  {
    i / size == j / size
  }

  lemma SameBatchShifts(i: nat, j: nat, size: nat)
    requires size >= 1
    ensures SameBatch(i + size, j + size, size) <==> SameBatch(i, j, size)
  {
    assert (i + size) / size == i / size + 1 && (j + size) / size == j / size + 1 by {
      DivShifts(i, size);
      DivShifts(j, size);
    }
  }

  lemma DivShifts(i: nat, size: nat)
    requires size >= 1
    ensures (i + size) / size == i / size + 1
  {
    var q, r := i / size, i % size;
    assert i + size == (q + 1) * size + r;
    DivUnique(i + size, size, q + 1, r);
  }

  lemma DivUnique(n: nat, size: nat, q: nat, r: nat)
    requires size >= 1 && n == q * size + r && r < size
    ensures n / size == q
  {
    var p := n / size;
    assert p * size <= n < (p + 1) * size;
    if p < q { MulOrder(p + 1, q, size); }
    if q < p { MulOrder(q + 1, p, size); }
  }

  lemma MulOrder(a: nat, b: nat, size: nat)
    requires a <= b
    ensures a * size <= b * size
  {
  }

  /** No row wants a handle that an earlier row of its own batch holds at the start of the import. */
  ghost predicate HandlesFreeInBatches<M, U>(t: Table<M, U>, es: seq<Entry<M, U>>, size: nat)
    requires size >= 1
  {
    forall i, j :: 0 <= j < i < |es| && SameBatch(j, i, size) ==> !Blocks(t, es, j, i)
  }

  lemma FirstBatchAlone(i: nat, j: nat, size: nat, n: nat)
    requires size >= 1 && j < i && n == size
    ensures i < n ==> SameBatch(j, i, size)
    ensures j < n <= i ==> !SameBatch(j, i, size)
  {
    if i < n {
      DivUnique(i, size, 0, i);
      DivUnique(j, size, 0, j);
    } else if j < n {
      DivUnique(j, size, 0, j);
      DivShifts(i - size, size);
    }
  }

  /** Rows of later batches are still as they were at the start. */
  lemma LaterRowsUntouched<M, U>(t: Table<M, U>, es: seq<Entry<M, U>>, n: nat)
    requires Distinct(es) && n <= |es|
    ensures Distinct(es[..n]) && Distinct(es[n..])
    ensures forall i, j :: 0 <= j < |es| - n && 0 <= i < |es| - n ==>
              (Blocks(Applied(t, es[..n]), es[n..], j, i) <==> Blocks(t, es, n + j, n + i))
  {
    var a, b := es[..n], es[n..];
    assert forall k :: 0 <= k < |b| ==> b[k] == es[n + k];
    assert Distinct(b) by {
      forall i, j | 0 <= i < j < |b| ensures Differ(b[i], b[j]) { assert Differ(es[n + i], es[n + j]); }
    }
    assert Distinct(a);
    AppliedAt(t, a);
    forall j | 0 <= j < |b| ensures !Names(a, b[j].id) {
      forall k | 0 <= k < |a| ensures a[k].id != b[j].id { assert Differ(es[k], es[n + j]); }
    }
  }

  /**
   Refinement. A batched import, with any batch size, ends in exactly the table of the row-by-row run, and it
   succeeds exactly when that run succeeds and no row wants a handle that an earlier row of its batch holds.
   */
  lemma {:induction false} BatchesExact<M, U>(t: Table<M, U>, es: seq<Entry<M, U>>, size: nat)
    requires size >= 1 && Distinct(es)
    ensures Batches(t, es, size).Ok? <==> RowByRow(t, es).Ok? && HandlesFreeInBatches(t, es, size)
    ensures Batches(t, es, size).Ok? ==> Batches(t, es, size) == RowByRow(t, es) && Batches(t, es, size).value == Applied(t, es)
    decreases |es|
  {
    RowByRowAcceptsEach(t, es);
    if es != [] {
      var n := Min(size, |es|);
      var a, b := es[..n], es[n..];
      assert es == a + b;
      LaterRowsUntouched(t, es, n);
      BatchExact(t, a);
      RowByRowTwice(t, a, b);
      if RowByRow(t, a).Ok? {
        RowByRowAcceptsEach(t, a);
        BatchesExact(Applied(t, a), b, size);
      }
      HandlesSplit(t, es, size, n);
      AppliedTwice(t, a, b);
    }
  }

  ghost predicate HandlesFree<M, U>(t: Table<M, U>, es: seq<Entry<M, U>>) {
    forall i, j :: 0 <= j < i < |es| ==> !Blocks(t, es, j, i)
  }

  lemma HandlesSplit<M, U>(t: Table<M, U>, es: seq<Entry<M, U>>, size: nat, n: nat)
    requires size >= 1 && Distinct(es) && es != [] && n == Min(size, |es|)
    ensures HandlesFreeInBatches(t, es, size) <==>
              HandlesFree(t, es[..n]) && HandlesFreeInBatches(Applied(t, es[..n]), es[n..], size)
  {
    LaterRowsUntouched(t, es, n);
    if HandlesFreeInBatches(t, es, size) {
      SplitFirst(t, es, size, n);
      SplitRest(t, es, size, n, Applied(t, es[..n]));
    }
    if HandlesFree(t, es[..n]) && HandlesFreeInBatches(Applied(t, es[..n]), es[n..], size) {
      JoinBatches(t, es, size, n, Applied(t, es[..n]));
    }
  }

  lemma SplitFirst<M, U>(t: Table<M, U>, es: seq<Entry<M, U>>, size: nat, n: nat)
    requires size >= 1 && n <= |es| && n <= size && HandlesFreeInBatches(t, es, size)
    ensures HandlesFree(t, es[..n])
  {
    forall i, j | 0 <= j < i < n ensures !Blocks(t, es[..n], j, i) {
      FirstBatchAlone(i, j, size, size);
      assert !Blocks(t, es, j, i);
    }
  }

  /** Rows i and j of the rest are as they were at the start. */
  ghost predicate RestUntouched<M, U>(t: Table<M, U>, es: seq<Entry<M, U>>, n: nat, t1: Table<M, U>)
    requires n <= |es|
  {
    forall i, j :: 0 <= j < |es| - n && 0 <= i < |es| - n ==> (Blocks(t1, es[n..], j, i) <==> Blocks(t, es, n + j, n + i))
  }

  lemma SplitRest<M, U>(t: Table<M, U>, es: seq<Entry<M, U>>, size: nat, n: nat, t1: Table<M, U>)
    requires size >= 1 && n == Min(size, |es|) && HandlesFreeInBatches(t, es, size) && RestUntouched(t, es, n, t1)
    ensures HandlesFreeInBatches(t1, es[n..], size)
  {
    forall i, j | 0 <= j < i < |es[n..]| && SameBatch(j, i, size) ensures !Blocks(t1, es[n..], j, i) {
      SameBatchShifts(j, i, size);
      assert !Blocks(t, es, n + j, n + i);
    }
  }

  lemma JoinBatches<M, U>(t: Table<M, U>, es: seq<Entry<M, U>>, size: nat, n: nat, t1: Table<M, U>)
    requires size >= 1 && n == Min(size, |es|) && RestUntouched(t, es, n, t1)
    requires HandlesFree(t, es[..n]) && HandlesFreeInBatches(t1, es[n..], size)
    ensures HandlesFreeInBatches(t, es, size)
  {
    forall i, j | 0 <= j < i < |es| && SameBatch(j, i, size) ensures !Blocks(t, es, j, i) {
      if i < n {
        assert !Blocks(t, es[..n], j, i);
      } else {
        FirstBatchAlone(i, j, size, size);
        SameBatchShifts(j - n, i - n, size);
        assert !Blocks(t1, es[n..], j - n, i - n);
        assert Blocks(t1, es[n..], j - n, i - n) <==> Blocks(t, es, n + (j - n), n + (i - n));
      }
    }
  }

  /** The batch size can decide: two rows that swap places pass one by one and fail together. */
  lemma BatchSizeCanRefuse(first: Id, second: Id)
    requires first != second
    ensures var t := map[first := Row(Key(EVERYWHERE, "a"), Some("@b"), None, 0, 0)];
            var es := [Entry(first, Row(Key(EVERYWHERE, "a"), Some("@a"), None, 0, 0)),
                       Entry(second, Row(Key(EVERYWHERE, "b"), Some("@b"), None, 0, 0))];
            UniqueTable(t) && Distinct(es) && Batches(t, es, 1).Ok? && Batches(t, es, 2).Err?
  {
    var t := map[first := Row(Key(EVERYWHERE, "a"), Some("@b"), None, 0, 0)];
    var es := [Entry(first, Row(Key(EVERYWHERE, "a"), Some("@a"), None, 0, 0)),
               Entry(second, Row(Key(EVERYWHERE, "b"), Some("@b"), None, 0, 0))];
    assert "a" != "b" && "@a" != "@b" by { assert "a"[0] != "b"[0] && "@a"[1] != "@b"[1]; }
    assert Distinct(es);
    BatchesExact(t, es, 1);
    BatchesExact(t, es, 2);
    RowByRowAcceptsEach(t, es);
    assert es[..0] == [] && es[..1] == [es[0]];
    assert [es[0]][..0] == [];
    assert Applied(t, es[..1]) == Put(t, es[0]);
    assert AcceptsInTurn(t, es, 0) && AcceptsInTurn(t, es, 1);
    assert SameBatch(0, 1, 2) && Blocks(t, es, 0, 1);
  }

  // ------------------------------------------------------------------- unique keys

  lemma PutKeepsUnique<M, U>(t: Table<M, U>, e: Entry<M, U>)
    requires UniqueTable(t) && Accepts(t, e)
    ensures UniqueTable(Put(t, e))
  {
    var t' := Put(t, e);
    forall id | id in t && id != e.id ensures !HoldsKey(t, id, e) && !HoldsHandle(t, id, e) {}
    assert t'[e.id].key == e.row.key && t'[e.id].handle == e.row.handle;
  }

  lemma {:induction false} RowByRowKeepsUnique<M, U>(t: Table<M, U>, es: seq<Entry<M, U>>)
    requires UniqueTable(t) && RowByRow(t, es).Ok?
    ensures UniqueTable(RowByRow(t, es).value)
  {
    if es != [] {
      RowByRowKeepsUnique(t, es[..|es| - 1]);
      PutKeepsUnique(RowByRow(t, es[..|es| - 1]).value, es[|es| - 1]);
    }
  }

  /** The table while a batch is being written: some of its rows are in place. */
  function PartlyWritten<M, U>(t: Table<M, U>, es: seq<Entry<M, U>>, done: set<Id>): Table<M, U> {
    map id | id in t.Keys + done && (id in t || id in Applied(t, es)) ::
      if id in done && id in Applied(t, es) then Applied(t, es)[id] else t[id]
  }

  /** Whatever the order of its inserts and updates, an accepted batch never violates a unique constraint on the way. */
  lemma WritesNeverCollide<M, U>(t: Table<M, U>, es: seq<Entry<M, U>>, done: set<Id>)
    requires UniqueTable(t) && Distinct(es) && Batch(t, es).Ok?
    ensures UniqueTable(PartlyWritten(t, es, done))
  {
    BatchAcceptsAll(t, es);
    AppliedAt(t, es);
    var w, t' := PartlyWritten(t, es, done), Applied(t, es);
    forall a, b | a in w && b in w && a != b
      ensures w[a].key != w[b].key && (w[a].handle.Some? ==> w[a].handle != w[b].handle)
    {
      RowsApart(t, es, a, b);
    }
  }

  lemma RowsApart<M, U>(t: Table<M, U>, es: seq<Entry<M, U>>, a: Id, b: Id)
    requires UniqueTable(t) && Distinct(es) && a != b
    requires forall i :: 0 <= i < |es| ==> Accepts(t, es[i])
    ensures var t' := Applied(t, es);
            && (a in t && b in t' ==> t[a].key != t'[b].key && (t[a].handle.Some? ==> t[a].handle != t'[b].handle))
            && (b in t && a in t' ==> t'[a].key != t[b].key && (t'[a].handle.Some? ==> t'[a].handle != t[b].handle))
            && (a in t' && b in t' ==> t'[a].key != t'[b].key && (t'[a].handle.Some? ==> t'[a].handle != t'[b].handle))
  {
    AppliedAt(t, es);
    PlacedApart(t, es, a, b);
    PlacedApart(t, es, b, a);
    if Names(es, a) && Names(es, b) {
      var i :| 0 <= i < |es| && es[i].id == a;
      var j :| 0 <= j < |es| && es[j].id == b;
      assert i < j ==> Differ(es[i], es[j]);
      assert j < i ==> Differ(es[j], es[i]);
      assert Accepts(t, es[i]) && Accepts(t, es[j]);
    }
  }

  lemma PlacedApart<M, U>(t: Table<M, U>, es: seq<Entry<M, U>>, a: Id, b: Id)
    requires UniqueTable(t) && Distinct(es) && a != b
    requires forall i :: 0 <= i < |es| ==> Accepts(t, es[i])
    ensures var t' := Applied(t, es);
            a in t && b in t' ==>
              t[a].key != t'[b].key && (t'[b].handle.Some? ==> t[a].handle != t'[b].handle)
              && (t[a].handle.Some? ==> t[a].handle != t'[b].handle)
  {
    AppliedAt(t, es);
    if a in t && Names(es, b) {
      var j :| 0 <= j < |es| && es[j].id == b;
      assert Accepts(t, es[j]);
      assert !HoldsKey(t, a, es[j]) && !HoldsHandle(t, a, es[j]);
    }
  }

  // ------------------------------------------------------------------ what changed

  datatype Outcome = Inserted | Updated | Unchanged

  function OutcomeOf<M(==), U(==)>(t: Table<M, U>, e: Entry<M, U>): Outcome {
    if e.id !in t then Inserted
    else if Merge(t[e.id], e.row) != t[e.id] then Updated
    else Unchanged
  }

  /** A row counts as updated exactly when a managed field, the handle or a given cover differs from what is stored. */
  lemma OutcomeIsExact<M, U>(t: Table<M, U>, e: Entry<M, U>)
    ensures OutcomeOf(t, e).Inserted? <==> e.id !in t
    ensures OutcomeOf(t, e).Updated? <==>
              e.id in t && (t[e.id].managed != e.row.managed || t[e.id].handle != e.row.handle
                            || (e.row.cover.Some? && t[e.id].cover != e.row.cover))
  {
  }

  function Counted(tally: Tally, outcome: Outcome): Tally {
    match outcome
    case Inserted => tally.(inserted := tally.inserted + 1)
    case Updated => tally.(updated := tally.updated + 1)
    case Unchanged => tally.(same := tally.same + 1)
  }

  function TallyOf<M(==), U(==)>(start: Tally, t: Table<M, U>, es: seq<Entry<M, U>>): Tally {
    if es == [] then start else Counted(TallyOf(start, t, es[..|es| - 1]), OutcomeOf(t, es[|es| - 1]))
  }

  function InsertedIds<M(==), U(==)>(t: Table<M, U>, es: seq<Entry<M, U>>): set<Id> {
    set e | e in es && OutcomeOf(t, e).Inserted? :: e.id
  }

  /** The restaurants, as scopes of the keys, whose rows were inserted or updated. */
  function ChangedScopes<M(==), U(==)>(t: Table<M, U>, es: seq<Entry<M, U>>): set<Id> {
    set e | e in es && !OutcomeOf(t, e).Unchanged? :: e.row.key.scope
  }

  /** Every outcome is what it would have been at the start, whichever batch the row is in. */
  lemma {:induction false} LaterOutcomes<M, U>(t: Table<M, U>, a: seq<Entry<M, U>>, b: seq<Entry<M, U>>, start: Tally)
    requires Distinct(a + b)
    ensures TallyOf(TallyOf(start, t, a), Applied(t, a), b) == TallyOf(start, t, a + b)
    ensures InsertedIds(t, a) + InsertedIds(Applied(t, a), b) == InsertedIds(t, a + b)
    ensures ChangedScopes(t, a) + ChangedScopes(Applied(t, a), b) == ChangedScopes(t, a + b)
  {
    OutcomesUntouched(t, a, b);
    LaterTally(t, a, b, start);
  }

  lemma OutcomesUntouched<M, U>(t: Table<M, U>, a: seq<Entry<M, U>>, b: seq<Entry<M, U>>)
    requires Distinct(a + b)
    ensures forall i :: 0 <= i < |b| ==> OutcomeOf(Applied(t, a), b[i]) == OutcomeOf(t, b[i])
  {
    var es := a + b;
    assert es[..|a|] == a;
    LaterRowsUntouched(t, es, |a|);
    AppliedAt(t, a);
    forall i | 0 <= i < |b| ensures OutcomeOf(Applied(t, a), b[i]) == OutcomeOf(t, b[i]) {
      forall k | 0 <= k < |a| ensures a[k].id != b[i].id { assert Differ(es[k], es[|a| + i]); }
      assert !Names(a, b[i].id);
    }
  }

  lemma {:induction false} LaterTally<M, U>(t: Table<M, U>, a: seq<Entry<M, U>>, b: seq<Entry<M, U>>, start: Tally)
    requires forall i :: 0 <= i < |b| ==> OutcomeOf(Applied(t, a), b[i]) == OutcomeOf(t, b[i])
    ensures TallyOf(TallyOf(start, t, a), Applied(t, a), b) == TallyOf(start, t, a + b)
  {
    if b == [] {
      assert a + b == a;
    } else {
      LaterTally(t, a, b[..|b| - 1], start);
      assert (a + b)[..|a + b| - 1] == a + b[..|b| - 1];
    }
  }

  lemma {:induction false} TallyCountsAll<M, U>(start: Tally, t: Table<M, U>, es: seq<Entry<M, U>>)
    ensures var r := TallyOf(start, t, es);
            r.inserted + r.updated + r.same == start.inserted + start.updated + start.same + |es|
  {
    if es != [] {
      TallyCountsAll(start, t, es[..|es| - 1]);
    }
  }

  // --------------------------------------------------------------------- running again

  /** The table already holds every desired row. */
  ghost predicate Settled<M, U>(t: Table<M, U>, es: seq<Entry<M, U>>) {
    forall i :: 0 <= i < |es| ==> es[i].id in t && t[es[i].id].key == es[i].row.key && Merge(t[es[i].id], es[i].row) == t[es[i].id]
  }

  lemma AppliedIsSettled<M, U>(t: Table<M, U>, es: seq<Entry<M, U>>)
    requires Distinct(es) && RowByRow(t, es).Ok?
    ensures Settled(Applied(t, es), es)
  {
    AppliedAt(t, es);
    RowByRowAcceptsEach(t, es);
    forall i | 0 <= i < |es| ensures es[i].id in t ==> t[es[i].id].key == es[i].row.key {
      assert AcceptsInTurn(t, es, i);
      AcceptedKeepsKey(t, es, i);
    }
  }

  lemma AcceptedKeepsKey<M, U>(t: Table<M, U>, es: seq<Entry<M, U>>, i: int)
    requires Distinct(es) && 0 <= i < |es| && AcceptsInTurn(t, es, i)
    ensures es[i].id in t ==> t[es[i].id].key == es[i].row.key
  {
    NoEarlierNames(es, i);
    AppliedAt(t, es[..i]);
  }

  lemma {:induction false} SettledApplies<M, U>(t: Table<M, U>, es: seq<Entry<M, U>>)
    requires Settled(t, es)
    ensures Applied(t, es) == t
  {
    if es != [] {
      SettledApplies(t, es[..|es| - 1]);
    }
  }

  /** A second run of the same source, with any batch size, succeeds, writes nothing and finds every row unchanged. */
  lemma SettledRunsAgain<M, U>(t: Table<M, U>, es: seq<Entry<M, U>>, size: nat)
    requires size >= 1 && UniqueTable(t) && Distinct(es) && Settled(t, es)
    ensures Batches(t, es, size) == Ok(t)
    ensures InsertedIds(t, es) == {} && ChangedScopes(t, es) == {}
    ensures TallyOf(Tally(0, 0, 0), t, es) == Tally(0, 0, |es|)
  {
    SettledAccepts(t, es);
    SettledApplies(t, es);
    BatchesExact(t, es, size);
    RowByRowAcceptsEach(t, es);
    forall i | 0 <= i < |es| ensures AcceptsInTurn(t, es, i) {
      AcceptsBefore(t, es, i);
    }
    forall i, j | 0 <= j < i < |es| ensures !Blocks(t, es, j, i) {
      AcceptsBefore(t, es, i);
    }
    SettledTally(t, es);
  }

  lemma SettledAccepts<M, U>(t: Table<M, U>, es: seq<Entry<M, U>>)
    requires UniqueTable(t) && Settled(t, es)
    ensures forall i :: 0 <= i < |es| ==> Accepts(t, es[i])
  {
    forall i | 0 <= i < |es| ensures Accepts(t, es[i]) {
      forall id ensures !HoldsKey(t, id, es[i]) && !HoldsHandle(t, id, es[i]) {
        assert t[es[i].id].handle == es[i].row.handle by { assert Merge(t[es[i].id], es[i].row) == t[es[i].id]; }
      }
    }
  }

  lemma {:induction false} SettledTally<M, U>(t: Table<M, U>, es: seq<Entry<M, U>>)
    requires Settled(t, es)
    ensures TallyOf(Tally(0, 0, 0), t, es) == Tally(0, 0, |es|)
    ensures InsertedIds(t, es) == {} && ChangedScopes(t, es) == {}
  {
    if es != [] {
      SettledTally(t, es[..|es| - 1]);
    }
    forall e | e in es ensures OutcomeOf(t, e).Unchanged? {
      var i :| 0 <= i < |es| && es[i] == e;
    }
  }

  // ---------------------------------------------------------------------- the code

  method FindRefusal<M, U>(t: Table<M, U>, e: Entry<M, U>) returns (refusal: Option<UpsertError>)
    ensures refusal == Refusal(t, e)
  {
    if id :| id in t && id != e.id && t[id].key == e.row.key {
      assert HoldsKey(t, id, e);
      return Some(KeyTaken(e.id));
    }
    assert forall id :: !HoldsKey(t, id, e);
    if e.row.handle.Some? {
      if id :| id in t && id != e.id && t[id].handle == e.row.handle {
        assert HoldsHandle(t, id, e);
        return Some(HandleTaken(e.id));
      }
    }
    assert forall id :: !HoldsHandle(t, id, e);
    if e.id in t && t[e.id].key != e.row.key { return Some(IdBelongsElsewhere(e.id)); }
    return None;
  }

  lemma NoEarlierNames<M, U>(es: seq<Entry<M, U>>, i: int)
    requires Distinct(es) && 0 <= i < |es|
    ensures Distinct(es[..i]) && !Names(es[..i], es[i].id)
  {
    forall k | 0 <= k < i ensures es[..i][k].id != es[i].id {
      assert Differ(es[k], es[i]);
    }
  }

  lemma EarlierRefusalStands<M, U>(t: Table<M, U>, es: seq<Entry<M, U>>, i: int)
    requires 0 <= i <= |es| && FirstRefusal(t, es[..i]).Some?
    ensures FirstRefusal(t, es) == FirstRefusal(t, es[..i])
    decreases |es| - i
  {
    if i == |es| {
      assert es[..i] == es;
    } else {
      assert es[..i + 1][..i] == es[..i];
      EarlierRefusalStands(t, es, i + 1);
    }
  }

  lemma WriteLast<K, V>(a: map<K, V>, b: map<K, V>, c: map<K, V>, k: K, v: V)
    ensures a + b + c[k := v] == (a + b + c)[k := v]
    ensures k !in c ==> a + b[k := v] + c == (a + b + c)[k := v]
  {
  }

  lemma AppliedMore<M, U>(t: Table<M, U>, front: seq<Entry<M, U>>, e: Entry<M, U>)
    requires Distinct(front) && !Names(front, e.id)
    ensures Applied(t, front + [e]) == Applied(t, front)[e.id := Placed(t, e)]
    ensures e.id in t ==> e.id in Applied(t, front) && Applied(t, front)[e.id] == t[e.id]
  {
    AppliedAt(t, front);
    assert (front + [e])[..|front|] == front;
  }

  lemma OneMoreWrite<M, U>(t: Table<M, U>, inserts: Table<M, U>, updates: Table<M, U>, front: seq<Entry<M, U>>, e: Entry<M, U>)
    requires Distinct(front) && !Names(front, e.id)
    requires t + inserts + updates == Applied(t, front)
    requires inserts.Keys !! t.Keys && updates.Keys <= t.Keys
    ensures var t' := Applied(t, front + [e]);
            && (e.id !in t ==> t' == t + inserts[e.id := e.row] + updates)
            && (e.id in t ==> t' == t + inserts + updates[e.id := Merge(t[e.id], e.row)])
            && (e.id in t && Merge(t[e.id], e.row) == t[e.id] ==> t' == t + inserts + updates)
  {
    AppliedMore(t, front, e);
    WriteLast(t, inserts, updates, e.id, Placed(t, e));
  }

  lemma OneMoreOutcome<M, U>(t: Table<M, U>, front: seq<Entry<M, U>>, e: Entry<M, U>, tally: Tally)
    ensures InsertedIds(t, front + [e]) == InsertedIds(t, front) + if OutcomeOf(t, e).Inserted? then {e.id} else {}
    ensures ChangedScopes(t, front + [e]) == ChangedScopes(t, front) + if OutcomeOf(t, e).Unchanged? then {} else {e.row.key.scope}
    ensures TallyOf(tally, t, front + [e]) == Counted(TallyOf(tally, t, front), OutcomeOf(t, e))
  {
    assert (front + [e])[..|front|] == front;
    assert forall x :: x in front + [e] <==> x in front || x == e;
  }

  /** What a batch has collected: rows to insert and to update, and what to report. */
  datatype Work<M, U> = Work(inserts: Table<M, U>, updates: Table<M, U>, inserted: set<Id>, changed: set<Id>, tally: Tally)

  ghost predicate WorkFits<M, U>(t: Table<M, U>, es: seq<Entry<M, U>>, tally: Tally, work: Work<M, U>) {
    && t + work.inserts + work.updates == Applied(t, es)
    && work.inserts.Keys !! t.Keys && work.updates.Keys <= t.Keys
    && work.inserted == InsertedIds(t, es) && work.changed == ChangedScopes(t, es)
    && work.tally == TallyOf(tally, t, es)
  }

  /** Take one row in. */
  function WithRow<M(==), U(==)>(t: Table<M, U>, work: Work<M, U>, e: Entry<M, U>): Work<M, U> {
    if e.id !in t then
      work.(inserts := work.inserts[e.id := e.row], inserted := work.inserted + {e.id}, changed := work.changed + {e.row.key.scope},
            tally := work.tally.(inserted := work.tally.inserted + 1))
    else if Merge(t[e.id], e.row) != t[e.id] then
      work.(updates := work.updates[e.id := Merge(t[e.id], e.row)], changed := work.changed + {e.row.key.scope},
            tally := work.tally.(updated := work.tally.updated + 1))
    else work.(tally := work.tally.(same := work.tally.same + 1))
  }

  lemma OneMoreRow<M, U>(t: Table<M, U>, front: seq<Entry<M, U>>, tally: Tally, work: Work<M, U>, e: Entry<M, U>)
    requires Distinct(front) && !Names(front, e.id) && WorkFits(t, front, tally, work)
    ensures WorkFits(t, front + [e], tally, WithRow(t, work, e))
  {
    OneMoreWrite(t, work.inserts, work.updates, front, e);
    OneMoreOutcome(t, front, e, tally);
  }

  lemma NextRow<M, U>(es: seq<Entry<M, U>>, i: nat)
    requires Distinct(es) && i < |es|
    ensures es[..i + 1] == es[..i] + [es[i]] && es[..i + 1][..i] == es[..i]
    ensures Distinct(es[..i]) && !Names(es[..i], es[i].id)
  {
    NoEarlierNames(es, i);
  }

  /** Compare a batch with the prefetched table, collect inserts and updates, write them together. */
  method UpsertBatch<M(==), U(==)>(t: Table<M, U>, batch: seq<Entry<M, U>>, tally: Tally)
    returns (r: Result<Change<M, U>, UpsertError>)
    requires Distinct(batch)
    ensures Batch(t, batch).Err? ==> r == Err(Batch(t, batch).error)
    ensures Batch(t, batch).Ok? ==>
      r == Ok(Change(Batch(t, batch).value, InsertedIds(t, batch), ChangedScopes(t, batch), TallyOf(tally, t, batch)))
  {
    var work: Work<M, U> := Work(map[], map[], {}, {}, tally);
    for i := 0 to |batch|
      invariant FirstRefusal(t, batch[..i]).None?
      invariant WorkFits(t, batch[..i], tally, work)
    {
      var refusal := FindRefusal(t, batch[i]);
      NextRow(batch, i);
      if refusal.Some? {
        EarlierRefusalStands(t, batch, i + 1);
        return Err(refusal.value);
      }
      OneMoreRow(t, batch[..i], tally, work, batch[i]);
      work := WithRow(t, work, batch[i]);
    }
    assert batch[..|batch|] == batch;
    return Ok(Change(t + work.inserts + work.updates, work.inserted, work.changed, work.tally));
  }

  lemma NextBatch<M, U>(t: Table<M, U>, es: seq<Entry<M, U>>, lo: nat, hi: nat, size: nat)
    requires size >= 1 && lo < |es| && hi == lo + Min(size, |es| - lo)
    ensures Batches(t, es[lo..], size) ==
              var first := Batch(t, es[lo..hi]);
              if first.Err? then first else Batches(first.value, es[hi..], size)
  {
    assert es[lo..][..hi - lo] == es[lo..hi] && es[lo..][hi - lo..] == es[hi..];
  }

  /** Upsert one slice and add its report to what came before. */
  method UpsertSlice<M(==), U(==)>(ghost t: Table<M, U>, ghost es: seq<Entry<M, U>>, ghost lo: nat, ghost hi: nat,
                                   slice: seq<Entry<M, U>>, state: Change<M, U>)
    returns (r: Result<Change<M, U>, UpsertError>)
    requires Distinct(es) && lo <= hi <= |es| && slice == es[lo..hi] && UpTo(t, es, lo, state)
    ensures Batch(state.table, slice).Err? ==> r == Err(Batch(state.table, slice).error)
    ensures Batch(state.table, slice).Ok? ==> r.Ok? && UpTo(t, es, hi, r.value) && r.value.table == Batch(state.table, slice).value
  {
    DistinctSlice(es, lo, hi);
    var r1 := UpsertBatch(state.table, slice, state.tally);
    if r1.Err? { return Err(r1.error); }
    OneMoreSlice(t, es, lo, hi, state, r1.value);
    return Ok(r1.value.(inserted := state.inserted + r1.value.inserted, changed := state.changed + r1.value.changed));
  }

  /** Upsert a sequence in slices of the given size. */
  method UpsertInBatches<M(==), U(==)>(t: Table<M, U>, es: seq<Entry<M, U>>, size: nat)
    returns (r: Result<Change<M, U>, UpsertError>)
    requires size >= 1 && Distinct(es)
    ensures Batches(t, es, size).Err? ==> r == Err(Batches(t, es, size).error)
    ensures Batches(t, es, size).Ok? ==> r.Ok? && UpTo(t, es, |es|, r.value)
  {
    var state: Change<M, U> := Change(t, {}, {}, Tally(0, 0, 0));
    var lo := 0;
    assert es[0..] == es && es[..0] == [];
    while lo < |es|
      invariant 0 <= lo <= |es|
      invariant Batches(t, es, size) == Batches(state.table, es[lo..], size)
      invariant UpTo(t, es, lo, state)
    {
      var hi := lo + Min(size, |es| - lo);
      NextBatch(state.table, es, lo, hi, size);
      var r1 := UpsertSlice(t, es, lo, hi, es[lo..hi], state);
      if r1.Err? { return r1; }
      state := r1.value;
      lo := hi;
    }
    return Ok(state);
  }

  /** The state of an import that has upserted the first n rows. */
  ghost predicate UpTo<M, U>(t: Table<M, U>, es: seq<Entry<M, U>>, n: nat, state: Change<M, U>)
    requires n <= |es|
  {
    && state.table == Applied(t, es[..n])
    && state.inserted == InsertedIds(t, es[..n])
    && state.changed == ChangedScopes(t, es[..n])
    && state.tally == TallyOf(Tally(0, 0, 0), t, es[..n])
  }

  lemma DistinctSlice<M, U>(es: seq<Entry<M, U>>, lo: nat, hi: nat)
    requires Distinct(es) && lo <= hi <= |es|
    ensures Distinct(es[lo..hi])
  {
    forall i, j | 0 <= i < j < hi - lo ensures Differ(es[lo..hi][i], es[lo..hi][j]) {
      assert Differ(es[lo + i], es[lo + j]);
    }
  }

  /** What upserting one slice reports. */
  ghost predicate SliceDone<M, U>(state: Change<M, U>, slice: seq<Entry<M, U>>, change: Change<M, U>) {
    change == Change(Applied(state.table, slice), InsertedIds(state.table, slice), ChangedScopes(state.table, slice),
                     TallyOf(state.tally, state.table, slice))
  }

  lemma OneMoreSlice<M, U>(t: Table<M, U>, es: seq<Entry<M, U>>, lo: nat, hi: nat, state: Change<M, U>, change: Change<M, U>)
    requires Distinct(es) && lo <= hi <= |es| && UpTo(t, es, lo, state)
    requires SliceDone(state, es[lo..hi], change)
    ensures UpTo(t, es, hi, change.(inserted := state.inserted + change.inserted, changed := state.changed + change.changed))
  {
    assert es[..hi] == es[..lo] + es[lo..hi];
    DistinctSlice(es, 0, hi);
    AppliedTwice(t, es[..lo], es[lo..hi]);
    LaterOutcomes(t, es[..lo], es[lo..hi], Tally(0, 0, 0));
  }
}
