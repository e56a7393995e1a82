/** Writing a stream of records into a destination table: load a temp table, copy
    it over in batches of distinct ids, then mark what the stream lacks as deleted. */
module DestinationWriter {
  import opened SyncTypes

  datatype Tenant = Tenant(applicationId: string, providerName: string, customerId: string)

  // Custom objects share one table and carry their object name in the key;
  // standard objects and common objects have tables of their own.
  datatype Key = Key(tenant: Tenant, objectName: Option<string>, id: int)
  datatype Row = Row(lastModified: int, deleted: bool, data: string)
  datatype Record = Record(id: int, row: Row)
  type Table = map<Key, Row>

  const BATCH_SIZE: nat := 10000

  // ---- The deduplicated temp table

  predicate HasId(temp: seq<Record>, id: int) {
    exists i :: 0 <= i < |temp| && temp[i].id == id
  }

  /** A row the temp table has for id, with the latest modification; rows with equal
      stamps are all candidates. */
  ghost predicate Latest(temp: seq<Record>, id: int, row: Row) {
    && Record(id, row) in temp
    && forall r :: r in temp && r.id == id ==> r.row.lastModified <= row.lastModified
  }

  predicate Sorted(order: seq<int>) {
    forall i, j :: 0 <= i < j < |order| ==> order[i] < order[j]
  }

  lemma SortedTail(order: seq<int>)
    requires Sorted(order) && order != []
    ensures Sorted(order[1..]) && forall x :: x in order[1..] ==> order[0] < x
    ensures forall x :: x in order <==> x == order[0] || x in order[1..]
  {
    assert order == [order[0]] + order[1..];
  }

  lemma SortedCons(first: int, rest: seq<int>)
    requires Sorted(rest) && forall x :: x in rest ==> first < x
    ensures Sorted([first] + rest)
  {
    assert forall i :: 0 <= i < |rest| ==> rest[i] in rest;
  }

  function Insert(order: seq<int>, id: int): (r: seq<int>)
    requires Sorted(order)
    ensures Sorted(r) && |r| <= |order| + 1
    ensures forall x :: x in r <==> x in order || x == id
  {
    if order == [] then [id]
    else
      SortedTail(order);
      if id < order[0] then
        SortedCons(id, order);
        [id] + order
      else if id == order[0] then order
      else
        var rest := Insert(order[1..], id);
        SortedCons(order[0], rest);
        [order[0]] + rest
  }

  /** The order of the select: every id once, ascending; no more ids than rows. */
  function Ascending(temp: seq<Record>): (order: seq<int>)
    ensures Sorted(order) && |order| <= |temp|
    ensures forall id :: id in order <==> HasId(temp, id)
  {
    if temp == [] then []
    else
      var init := temp[..|temp| - 1];
      assert forall id :: HasId(temp, id) <==> HasId(init, id) || id == temp[|temp| - 1].id;
      Insert(Ascending(init), temp[|temp| - 1].id)
  }

  /** SELECT DISTINCT ON (id) ... ORDER BY id, last_modified DESC OFFSET .. LIMIT .. */
  ghost predicate IsBatch(temp: seq<Record>, offset: nat, limit: nat, batch: seq<Record>) {
    var order := Ascending(temp);
    && |batch| == (if offset >= |order| then 0 else if |order| - offset <= limit then |order| - offset else limit)
    && forall i :: 0 <= i < |batch| ==> batch[i].id == order[offset + i] && Latest(temp, batch[i].id, batch[i].row)
  }

  method PickLatest(temp: seq<Record>, id: int) returns (r: Record)
    requires HasId(temp, id)
    ensures r.id == id && Latest(temp, id, r.row)
  {
    var i :| 0 <= i < |temp| && temp[i].id == id;
    r := temp[i];
    for j := 0 to |temp|
      invariant r in temp && r.id == id
      invariant forall k :: 0 <= k < j && temp[k].id == id ==> temp[k].row.lastModified <= r.row.lastModified
    {
      if temp[j].id == id && temp[j].row.lastModified > r.row.lastModified {
        r := temp[j];
      }
    }
  }

  method SelectDistinct(temp: seq<Record>, offset: nat, limit: nat) returns (batch: seq<Record>)
    ensures IsBatch(temp, offset, limit, batch)
  {
    batch := [];
    var order := Ascending(temp);
    while offset + |batch| < |order| && |batch| < limit
      invariant |batch| <= limit && (offset + |batch| <= |order| || |batch| == 0)
      invariant forall i :: 0 <= i < |batch| ==> batch[i].id == order[offset + i] && Latest(temp, batch[i].id, batch[i].row)
      decreases limit - |batch|
    {
      assert order[offset + |batch|] in order;
      var r := PickLatest(temp, order[offset + |batch|]);
      batch := batch + [r];
    }
  }

  function Prefix(order: seq<int>, n: nat): seq<int> {
    if n <= |order| then order[..n] else order
  }

  /** The ids of a batch follow those of the batches before, and are distinct. */
  lemma BatchIsNext(temp: seq<Record>, offset: nat, limit: nat, batch: seq<Record>)
    requires IsBatch(temp, offset, limit, batch)
    ensures Sorted(BatchIds(batch))
    ensures forall i :: 0 <= i < |batch| ==> Latest(temp, batch[i].id, batch[i].row)
    ensures forall id :: id in Prefix(Ascending(temp), offset + limit) <==> id in Prefix(Ascending(temp), offset) || id in BatchIds(batch)
  {
    hide Latest, Ascending, HasId;
    var order := Ascending(temp);
    if offset <= |order| {
      assert BatchIds(batch) == order[offset..offset + |batch|];
      assert Prefix(order, offset + limit) == order[..offset + |batch|] == order[..offset] + order[offset..offset + |batch|];
    } else {
      assert batch == [];
    }
  }

  function BatchIds(batch: seq<Record>): (ids: seq<int>)
    ensures |ids| == |batch| && forall i :: 0 <= i < |batch| ==> ids[i] == batch[i].id
  {
    seq(|batch|, i requires 0 <= i < |batch| => batch[i].id)
  }

  /** Whatever the selects pick among equal stamps, every id is in the batch its
      rank belongs to and in no other, and the loop reaches that batch. */
  lemma OneBatchPerId(temp: seq<Record>, rank: nat, j: nat, batch: seq<Record>)
    requires rank < |Ascending(temp)| && IsBatch(temp, j * BATCH_SIZE, BATCH_SIZE, batch)
    ensures Ascending(temp)[rank] in BatchIds(batch) <==> j == rank / BATCH_SIZE
    ensures rank / BATCH_SIZE * BATCH_SIZE < |temp|
  {
    hide Latest;
    var order, offset := Ascending(temp), j * BATCH_SIZE;
    assert forall i :: 0 <= i < |batch| ==> BatchIds(batch)[i] == order[offset + i];
    assert offset <= rank < offset + |batch| ==> BatchIds(batch)[rank - offset] == order[rank];
  }

  // ---- What a write does to the table

  ghost predicate Unchanged(rows: Table, rows': Table, k: Key) {
    (k in rows' <==> k in rows) && (k in rows ==> rows'[k] == rows[k])
  }

  /** Nothing changed outside the ids of one tenant and object. */
  ghost predicate SameOutside(rows: Table, rows': Table, t: Tenant, o: Option<string>, ids: seq<int>) {
    forall k: Key :: !(k.tenant == t && k.objectName == o && k.id in ids) ==> Unchanged(rows, rows', k)
  }

  ghost predicate IsCopied(rows: Table, t: Tenant, o: Option<string>, temp: seq<Record>, id: int) {
    Key(t, o, id) in rows && Latest(temp, id, rows[Key(t, o, id)])
  }

  /** One upsert of the deduplicated temp table. */
  ghost predicate Copied(rows: Table, rows': Table, t: Tenant, o: Option<string>, temp: seq<Record>) {
    && (forall id :: HasId(temp, id) ==> IsCopied(rows', t, o, temp, id))
    && SameOutside(rows, rows', t, o, Ascending(temp))
  }

  /** Some of its ids are copied. */
  ghost predicate PartlyCopied(rows: Table, rows': Table, t: Tenant, o: Option<string>, temp: seq<Record>) {
    && (forall id :: HasId(temp, id) ==> IsCopied(rows', t, o, temp, id) || Unchanged(rows, rows', Key(t, o, id)))
    && SameOutside(rows, rows', t, o, Ascending(temp))
  }

  predicate Missing(k: Key, t: Tenant, o: Option<string>, temp: seq<Record>) {
    k.tenant == t && k.objectName == o && !HasId(temp, k.id)
  }

  /** Rows of the tenant and object that the temp table lacks are marked deleted. */
  function MarkDeleted(rows: Table, t: Tenant, o: Option<string>, temp: seq<Record>): Table {
    map k | k in rows :: if Missing(k, t, o, temp) then rows[k].(deleted := true) else rows[k]
  }

  /** A whole write. */
  ghost predicate Written(rows: Table, rows': Table, t: Tenant, o: Option<string>, stream: seq<Record>, delete: bool) {
    exists copied :: Copied(rows, copied, t, o, stream) && rows' == if delete then MarkDeleted(copied, t, o, stream) else copied
  }

  /** A write that failed somewhere: every statement commits on its own, so a part
      of the ids may be copied, or all of them, or the marking may even be done. */
  ghost predicate Attempted(rows: Table, rows': Table, t: Tenant, o: Option<string>, stream: seq<Record>, delete: bool) {
    PartlyCopied(rows, rows', t, o, stream) || Written(rows, rows', t, o, stream, delete)
  }

  /** The exact latest modification, or nothing for an empty stream. */
  ghost predicate IsMax(stream: seq<Record>, max: Option<int>) {
    && (max.None? <==> stream == [])
    && (max.Some? ==>
          && (exists r :: r in stream && r.row.lastModified == max.value)
          && (forall r :: r in stream ==> r.row.lastModified <= max.value))
  }

  // ---- Properties of whole writes

  function LiveRecords(rows: Table, t: Tenant, o: Option<string>): set<Record> {
    set k | k in rows && k.tenant == t && k.objectName == o && !rows[k].deleted :: Record(k.id, rows[k])
  }

  /** The records of the stream with the latest stamp for their id. */
  ghost function Deduplicated(stream: seq<Record>): set<Record> {
    set r | r in stream && Latest(stream, r.id, r.row)
  }

  ghost predicate NoTies(stream: seq<Record>) {
    forall r, q :: r in stream && q in stream && r.id == q.id && r.row.lastModified == q.row.lastModified ==> r == q
  }

  /** After a full write that deletes, the live rows of the tenant and object are
      exactly the deduplicated stream rows that are not deleted themselves (with equal
      stamps, one of the candidates for each id), and every row the stream lacks is
      marked deleted and otherwise as before. */
  lemma FullWriteLeavesTheStream(rows: Table, rows': Table, t: Tenant, o: Option<string>, stream: seq<Record>)
    requires Written(rows, rows', t, o, stream, true)
    ensures LiveRecords(rows', t, o) <= set r | r in Deduplicated(stream) && !r.row.deleted
    ensures NoTies(stream) ==> LiveRecords(rows', t, o) == set r | r in Deduplicated(stream) && !r.row.deleted
    ensures forall id :: HasId(stream, id) ==> IsCopied(rows', t, o, stream, id)
    ensures forall k: Key :: k in rows && Missing(k, t, o, stream) ==> k in rows' && rows'[k] == rows[k].(deleted := true)
  {
    var copied :| Copied(rows, copied, t, o, stream) && rows' == MarkDeleted(copied, t, o, stream);
    forall k: Key | k in rows && Missing(k, t, o, stream) ensures k in rows' && rows'[k] == rows[k].(deleted := true) {
      assert Unchanged(rows, copied, k);
    }
    forall id | HasId(stream, id) ensures IsCopied(rows', t, o, stream, id) {
      assert IsCopied(copied, t, o, stream, id);
    }
    forall r | r in LiveRecords(rows', t, o) ensures r in Deduplicated(stream) && !r.row.deleted {
      assert HasId(stream, r.id);
      assert IsCopied(rows', t, o, stream, r.id);
    }
    forall r | NoTies(stream) && r in Deduplicated(stream) && !r.row.deleted ensures r in LiveRecords(rows', t, o) {
      var i :| 0 <= i < |stream| && stream[i] == r;
      assert HasId(stream, r.id) && IsCopied(rows', t, o, stream, r.id);
      var k := Key(t, o, r.id);
      assert Record(r.id, rows'[k]) in stream && Record(r.id, rows'[k]) == r;
      assert k in rows' && Record(k.id, rows'[k]) == r;
    }
  }

  /** A write touches no other tenant and no other object of the same table; one
      that does not delete touches no row the stream lacks. */
  lemma OthersAreUntouched(rows: Table, rows': Table, t: Tenant, o: Option<string>, stream: seq<Record>, delete: bool, k: Key)
    requires Attempted(rows, rows', t, o, stream, delete)
    requires k.tenant != t || k.objectName != o || (!delete && !HasId(stream, k.id))
    ensures Unchanged(rows, rows', k)
  {
    if !PartlyCopied(rows, rows', t, o, stream) {
      var copied :| Copied(rows, copied, t, o, stream) && rows' == if delete then MarkDeleted(copied, t, o, stream) else copied;
      assert Unchanged(rows, copied, k);
    }
  }

  /** Without equal stamps for one id, the stream determines the copied rows. */
  lemma CopyIsDetermined(rows: Table, a: Table, b: Table, t: Tenant, o: Option<string>, temp: seq<Record>)
    requires Copied(rows, a, t, o, temp) && Copied(rows, b, t, o, temp)
    requires NoTies(temp)
    ensures a == b
  {
    forall k: Key ensures (k in a <==> k in b) && (k in a ==> a[k] == b[k]) {
      if k.tenant == t && k.objectName == o && HasId(temp, k.id) {
        assert Record(k.id, a[Key(t, o, k.id)]) in temp && Record(k.id, b[Key(t, o, k.id)]) in temp;
      }
    }
  }

  datatype WriteResult = Wrote(maxLastModifiedAt: Option<int>, numRecords: nat) | Failed

  predicate ShouldDeleteRecords(isFullSync: bool, providerName: string) {
    isFullSync && providerName != "apollo"
  }

  /** The statements of the copy: one for each full or partial batch of the raw count. */
  function Batches(count: nat): nat {
    (count + 9999) / 10000
  }

  /** The statements of a whole write: the load, the copy, and the marking. */
  function Needed(count: nat, delete: bool): nat {
    1 + Batches(count) + if delete then 1 else 0
  }

  lemma BatchesLeft(count: nat, k: nat)
    ensures k * 10000 < count <==> k < Batches(count)
  {
  }

  class DestinationWriter {
    var rows: Table
    var statements: nat // how many more statements the connection carries before it fails

    constructor (rows: Table, statements: nat)
      ensures this.rows == rows && this.statements == statements
    {
      this.rows, this.statements := rows, statements;
    }

    /** INSERT ... ON CONFLICT DO UPDATE: the keys proposed must be distinct. */
    method Upsert(t: Tenant, o: Option<string>, batch: seq<Record>)
      requires Sorted(BatchIds(batch))
      modifies this`rows
      ensures forall i :: 0 <= i < |batch| ==> Key(t, o, batch[i].id) in rows && rows[Key(t, o, batch[i].id)] == batch[i].row
      ensures SameOutside(old(rows), rows, t, o, BatchIds(batch))
    {
      var ids := BatchIds(batch);
      for i := 0 to |batch|
        invariant forall j :: 0 <= j < i ==> Key(t, o, batch[j].id) in rows && rows[Key(t, o, batch[j].id)] == batch[j].row
        invariant SameOutside(old(rows), rows, t, o, ids)
      {
        assert ids[i] in ids && forall j :: 0 <= j < i ==> ids[j] < ids[i];
        rows := rows[Key(t, o, batch[i].id) := batch[i].row];
      }
    }

    /** The first n ids are copied, and nothing else changed. */
    ghost predicate CopiedUpTo(before: Table, t: Tenant, o: Option<string>, temp: seq<Record>, n: nat)
      reads this`rows
    {
      var copied := Prefix(Ascending(temp), n);
      && (forall id :: id in copied ==> IsCopied(rows, t, o, temp, id))
      && SameOutside(before, rows, t, o, copied)
    }

    lemma CopiedSome(before: Table, t: Tenant, o: Option<string>, temp: seq<Record>, n: nat)
      requires CopiedUpTo(before, t, o, temp, n)
      ensures PartlyCopied(before, rows, t, o, temp)
    {
      hide Latest, Ascending, HasId;
      forall id | HasId(temp, id)
        ensures IsCopied(rows, t, o, temp, id) || Unchanged(before, rows, Key(t, o, id))
      {
        assert id in Prefix(Ascending(temp), n) || id !in Prefix(Ascending(temp), n);
      }
    }

    lemma CopiedAll(before: Table, t: Tenant, o: Option<string>, temp: seq<Record>, n: nat)
      requires CopiedUpTo(before, t, o, temp, n) && n >= |temp|
      ensures Copied(before, rows, t, o, temp)
    {
      assert Prefix(Ascending(temp), n) == Ascending(temp);
      hide Latest, Ascending, HasId, Prefix;
    }

    /** One batch: its statement proposes no key twice, and copies exactly the ids
        ranked from offset on. */
    method CopyBatch(ghost before: Table, t: Tenant, o: Option<string>, temp: seq<Record>, offset: nat)
      requires CopiedUpTo(before, t, o, temp, offset)
      modifies this`rows
      ensures CopiedUpTo(before, t, o, temp, offset + BATCH_SIZE)
    {
      var batch := SelectDistinct(temp, offset, BATCH_SIZE);
      BatchIsNext(temp, offset, BATCH_SIZE, batch);
      hide Ascending, Latest, HasId, IsBatch, Prefix;
      ghost var order := Ascending(temp);
      Upsert(t, o, batch);
      forall id | id in Prefix(order, offset + BATCH_SIZE) ensures IsCopied(rows, t, o, temp, id) {
        if id in BatchIds(batch) {
          var i :| 0 <= i < |batch| && BatchIds(batch)[i] == id;
          assert rows[Key(t, o, id)] == batch[i].row;
        } else {
          assert Unchanged(old(rows), rows, Key(t, o, id));
        }
      }
    }

    /** Every id is written in exactly one batch, and counting up to the raw number
        of rows, duplicates included, reaches the last distinct id. */
    method CopyFromTemp(t: Tenant, o: Option<string>, temp: seq<Record>, tempTableRowCount: nat) returns (ok: bool)
      requires tempTableRowCount == |temp|
      modifies this
      ensures ok <==> old(statements) >= Batches(|temp|)
      ensures ok ==> Copied(old(rows), rows, t, o, temp) && statements == old(statements) - Batches(|temp|)
      ensures !ok ==> PartlyCopied(old(rows), rows, t, o, temp)
      ensures !ok ==> CopiedUpTo(old(rows), t, o, temp, old(statements) * BATCH_SIZE)
    {
      var offset := 0;
      ghost var k := 0;
      while offset < tempTableRowCount
        invariant offset == k * BATCH_SIZE && CopiedUpTo(old(rows), t, o, temp, offset)
        invariant k <= Batches(|temp|) && statements == old(statements) - k
        decreases tempTableRowCount - offset
      {
        BatchesLeft(|temp|, k);
        if statements == 0 {
          CopiedSome(old(rows), t, o, temp, offset);
          return false;
        }
        statements := statements - 1;
        CopyBatch(old(rows), t, o, temp, offset);
        offset := offset + BATCH_SIZE;
        k := k + 1;
      }
      BatchesLeft(|temp|, k);
      CopiedAll(old(rows), t, o, temp, offset);
      return true;
    }

    /** COPY into the temp table, counting rows and tracking the latest stamp. */
    method Load(stream: seq<Record>) returns (temp: seq<Record>, tempTableRowCount: nat, maxLastModifiedAt: Option<int>)
      ensures temp == stream && tempTableRowCount == |stream| && IsMax(stream, maxLastModifiedAt)
    {
      temp, tempTableRowCount, maxLastModifiedAt := [], 0, None;
      for i := 0 to |stream|
        invariant temp == stream[..i] && tempTableRowCount == i && IsMax(stream[..i], maxLastModifiedAt)
      {
        assert stream[..i + 1] == stream[..i] + [stream[i]];
        temp := temp + [stream[i]];
        tempTableRowCount := tempTableRowCount + 1;
        var lastModifiedAt := stream[i].row.lastModified;
        if maxLastModifiedAt.None? || lastModifiedAt > maxLastModifiedAt.value {
          maxLastModifiedAt := Some(lastModifiedAt);
        }
      }
      assert stream[..|stream|] == stream;
    }

    /** The shape both write methods share; they differ in the guard of the last
        statement. */
    method Write(t: Tenant, o: Option<string>, stream: seq<Record>, delete: bool) returns (r: WriteResult)
      modifies this
      ensures r.Wrote? <==> old(statements) >= Needed(|stream|, delete)
      ensures r.Wrote? ==>
        && Written(old(rows), rows, t, o, stream, delete)
        && IsMax(stream, r.maxLastModifiedAt) && r.numRecords == |stream|
      ensures r.Failed? ==> Attempted(old(rows), rows, t, o, stream, delete)
    {
      if statements == 0 {
        return Failed;
      }
      statements := statements - 1;
      var temp, tempTableRowCount, maxLastModifiedAt := Load(stream);
      var ok := CopyFromTemp(t, o, temp, tempTableRowCount);
      if !ok {
        return Failed;
      }
      ghost var copied := rows;
      if delete {
        if statements == 0 {
          return Failed;
        }
        statements := statements - 1;
        rows := MarkDeleted(rows, t, o, temp);
      }
      return Wrote(maxLastModifiedAt, tempTableRowCount);
    }

    method WriteRecordsImpl(t: Tenant, o: Option<string>, stream: seq<Record>, diffAndDeleteRecords: bool) returns (r: WriteResult)
      modifies this
      ensures var delete := diffAndDeleteRecords && t.providerName != "apollo";
              && (r.Wrote? <==> old(statements) >= Needed(|stream|, delete))
              && (r.Wrote? ==> Written(old(rows), rows, t, o, stream, delete) && IsMax(stream, r.maxLastModifiedAt) && r.numRecords == |stream|)
              && (r.Failed? ==> Attempted(old(rows), rows, t, o, stream, delete))
    {
      r := Write(t, o, stream, ShouldDeleteRecords(diffAndDeleteRecords, t.providerName));
    }

    method WriteCommonObjectRecordsImpl(t: Tenant, stream: seq<Record>, diffAndDeleteRecords: bool) returns (r: WriteResult)
      modifies this
      ensures r.Wrote? <==> old(statements) >= Needed(|stream|, diffAndDeleteRecords)
      ensures r.Wrote? ==> Written(old(rows), rows, t, None, stream, diffAndDeleteRecords) && IsMax(stream, r.maxLastModifiedAt) && r.numRecords == |stream|
      ensures r.Failed? ==> Attempted(old(rows), rows, t, None, stream, diffAndDeleteRecords)
    {
      r := Write(t, None, stream, diffAndDeleteRecords);
    }

    /** Upserting one record is writing a stream of one without deleting. */
    method UpsertRecordImpl(t: Tenant, o: Option<string>, record: Record)
      modifies this`rows
      ensures rows == old(rows)[Key(t, o, record.id) := record.row]
      ensures Written(old(rows), rows, t, o, [record], false)
    {
      rows := rows[Key(t, o, record.id) := record.row];
      assert Copied(old(rows), rows, t, o, [record]) by {
        forall id | HasId([record], id) ensures id == record.id && Latest([record], id, record.row) {
        }
        assert [record][0].id == record.id && HasId([record], record.id);
      }
    }
  }
}
