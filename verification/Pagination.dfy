/** Keyset pagination over the managed table: the query that feeds the paginator,
    the paginator, and walks along its cursors on an unchanged table. */
module Pagination {
  import opened SyncTypes
  import opened DestinationWriter

  datatype Cursor = Cursor(id: int, reverse: bool)
  datatype Page = Page(records: seq<int>, next: Option<Cursor>, previous: Option<Cursor>)
  datatype Response = Ok(page: Page) | BadRequest | TypeError

  const MAX_PAGE_SIZE: int := 1000

  predicate IsForward(cursor: Option<Cursor>) {
    cursor.None? || !cursor.value.reverse
  }

  // ---- The query. Rows are named by their ids, which are unique per tenant.

  /** WHERE: the rows of a tenant, modified after some time. The table is that of one
      object, and the query does not ask for the object again. */
  function Matching(table: Table, t: Tenant, modifiedAfter: Option<int>): set<int> {
    set k | k in table && k.tenant == t && (modifiedAfter.Some? ==> table[k].lastModified > modifiedAfter.value) :: k.id
  }

  /** The tenant has a row with the id, modified after the given time, if any. */
  ghost predicate HasRow(table: Table, t: Tenant, modifiedAfter: Option<int>, id: int) {
    exists k :: k in table && k.tenant == t && k.id == id && (modifiedAfter == None || modifiedAfter.value < table[k].lastModified)
  }

  lemma MatchingRows(table: Table, t: Tenant, modifiedAfter: Option<int>)
    ensures forall id :: id in Matching(table, t, modifiedAfter) <==> HasRow(table, t, modifiedAfter, id)
  {
  }

  predicate OnSide(cursor: Option<Cursor>, id: int) {
    cursor.Some? ==> if cursor.value.reverse then id < cursor.value.id else id > cursor.value.id
  }

  /** Which of two ids the query lists first. */
  predicate Before(cursor: Option<Cursor>, a: int, b: int) {
    if IsForward(cursor) then a < b else a > b
  }

  /** WHERE .. ORDER BY .. LIMIT: the nearest rows on the cursor's side, in order. */
  ghost predicate IsResult(ids: set<int>, limit: nat, cursor: Option<Cursor>, rows: seq<int>) {
    && |rows| <= limit
    && (forall i, j :: 0 <= i < j < |rows| ==> Before(cursor, rows[i], rows[j]))
    && (forall id :: id in rows ==> id in ids && OnSide(cursor, id))
    && (forall id :: id in ids && OnSide(cursor, id) && id !in rows ==>
          |rows| == limit && forall r :: r in rows ==> Before(cursor, r, id))
  }

  /** The next row of the result after those found so far. */
  method NearestLeft(order: seq<int>, cursor: Option<Cursor>, rows: seq<int>) returns (r: Option<int>)
    ensures r.Some? ==> r.value in order && OnSide(cursor, r.value) && r.value !in rows
    ensures r.Some? ==> forall id :: id in order && OnSide(cursor, id) && id !in rows ==> id == r.value || Before(cursor, r.value, id)
    ensures r.None? ==> forall id :: id in order && OnSide(cursor, id) ==> id in rows
  {
    r := None;
    for i := 0 to |order|
      invariant r.Some? ==> r.value in order && OnSide(cursor, r.value) && r.value !in rows
      invariant r.Some? ==> forall id :: id in order[..i] && OnSide(cursor, id) && id !in rows ==> id == r.value || Before(cursor, r.value, id)
      invariant r.None? ==> forall id :: id in order[..i] && OnSide(cursor, id) ==> id in rows
    {
      assert order[..i + 1] == order[..i] + [order[i]];
      if OnSide(cursor, order[i]) && order[i] !in rows && (r.None? || Before(cursor, order[i], r.value)) {
        r := Some(order[i]);
      }
    }
    assert order[..|order|] == order;
  }

  method Query(ids: set<int>, limit: nat, cursor: Option<Cursor>) returns (rows: seq<int>)
    ensures IsResult(ids, limit, cursor, rows)
  {
    var order := InAnyOrder(ids);
    rows := [];
    while |rows| < limit
      invariant |rows| <= limit
      invariant forall i, j :: 0 <= i < j < |rows| ==> Before(cursor, rows[i], rows[j])
      invariant forall id :: id in rows ==> id in ids && OnSide(cursor, id)
      invariant forall id, r :: id in ids && OnSide(cursor, id) && id !in rows && r in rows ==> Before(cursor, r, id)
      decreases limit - |rows|
    {
      var r := NearestLeft(order, cursor, rows);
      if r.None? {
        return;
      }
      rows := rows + [r.value];
    }
  }

  // ---- The paginator

  function Reverse(s: seq<int>): (r: seq<int>)
    ensures |r| == |s| && forall i :: 0 <= i < |s| ==> r[i] == s[|s| - 1 - i]
    ensures forall x :: x in r <==> x in s
  {
    var r := seq(|s|, i requires 0 <= i < |s| => s[|s| - 1 - i]);
    assert forall i :: 0 <= i < |s| ==> s[i] == r[|s| - 1 - i];
    r
  }

  /** `getPaginatedSupaglueRecords`: reading rows[0] of an empty result throws. */
  function GetPaginated(rows: seq<int>, pageSize: nat, cursor: Option<Cursor>): Response
    requires pageSize >= 1
  {
    if |rows| == pageSize + 1 then
      if IsForward(cursor) then
        Ok(Page(rows[..pageSize],
                Some(Cursor(rows[pageSize - 1], false)),
                if cursor.Some? then Some(Cursor(rows[0], true)) else None))
      else
        Ok(Page(Reverse(rows[1..]), Some(Cursor(rows[0], false)), Some(Cursor(rows[pageSize - 1], true))))
    else if cursor.None? then
      Ok(Page(rows, None, None))
    else if rows == [] then
      TypeError
    else if IsForward(cursor) then
      Ok(Page(rows, None, Some(Cursor(rows[0], true))))
    else
      Ok(Page(Reverse(rows), Some(Cursor(rows[0], false)), None))
  }

  /** `#getRecords` on the rows that match. */
  ghost predicate Responds(ids: set<int>, pageSize: int, cursor: Option<Cursor>, r: Response) {
    if pageSize < 1 || pageSize > MAX_PAGE_SIZE then r == BadRequest
    else exists rows :: IsResult(ids, pageSize + 1, cursor, rows) && r == GetPaginated(rows, pageSize, cursor)
  }

  method GetRecords(table: Table, t: Tenant, modifiedAfter: Option<int>, pageSize: int, cursor: Option<Cursor>)
    returns (r: Response)
    ensures Responds(Matching(table, t, modifiedAfter), pageSize, cursor, r)
    ensures r == BadRequest <==> pageSize <= 0 || pageSize > 1000
    ensures r == TypeError <==>
      1 <= pageSize <= 1000 && cursor.Some? && forall id :: HasRow(table, t, modifiedAfter, id) ==> !OnSide(cursor, id)
    ensures r.Ok? ==> |r.page.records| <= pageSize && forall id :: id in r.page.records ==> HasRow(table, t, modifiedAfter, id)
  {
    if pageSize < 1 {
      return BadRequest;
    }
    if pageSize > MAX_PAGE_SIZE {
      return BadRequest;
    }
    var rows := Query(Matching(table, t, modifiedAfter), pageSize + 1, cursor);
    r := GetPaginated(rows, pageSize, cursor);
    assert r.Ok? ==> forall id :: id in r.page.records ==> id in rows;
    assert rows != [] ==> rows[0] in rows;
    MatchingRows(table, t, modifiedAfter);
  }

  // ---- Results are determined

  lemma {:induction false} SameSoFar(ids: set<int>, limit: nat, cursor: Option<Cursor>, a: seq<int>, b: seq<int>, i: nat)
    requires IsResult(ids, limit, cursor, a) && IsResult(ids, limit, cursor, b) && i <= |a| && i <= |b|
    ensures a[..i] == b[..i]
  {
    if i > 0 {
      SameSoFar(ids, limit, cursor, a, b, i - 1);
      assert forall j :: 0 <= j < i - 1 ==> a[j] == a[..i - 1][j] == b[..i - 1][j] == b[j];
      var x, y := a[i - 1], b[i - 1];
      assert x in a && y in b;
      assert x == y || Before(cursor, y, x);
      assert x == y || Before(cursor, x, y);
    }
  }

  lemma OneMore(cursor: Option<Cursor>, s: seq<int>, n: nat)
    requires n <= |s| && forall i, j :: 0 <= i < j < |s| ==> Before(cursor, s[i], s[j])
    ensures n == |s| || exists x :: x in s && x !in s[..n]
  {
    if n < |s| {
      assert s[n] in s && s[n] !in s[..n];
    }
  }

  lemma NotShorter(ids: set<int>, limit: nat, cursor: Option<Cursor>, a: seq<int>, b: seq<int>)
    requires IsResult(ids, limit, cursor, a) && IsResult(ids, limit, cursor, b) && |a| <= |b| && a == b[..|a|]
    ensures |a| == |b|
  {
    OneMore(cursor, b, |a|);
  }

  lemma ResultIsDetermined(ids: set<int>, limit: nat, cursor: Option<Cursor>, a: seq<int>, b: seq<int>)
    requires IsResult(ids, limit, cursor, a) && IsResult(ids, limit, cursor, b)
    ensures a == b
  {
    var n := if |a| <= |b| then |a| else |b|;
    SameSoFar(ids, limit, cursor, a, b, n);
    assert a[..|a|] == a && b[..|b|] == b;
    if |a| <= |b| {
      NotShorter(ids, limit, cursor, a, b);
    } else {
      NotShorter(ids, limit, cursor, b, a);
    }
  }

  /** Rows of other tenants make no difference, whether they change, come or go. */
  lemma OthersMakeNoDifference(table: Table, table': Table, t: Tenant, modifiedAfter: Option<int>, pageSize: int, cursor: Option<Cursor>,
                               r: Response, r': Response)
    requires forall k :: k in table.Keys + table'.Keys && k.tenant == t ==> k in table && k in table' && table[k] == table'[k]
    requires Responds(Matching(table, t, modifiedAfter), pageSize, cursor, r)
    requires Responds(Matching(table', t, modifiedAfter), pageSize, cursor, r')
    ensures r == r'
  {
    var ids := Matching(table, t, modifiedAfter);
    assert ids == Matching(table', t, modifiedAfter);
    if 1 <= pageSize <= MAX_PAGE_SIZE {
      var a :| IsResult(ids, pageSize + 1, cursor, a) && r == GetPaginated(a, pageSize, cursor);
      var b :| IsResult(ids, pageSize + 1, cursor, b) && r' == GetPaginated(b, pageSize, cursor);
      hide IsResult, GetPaginated;
      ResultIsDetermined(ids, pageSize + 1, cursor, a, b);
    }
  }

  predicate Increasing(s: seq<int>) {
    forall i, j :: 0 <= i < j < |s| ==> s[i] < s[j]
  }

  lemma TailElements(s: seq<int>, x: int)
    requires Increasing(s) && s != []
    ensures x in s[1..] <==> x in s && x != s[0]
  {
    assert s == [s[0]] + s[1..];
    if x in s[1..] {
      var i :| 0 <= i < |s[1..]| && s[1..][i] == x;
      assert s[0] < s[i + 1];
    }
  }

  lemma {:induction false} SameElements(a: seq<int>, b: seq<int>)
    requires Increasing(a) && Increasing(b) && forall x :: x in a <==> x in b
    ensures a == b
  {
    assert a != [] ==> a[0] in a;
    assert b != [] ==> b[0] in b;
    if a != [] {
      assert a[0] in b && b[0] in a;
      assert a[0] == b[0];
      forall x ensures x in a[1..] <==> x in b[1..] {
        TailElements(a, x);
        TailElements(b, x);
      }
      SameElements(a[1..], b[1..]);
      assert a == [a[0]] + a[1..] && b == [b[0]] + b[1..];
    }
  }

  // ---- Safety of walks

  /** The cursor names a row, and there is a row on the side it points to. */
  ghost predicate Sound(ids: set<int>, c: Cursor) {
    c.id in ids && exists x :: x in ids && OnSide(Some(c), x)
  }

  ghost predicate SoundPage(ids: set<int>, p: Page) {
    && (p.next.Some? ==> Sound(ids, p.next.value) && !p.next.value.reverse)
    && (p.previous.Some? ==> Sound(ids, p.previous.value) && p.previous.value.reverse)
  }

  /** A request with a sound cursor, or none, is answered with a page whose cursors
      are sound; with a cursor the page is not empty. */
  lemma SoundRequest(ids: set<int>, pageSize: int, cursor: Option<Cursor>, r: Response)
    requires Responds(ids, pageSize, cursor, r) && 1 <= pageSize <= MAX_PAGE_SIZE
    requires cursor.Some? ==> Sound(ids, cursor.value)
    ensures r.Ok? && SoundPage(ids, r.page) && (cursor.Some? ==> r.page.records != [])
  {
    var rows :| IsResult(ids, pageSize + 1, cursor, rows) && r == GetPaginated(rows, pageSize, cursor);
    if cursor.Some? {
      var x :| x in ids && OnSide(cursor, x);
      assert x in rows || |rows| == pageSize + 1;
    }
    assert forall i :: 0 <= i < |rows| ==> rows[i] in rows;
    if |rows| == pageSize + 1 {
      assert Before(cursor, rows[pageSize - 1], rows[pageSize]);
      assert rows[pageSize] in ids && rows[0] in ids && rows[pageSize - 1] in ids;
    }
  }

  datatype Request = Request(pageSize: int, cursor: Option<Cursor>, response: Response)

  /** Any mix of `next` and `previous`, with any page sizes. */
  ghost predicate Walk(ids: set<int>, walk: seq<Request>) {
    && (forall i :: 0 <= i < |walk| ==>
          1 <= walk[i].pageSize <= MAX_PAGE_SIZE && Responds(ids, walk[i].pageSize, walk[i].cursor, walk[i].response))
    && (walk != [] ==> walk[0].cursor == None)
    && (forall i :: 0 < i < |walk| ==> Follows(walk, i))
  }

  predicate Follows(walk: seq<Request>, i: nat)
    requires 0 < i < |walk|
  {
    && walk[i].cursor.Some? && walk[i - 1].response.Ok?
    && (walk[i].cursor == walk[i - 1].response.page.next || walk[i].cursor == walk[i - 1].response.page.previous)
  }

  lemma {:induction false} WalksAreSafe(ids: set<int>, walk: seq<Request>, i: nat)
    requires Walk(ids, walk) && i < |walk|
    ensures walk[i].response.Ok? && SoundPage(ids, walk[i].response.page)
    ensures i > 0 ==> walk[i].cursor.Some? && Sound(ids, walk[i].cursor.value) && walk[i].response.page.records != []
  {
    hide Responds, Sound;
    if i > 0 {
      WalksAreSafe(ids, walk, i - 1);
      assert Follows(walk, i);
    }
    SoundRequest(ids, walk[i].pageSize, walk[i].cursor, walk[i].response);
  }

  // ---- Forward pagination is complete

  /** The increasing list of the smallest ids. */
  ghost predicate IsPrefix(ids: set<int>, s: seq<int>) {
    && Increasing(s)
    && (forall x :: x in s ==> x in ids)
    && (forall x, y :: x in ids && x !in s && y in s ==> y < x)
  }

  /** What has been read, and the cursor to go on from. */
  ghost predicate ReadSoFar(ids: set<int>, s: seq<int>, next: Option<Cursor>) {
    && IsPrefix(ids, s)
    && match next
       case None => forall x :: x in ids ==> x in s
       case Some(c) => s != [] && c == Cursor(s[|s| - 1], false) && exists x :: x in ids && x !in s
  }

  /** A forward page extends what has been read. */
  lemma NextPage(ids: set<int>, s: seq<int>, cursor: Option<Cursor>, pageSize: int, r: Response)
    requires 1 <= pageSize <= MAX_PAGE_SIZE && Responds(ids, pageSize, cursor, r)
    requires if s == [] then cursor == None else cursor.Some? && ReadSoFar(ids, s, cursor)
    ensures r.Ok? && ReadSoFar(ids, s + r.page.records, r.page.next)
    ensures cursor.Some? || r.page.next.Some? ==> r.page.records != []
  {
    var rows :| IsResult(ids, pageSize + 1, cursor, rows) && r == GetPaginated(rows, pageSize, cursor);
    assert s != [] ==> s[|s| - 1] in s;
    assert forall x :: x in ids ==> (OnSide(cursor, x) <==> x !in s);
    if cursor.Some? {
      var x :| x in ids && x !in s;
      assert x in rows || |rows| == pageSize + 1;
    }
    var page := if |rows| == pageSize + 1 then rows[..pageSize] else rows;
    PageExtends(ids, s, cursor, pageSize, rows, page);
  }

  lemma PageExtends(ids: set<int>, s: seq<int>, cursor: Option<Cursor>, pageSize: nat, rows: seq<int>, page: seq<int>)
    requires IsResult(ids, pageSize + 1, cursor, rows) && IsForward(cursor) && IsPrefix(ids, s) && pageSize >= 1
    requires forall x :: x in ids ==> (OnSide(cursor, x) <==> x !in s)
    requires page == if |rows| == pageSize + 1 then rows[..pageSize] else rows
    ensures IsPrefix(ids, s + page)
    ensures |rows| == pageSize + 1 ==> rows[pageSize] in ids && rows[pageSize] !in s + page
    ensures |rows| != pageSize + 1 ==> forall x :: x in ids ==> x in s + page
  {
    assert forall i :: 0 <= i < |rows| ==> rows[i] in rows;
    assert |rows| == pageSize + 1 ==> rows == rows[..pageSize] + [rows[pageSize]];
    assert forall x :: x in s + page <==> x in s || x in page;
    assert forall x :: x in page ==> x in rows;
    forall i, j | 0 <= i < j < |s + page| ensures (s + page)[i] < (s + page)[j] {
      if i < |s| <= j {
        assert s[i] in s && page[j - |s|] in page;
      }
    }
    forall x, y | x in ids && x !in s + page && y in s + page ensures y < x {
      if y in page {
        assert x !in s && OnSide(cursor, x);
        if x in rows {
          assert x == rows[pageSize];
        }
      }
    }
    if |rows| == pageSize + 1 {
      assert rows[pageSize] !in page;
    }
  }

  function Records(walk: seq<Request>): seq<int> {
    if walk == [] || !walk[|walk| - 1].response.Ok? then []
    else Records(walk[..|walk| - 1]) + walk[|walk| - 1].response.page.records
  }

  /** From the start, always following `next`. */
  ghost predicate ForwardWalk(ids: set<int>, walk: seq<Request>) {
    Walk(ids, walk) && forall i :: 0 < i < |walk| ==> FollowsNext(walk, i)
  }

  predicate FollowsNext(walk: seq<Request>, i: nat)
    requires 0 < i < |walk|
  {
    walk[i - 1].response.Ok? && walk[i - 1].response.page.next == walk[i].cursor
  }

  lemma {:induction false} ForwardWalkReads(ids: set<int>, walk: seq<Request>)
    requires ForwardWalk(ids, walk) && walk != []
    ensures walk[|walk| - 1].response.Ok?
    ensures ReadSoFar(ids, Records(walk), walk[|walk| - 1].response.page.next)
    ensures walk[|walk| - 1].response.page.next.Some? ==> |Records(walk)| >= |walk|
    ensures |Records(walk)| >= |walk| - 1
  {
    var n := |walk| - 1;
    if n == 0 {
      NextPage(ids, [], None, walk[0].pageSize, walk[0].response);
      assert Records(walk[..0]) == [];
    } else {
      var init := walk[..n];
      forall i | 0 < i < |init| ensures FollowsNext(init, i) && Follows(init, i) {
        assert FollowsNext(walk, i) && Follows(walk, i);
      }
      ForwardWalkReads(ids, init);
      assert FollowsNext(walk, n) && Follows(walk, n);
      NextPage(ids, Records(init), walk[n].cursor, walk[n].pageSize, walk[n].response);
    }
    hide Responds, ReadSoFar;
  }

  /** Followed to the end, with whatever page sizes, the pages together are every
      matching row exactly once in id order. */
  lemma ForwardIsComplete(ids: set<int>, walk: seq<Request>)
    requires ForwardWalk(ids, walk) && walk != [] && walk[|walk| - 1].response.Ok? && walk[|walk| - 1].response.page.next == None
    ensures Increasing(Records(walk)) && forall id :: id in Records(walk) <==> id in ids
  {
    ForwardWalkReads(ids, walk);
  }

  /** About the table: the pages together are every row of the tenant modified after the
      given time, exactly once in id order, and nobody else's. */
  lemma ForwardListsTenant(table: Table, t: Tenant, modifiedAfter: Option<int>, walk: seq<Request>)
    requires ForwardWalk(Matching(table, t, modifiedAfter), walk)
    requires walk != [] && walk[|walk| - 1].response.Ok? && walk[|walk| - 1].response.page.next == None
    ensures Increasing(Records(walk)) && forall id :: id in Records(walk) <==> HasRow(table, t, modifiedAfter, id)
  {
    hide ForwardWalk;
    ForwardIsComplete(Matching(table, t, modifiedAfter), walk);
  }

  /** And the end is reached: a walk has at most one page more than there are rows. */
  lemma ForwardTerminates(ids: set<int>, walk: seq<Request>)
    requires ForwardWalk(ids, walk)
    ensures |walk| <= |ids| + 1
  {
    if walk != [] {
      ForwardWalkReads(ids, walk);
      IncreasingFits(ids, Records(walk));
    }
  }

  lemma {:induction false} IncreasingFits(ids: set<int>, s: seq<int>)
    requires Increasing(s) && forall x :: x in s ==> x in ids
    ensures |s| <= |ids|
    decreases |s|
  {
    if s != [] {
      assert s[0] in s && s[0] in ids;
      forall x | x in s[1..] ensures x in ids - {s[0]} {
        TailElements(s, x);
      }
      IncreasingFits(ids - {s[0]}, s[1..]);
    }
  }

  // ---- Going back

  /** The rows before an id. */
  function RowsBefore(ids: set<int>, id: int): set<int> {
    set x | x in ids && x < id
  }

  ghost predicate IsListOf(s: seq<int>, ids: set<int>) {
    Increasing(s) && forall x :: x in s <==> x in ids
  }

  lemma {:induction false} ListSize(s: seq<int>, ids: set<int>)
    requires IsListOf(s, ids)
    ensures |s| == |ids|
    decreases |s|
  {
    if s == [] {
      assert forall x :: x in ids ==> x in s;
      assert ids == {};
    } else {
      assert s[0] in s;
      forall x ensures x in s[1..] <==> x in ids - {s[0]} {
        TailElements(s, x);
      }
      ListSize(s[1..], ids - {s[0]});
    }
  }

  ghost predicate IsNearest(ids: set<int>, id: int, nearest: int) {
    nearest in RowsBefore(ids, id) && forall x :: x in RowsBefore(ids, id) ==> x <= nearest
  }

  lemma ReverseIncreases(ids: set<int>, c: Cursor, limit: nat, rows: seq<int>)
    requires c.reverse && IsResult(ids, limit, Some(c), rows)
    ensures Increasing(Reverse(rows)) && Increasing(Reverse(rows[(if rows == [] then 0 else 1)..]))
    ensures |rows| < limit ==> IsListOf(Reverse(rows), RowsBefore(ids, c.id))
    ensures |rows| <= |RowsBefore(ids, c.id)|
    ensures rows != [] ==> IsNearest(ids, c.id, rows[0])
  {
    IncreasingFits(RowsBefore(ids, c.id), Reverse(rows));
    if rows != [] {
      assert rows[0] in rows && forall i :: 0 <= i < |rows| ==> rows[i] in rows;
      forall x | x in RowsBefore(ids, c.id) ensures x <= rows[0] {
        assert OnSide(Some(c), x);
      }
    }
  }

  /** A reverse page is short exactly when no more than a page of rows precede the
      cursor: then it lists them all in order, and its `next` resumes right behind
      them. A full one leaves out the row nearest to the cursor. */
  lemma ReversePage(ids: set<int>, c: Cursor, n: int, r: Response)
    requires 1 <= n <= MAX_PAGE_SIZE && c.reverse && Sound(ids, c) && Responds(ids, n, Some(c), r)
    ensures r.Ok? && r.page.next.Some? && IsNearest(ids, c.id, r.page.next.value.id) && !r.page.next.value.reverse
    ensures Increasing(r.page.records) && forall x :: x in r.page.records ==> x in RowsBefore(ids, c.id)
    ensures |RowsBefore(ids, c.id)| <= n <==> IsListOf(r.page.records, RowsBefore(ids, c.id))
    ensures |RowsBefore(ids, c.id)| <= n <==> r.page.next.value.id in r.page.records
    ensures |RowsBefore(ids, c.id)| <= n <==> r.page.previous.None?
  {
    var rows :| IsResult(ids, n + 1, Some(c), rows) && r == GetPaginated(rows, n, Some(c));
    SoundRequest(ids, n, Some(c), r);
    ReverseIncreases(ids, c, n + 1, rows);
    assert forall i :: 1 <= i < |rows| ==> rows[i] < rows[0];
    hide IsResult, Responds, Sound;
    if |rows| <= n {
      ListSize(Reverse(rows), RowsBefore(ids, c.id));
    } else {
      assert rows[0] !in rows[1..];
    }
  }

  /** The n rows right before an id, in order. */
  ghost predicate PrecedingPage(ids: set<int>, s: seq<int>, n: nat, id: int) {
    && Increasing(s) && |s| == n && (forall x :: x in s ==> x in RowsBefore(ids, id))
    && forall x, y :: x in RowsBefore(ids, id) && x !in s && y in s ==> x < y
  }

  lemma FullReverse(ids: set<int>, c: Cursor, n: int, r: Response)
    requires 1 <= n <= MAX_PAGE_SIZE && c.reverse && Responds(ids, n, Some(c), r) && r.Ok? && r.page.previous.Some?
    ensures r.page.records != [] && r.page.records[0] in ids && r.page.records[0] < c.id
    ensures var d := r.page.previous.value; d.reverse && RowsBefore(ids, d.id) == RowsBefore(ids, r.page.records[0]) + {r.page.records[0]}
    ensures |RowsBefore(ids, r.page.previous.value.id)| == |RowsBefore(ids, r.page.records[0])| + 1
  {
    var rows :| IsResult(ids, n + 1, Some(c), rows) && r == GetPaginated(rows, n, Some(c));
    var first, last := rows[n], rows[n - 1];
    assert first in rows && last in rows && r.page.records[0] == first;
    forall x ensures x in RowsBefore(ids, last) <==> x in RowsBefore(ids, first) + {first} {
      if x in rows {
        var i :| 0 <= i < |rows| && rows[i] == x;
      }
    }
  }

  lemma ReverseRows(ids: set<int>, d: Cursor, n: int, r: Response, first: int)
    requires 1 <= n <= MAX_PAGE_SIZE && d.reverse && Responds(ids, n, Some(d), r) && r.Ok?
    requires RowsBefore(ids, d.id) == RowsBefore(ids, first) + {first} && |RowsBefore(ids, first)| >= n
    ensures PrecedingPage(ids, r.page.records, n, first)
  {
    var rows :| IsResult(ids, n + 1, Some(d), rows) && r == GetPaginated(rows, n, Some(d));
    ReverseIncreases(ids, d, n + 1, rows);
    if |rows| < n + 1 {
      ListSize(Reverse(rows), RowsBefore(ids, d.id));
    }
    assert first in RowsBefore(ids, d.id) && OnSide(Some(d), first);
    assert rows[0] == first;
    ReverseTail(ids, d, n, rows);
  }

  lemma ReverseTail(ids: set<int>, d: Cursor, n: nat, rows: seq<int>)
    requires d.reverse && IsResult(ids, n + 1, Some(d), rows) && |rows| == n + 1 && rows[0] < d.id
    requires Increasing(Reverse(rows[1..]))
    ensures PrecedingPage(ids, Reverse(rows[1..]), n, rows[0])
  {
    var s := Reverse(rows[1..]);
    assert rows == [rows[0]] + rows[1..];
    forall x | x in s ensures x in RowsBefore(ids, rows[0]) {
      assert x in rows[1..];
    }
    forall x, y | x in RowsBefore(ids, rows[0]) && x !in s && y in s ensures x < y {
      assert x !in rows && y in rows && OnSide(Some(d), x);
    }
  }

  /** Going on backwards from a full reverse page with the same page size gives the rows
      right before it, none left out and none repeated, exactly when at least a page of
      them is left; otherwise all of them, and the first row of the page again. */
  lemma PreviousGoesOn(ids: set<int>, c: Cursor, n: int, r: Response, r': Response)
    requires 1 <= n <= MAX_PAGE_SIZE && c.reverse && Sound(ids, c)
    requires Responds(ids, n, Some(c), r) && r.Ok? && r.page.previous.Some? && Responds(ids, n, r.page.previous, r')
    ensures r'.Ok? && r.page.records != []
    ensures var first := r.page.records[0];
            && (PrecedingPage(ids, r'.page.records, n, first) <==> |RowsBefore(ids, first)| >= n)
            && (|RowsBefore(ids, first)| < n ==> IsListOf(r'.page.records, RowsBefore(ids, first) + {first}))
  {
    SoundRequest(ids, n, Some(c), r);
    var d := r.page.previous.value;
    SoundRequest(ids, n, Some(d), r');
    FullReverse(ids, c, n, r);
    var first := r.page.records[0];
    if |RowsBefore(ids, first)| >= n {
      ReverseRows(ids, d, n, r', first);
    } else {
      ReversePage(ids, d, n, r');
      hide Responds, Sound;
      assert first in r'.page.records && first !in RowsBefore(ids, first);
    }
  }

  /** Going on from a reverse page, whatever its size, gives the rows from the
      cursor on: `next` undoes `previous`. */
  lemma NextUndoesPrevious(ids: set<int>, c: Cursor, n: int, back: Response, m: int, on: Response)
    requires 1 <= n <= MAX_PAGE_SIZE && 1 <= m <= MAX_PAGE_SIZE && c.reverse && Sound(ids, c)
    requires Responds(ids, n, Some(c), back) && back.Ok? && Responds(ids, m, back.page.next, on)
    ensures on.Ok? && on.page.records != [] && on.page.records[0] == c.id
  {
    ReversePage(ids, c, n, back);
    var nearest := back.page.next.value.id;
    assert OnSide(back.page.next, c.id);
    SoundRequest(ids, m, back.page.next, on);
    var rows :| IsResult(ids, m + 1, back.page.next, rows) && on == GetPaginated(rows, m, back.page.next);
    assert rows[0] in rows && on.page.records[0] == rows[0];
    var first := rows[0];
    assert first < c.id ==> first in RowsBefore(ids, c.id);
    assert c.id in rows ==> rows[0] <= c.id;
  }

  /** Going back from the page after P, with the same page size, gives P again
      exactly when P was the first page: no more than a page of rows precede. */
  lemma PreviousUndoesNext(ids: set<int>, n: int, cursor: Option<Cursor>, p: Response, q: Response, back: Response)
    requires 1 <= n <= MAX_PAGE_SIZE && IsForward(cursor) && (cursor.Some? ==> Sound(ids, cursor.value))
    requires Responds(ids, n, cursor, p) && p.Ok? && p.page.next.Some?
    requires Responds(ids, n, p.page.next, q) && q.Ok? && q.page.previous.Some?
    requires Responds(ids, n, q.page.previous, back) && back.Ok?
    ensures back.page.records == p.page.records <==> |RowsBefore(ids, q.page.previous.value.id)| <= n
  {
    SoundRequest(ids, n, cursor, p);
    SoundRequest(ids, n, p.page.next, q);
    var c := q.page.previous.value;
    PageBefore(ids, n, cursor, p, q);
    ReversePage(ids, c, n, back);
    hide Responds, Sound;
    if |RowsBefore(ids, c.id)| <= n {
      IncreasingFits(RowsBefore(ids, c.id), p.page.records);
      FullList(p.page.records, RowsBefore(ids, c.id));
      SameElements(back.page.records, p.page.records);
    }
  }

  /** A list of distinct elements as long as the set has them all. */
  lemma {:induction false} FullList(s: seq<int>, ids: set<int>)
    requires Increasing(s) && (forall x :: x in s ==> x in ids) && |s| >= |ids|
    ensures IsListOf(s, ids)
    decreases |s|
  {
    forall x | x in ids ensures x in s {
      if x !in s {
        IncreasingFits(ids - {x}, s);
      }
    }
  }

  /** The page before: n rows, the last of them right before the next page. */
  lemma PageBefore(ids: set<int>, n: int, cursor: Option<Cursor>, p: Response, q: Response)
    requires 1 <= n <= MAX_PAGE_SIZE && IsForward(cursor)
    requires Responds(ids, n, cursor, p) && p.Ok? && p.page.next.Some?
    requires Responds(ids, n, p.page.next, q) && q.Ok? && q.page.previous.Some? && q.page.records != []
    ensures var c := q.page.previous.value; var s := p.page.records;
            && Increasing(s) && |s| == n && (forall x :: x in s ==> x in RowsBefore(ids, c.id))
            && IsNearest(ids, c.id, s[n - 1])
  {
    FullForwardPage(ids, n, cursor, p);
    hide Increasing;
    var next, last := p.page.next, p.page.next.value.id;
    var rows :| IsResult(ids, n + 1, p.page.next, rows) && q == GetPaginated(rows, n, p.page.next);
    assert rows[0] in rows && q.page.previous.value.id == rows[0];
    forall x | x in RowsBefore(ids, rows[0]) ensures x <= last {
      assert x > last ==> OnSide(next, x);
      assert x > last ==> x !in rows;
    }
  }

  lemma FullForwardPage(ids: set<int>, n: int, cursor: Option<Cursor>, p: Response)
    requires 1 <= n <= MAX_PAGE_SIZE && IsForward(cursor)
    requires Responds(ids, n, cursor, p) && p.Ok? && p.page.next.Some?
    ensures var s := p.page.records;
            && Increasing(s) && |s| == n && (forall x :: x in s ==> x in ids && x <= s[n - 1])
            && p.page.next == Some(Cursor(s[n - 1], false))
  {
    var rows :| IsResult(ids, n + 1, cursor, rows) && p == GetPaginated(rows, n, cursor);
    assert forall i :: 0 <= i < n ==> p.page.records[i] == rows[i] && rows[i] in rows;
  }

  const SECOND := Page([2], Some(Cursor(2, false)), Some(Cursor(2, true)))
  const THIRD := Page([3], None, Some(Cursor(3, true)))
  const BACK := Page([1], Some(Cursor(2, false)), Some(Cursor(2, true)))

  lemma OnToThird()
    ensures Responds({1, 2, 3}, 1, Some(Cursor(1, false)), Ok(SECOND)) && Responds({1, 2, 3}, 1, SECOND.next, Ok(THIRD))
  {
    assert IsResult({1, 2, 3}, 2, Some(Cursor(1, false)), [2, 3]);
    assert GetPaginated([2, 3], 1, Some(Cursor(1, false))) == Ok(SECOND);
    assert IsResult({1, 2, 3}, 2, SECOND.next, [3]);
    assert GetPaginated([3], 1, SECOND.next) == Ok(THIRD);
    hide IsResult, GetPaginated;
  }

  lemma BackFromThird()
    ensures Responds({1, 2, 3}, 1, THIRD.previous, Ok(BACK))
  {
    assert IsResult({1, 2, 3}, 2, THIRD.previous, [2, 1]);
    assert [2, 1][1..] == [1] && Reverse([1]) == [1];
    assert GetPaginated([2, 1], 1, THIRD.previous) == Ok(BACK);
    hide IsResult, GetPaginated;
  }

  /** Rows 1, 2 and 3, one to a page: back from the page of 3 comes the page of 1, and
      the page of 2 is left out. */
  lemma BackSkipsPage()
    ensures exists ids, first: Cursor, p: Page, q: Page, back: Page ::
              && Sound(ids, first) && !first.reverse
              && Responds(ids, 1, Some(first), Ok(p)) && p.records == [2]
              && Responds(ids, 1, p.next, Ok(q)) && q.records == [3]
              && Responds(ids, 1, q.previous, Ok(back)) && back.records == [1]
  {
    assert Sound({1, 2, 3}, Cursor(1, false)) by { assert 2 in {1, 2, 3} && OnSide(Some(Cursor(1, false)), 2); }
    hide Responds, Sound;
    OnToThird();
    BackFromThird();
  }

  lemma BackAgain()
    ensures Responds({1, 2, 3}, 1, BACK.previous, Ok(Page([1], Some(Cursor(1, false)), None)))
  {
    assert IsResult({1, 2, 3}, 2, BACK.previous, [1]);
    assert Reverse([1]) == [1];
    assert GetPaginated([1], 1, BACK.previous) == Ok(Page([1], Some(Cursor(1, false)), None));
    hide IsResult, GetPaginated;
  }

  /** The same table: going back once more from the page of 1 gives it again. */
  lemma BackRepeatsRow()
    ensures exists ids, first: Cursor, p: Page, q: Page ::
              && Sound(ids, first) && first.reverse
              && Responds(ids, 1, Some(first), Ok(p)) && p.records == [1]
              && Responds(ids, 1, p.previous, Ok(q)) && q.records == [1]
  {
    assert Sound({1, 2, 3}, THIRD.previous.value) by { assert 1 in {1, 2, 3} && OnSide(THIRD.previous, 1); }
    BackFromThird();
    BackAgain();
    hide Responds, Sound;
  }
}
