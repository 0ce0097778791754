/**
 Keyset pages over a table that changes between requests (backend/app/api/routes/candidates.py).
 A person is its sort key; the table of a request is its rows newest first.
 */
module CandidatePaging {
  import opened Options

  datatype Row = Row(createdAt: int, id: nat)

  // a comes before b on the pages.
  predicate Newer(a: Row, b: Row) {
    b.createdAt < a.createdAt || (b.createdAt == a.createdAt && b.id < a.id)
  }

  predicate NewestFirst(rows: seq<Row>) {
    forall i, j :: 0 <= i < j < |rows| ==> Newer(rows[i], rows[j])
  }

  predicate Beyond(cursor: Option<Row>, r: Row) {
    cursor.None? || Newer(cursor.value, r)
  }

  // The keyset condition of the query.
  function After(rows: seq<Row>, cursor: Option<Row>): seq<Row> {
    if rows == [] then [] else (if Beyond(cursor, rows[0]) then [rows[0]] else []) + After(rows[1..], cursor)
  }

  datatype Page = Page(items: seq<Row>, next: Option<Row>)

  // One row more than asked for is fetched, to learn whether there is a next page.
  function Fetch(rows: seq<Row>, cursor: Option<Row>, limit: nat): Page
    requires limit >= 1
  {
    var found := After(rows, cursor);
    var fetched := if |found| > limit + 1 then found[..limit + 1] else found;
    if |fetched| > limit then Page(fetched[..limit], Some(fetched[limit - 1])) else Page(fetched, None)
  }

  // All the items of a walk that follows the cursors, request k seeing tables[k]; and whether it ended.
  function Walk(tables: seq<seq<Row>>, cursor: Option<Row>, limit: nat): (seq<Row>, bool)
    requires limit >= 1
    decreases |tables|
  {
    if tables == [] then ([], false)
    else
      var page := Fetch(tables[0], cursor, limit);
      if page.next.None? then (page.items, true)
      else
        var (items, ended) := Walk(tables[1..], page.next, limit);
        (page.items + items, ended)
  }

  lemma {:induction false} AfterIsBeyond(rows: seq<Row>, cursor: Option<Row>)
    ensures forall r :: r in After(rows, cursor) <==> r in rows && Beyond(cursor, r)
    ensures NewestFirst(rows) ==> NewestFirst(After(rows, cursor))
    ensures |After(rows, cursor)| <= |rows|
  {
    if rows != [] {
      AfterIsBeyond(rows[1..], cursor);
      assert forall r :: r in rows <==> r == rows[0] || r in rows[1..];
      var rest := After(rows[1..], cursor);
      forall i | 0 <= i < |rest| && NewestFirst(rows) ensures Newer(rows[0], rest[i]) {
        assert rest[i] in rows[1..];
      }
    }
  }

  // The extra row fetched only decides whether there is a next page.
  lemma FetchedPage(rows: seq<Row>, cursor: Option<Row>, limit: nat)
    requires limit >= 1
    ensures var found := After(rows, cursor);
      Fetch(rows, cursor, limit) == if |found| > limit then Page(found[..limit], Some(found[limit - 1])) else Page(found, None)
  {
    var found := After(rows, cursor);
    if |found| > limit + 1 { assert found[..limit + 1][..limit] == found[..limit]; }
  }

  /** A page is the first rows beyond the cursor: all of them, or as many as asked for if more follow. */
  lemma PageIsPrefix(rows: seq<Row>, cursor: Option<Row>, limit: nat)
    requires limit >= 1 && NewestFirst(rows)
    ensures var page, found := Fetch(rows, cursor, limit), After(rows, cursor);
      && page.items <= found && NewestFirst(page.items)
      && (page.next.None? <==> page.items == found)
      && (page.next.Some? ==> |page.items| == limit && page.next.value == page.items[limit - 1] && Beyond(cursor, page.next.value))
      && (forall r :: r in page.items ==> r in rows && Beyond(cursor, r))
  {
    AfterIsBeyond(rows, cursor);
    FetchedPage(rows, cursor, limit);
    var found := After(rows, cursor);
    if |found| > limit {
      assert found[limit - 1] in found;
    }
  }

  lemma OnThePageOrBeyond(found: seq<Row>, limit: nat, r: Row)
    requires NewestFirst(found) && 1 <= limit < |found| && r in found
    ensures r in found[..limit] || Newer(found[limit - 1], r)
  {
    var k :| 0 <= k < |found| && found[k] == r;
    if k < limit { assert found[..limit][k] == r; }
  }

  // Whoever is beyond the old cursor and not on the page is beyond the new one.
  lemma PageSkipsNobody(rows: seq<Row>, cursor: Option<Row>, limit: nat, r: Row)
    requires limit >= 1 && NewestFirst(rows) && r in rows && Beyond(cursor, r)
    ensures var page := Fetch(rows, cursor, limit); r in page.items || (page.next.Some? && Newer(page.next.value, r))
  {
    AfterIsBeyond(rows, cursor);
    FetchedPage(rows, cursor, limit);
    if |After(rows, cursor)| > limit { OnThePageOrBeyond(After(rows, cursor), limit, r); }
  }

  ghost predicate AllNewestFirst(tables: seq<seq<Row>>) {
    forall k :: 0 <= k < |tables| ==> NewestFirst(tables[k])
  }

  lemma ChainPages(items: seq<Row>, rest: seq<Row>, last: Row)
    requires NewestFirst(items) && NewestFirst(rest) && items != [] && items[|items| - 1] == last
    requires forall r :: r in rest ==> Newer(last, r)
    ensures NewestFirst(items + rest)
  {
    forall i, j | 0 <= i < |items| && 0 <= j < |rest| ensures Newer(items[i], rest[j]) {
      assert Newer(last, rest[j]);
    }
  }

  /** Under any inserts and removals between requests, no person is returned twice. */
  lemma {:induction false} NobodyTwice(tables: seq<seq<Row>>, cursor: Option<Row>, limit: nat)
    requires limit >= 1 && AllNewestFirst(tables)
    ensures NewestFirst(Walk(tables, cursor, limit).0)
    ensures var rows := Walk(tables, cursor, limit).0; forall i, j :: 0 <= i < j < |rows| ==>
      rows[i].createdAt > rows[j].createdAt || (rows[i].createdAt == rows[j].createdAt && rows[i].id > rows[j].id)
    ensures forall r :: r in Walk(tables, cursor, limit).0 ==> Beyond(cursor, r)
    decreases |tables|
  {
    if tables != [] {
      PageIsPrefix(tables[0], cursor, limit);
      var page := Fetch(tables[0], cursor, limit);
      if page.next.Some? {
        assert tables[0] in tables;
        forall k | 0 <= k < |tables[1..]| ensures NewestFirst(tables[1..][k]) { assert tables[1..][k] == tables[k + 1]; }
        NobodyTwice(tables[1..], page.next, limit);
        var rest := Walk(tables[1..], page.next, limit).0;
        forall r | r in rest ensures Beyond(cursor, r) { }
        ChainPages(page.items, rest, page.next.value);
      }
    }
  }

  /** A person present in every table until the walk ends is returned; by NobodyTwice, exactly once. */
  lemma {:induction false} EverybodyPresentIsReturned(tables: seq<seq<Row>>, cursor: Option<Row>, limit: nat, r: Row)
    requires limit >= 1 && AllNewestFirst(tables) && Walk(tables, cursor, limit).1
    requires Beyond(cursor, r) && forall k :: 0 <= k < |tables| ==> r in tables[k]
    ensures r in Walk(tables, cursor, limit).0
    decreases |tables|
  {
    PageSkipsNobody(tables[0], cursor, limit, r);
    var page := Fetch(tables[0], cursor, limit);
    if page.next.Some? && r !in page.items {
      forall k | 0 <= k < |tables[1..]| ensures NewestFirst(tables[1..][k]) && r in tables[1..][k] {
        assert tables[1..][k] == tables[k + 1];
      }
      EverybodyPresentIsReturned(tables[1..], page.next, limit, r);
    }
  }

  /** Nobody is invented: whoever is returned was in the table of some request. */
  lemma {:induction false} OnlyPersonsAreReturned(tables: seq<seq<Row>>, cursor: Option<Row>, limit: nat, r: Row)
    requires limit >= 1 && AllNewestFirst(tables) && r in Walk(tables, cursor, limit).0
    ensures exists k :: 0 <= k < |tables| && r in tables[k]
    decreases |tables|
  {
    PageIsPrefix(tables[0], cursor, limit);
    var page := Fetch(tables[0], cursor, limit);
    if r !in page.items {
      forall k | 0 <= k < |tables[1..]| ensures NewestFirst(tables[1..][k]) { assert tables[1..][k] == tables[k + 1]; }
      OnlyPersonsAreReturned(tables[1..], page.next, limit, r);
      var k :| 0 <= k < |tables[1..]| && r in tables[1..][k];
      assert r in tables[k + 1];
    }
  }

  predicate Unchanged(tables: seq<seq<Row>>, rows: seq<Row>) {
    forall k :: 0 <= k < |tables| ==> tables[k] == rows
  }

  lemma SuffixIsNewer(found: seq<Row>, n: nat, last: Row)
    requires NewestFirst(found) && 1 <= n <= |found| && found[n - 1] == last
    ensures NewestFirst(found[n..]) && forall r :: r in found[n..] <==> r in found && Newer(last, r)
  {
    forall r | r in found && Newer(last, r) ensures r in found[n..] {
      var k :| 0 <= k < |found| && found[k] == r;
      assert k >= n;
      assert found[n..][k - n] == r;
    }
    forall r | r in found[n..] ensures r in found && Newer(last, r) {
      var k :| 0 <= k < |found[n..]| && found[n..][k] == r;
      assert found[n + k] == r;
    }
  }

  lemma BothEmptyOrNeither(a: seq<Row>, b: seq<Row>)
    requires forall r :: r in a <==> r in b
    ensures a == [] <==> b == []
  {
    if a != [] { assert a[0] in b; }
    if b != [] { assert b[0] in a; }
  }

  lemma FirstIsNewest(rows: seq<Row>, r: Row)
    requires NewestFirst(rows) && r in rows
    ensures r == rows[0] || Newer(rows[0], r)
  {
  }

  lemma SameNewest(a: seq<Row>, b: seq<Row>)
    requires NewestFirst(a) && NewestFirst(b) && (forall r :: r in a <==> r in b) && a != [] && b != []
    ensures a[0] == b[0]
  {
    FirstIsNewest(a, b[0]);
    FirstIsNewest(b, a[0]);
  }

  lemma HeadIsNotRepeated(a: seq<Row>, r: Row)
    requires NewestFirst(a) && a != []
    ensures r in a[1..] <==> r in a && r != a[0]
  {
    if r in a && r != a[0] {
      var i :| 0 <= i < |a| && a[i] == r;
      assert a[1..][i - 1] == r;
    }
    if r in a[1..] {
      var i :| 0 <= i < |a[1..]| && a[1..][i] == r;
      assert Newer(a[0], a[i + 1]);
    }
  }

  lemma {:induction false} SortedListsAgree(a: seq<Row>, b: seq<Row>)
    requires NewestFirst(a) && NewestFirst(b) && forall r :: r in a <==> r in b
    ensures a == b
    decreases |a|
  {
    BothEmptyOrNeither(a, b);
    if a != [] {
      SameNewest(a, b);
      forall r ensures r in a[1..] <==> r in b[1..] {
        HeadIsNotRepeated(a, r);
        HeadIsNotRepeated(b, r);
      }
      SortedListsAgree(a[1..], b[1..]);
      assert a == [a[0]] + a[1..] && b == [b[0]] + b[1..];
    }
  }

  // Moving the cursor to the last item of a page leaves exactly the rest.
  lemma AfterPage(rows: seq<Row>, cursor: Option<Row>, items: seq<Row>)
    requires NewestFirst(rows) && items != [] && items <= After(rows, cursor)
    ensures After(rows, Some(items[|items| - 1])) == After(rows, cursor)[|items|..]
  {
    var found, n, last := After(rows, cursor), |items|, items[|items| - 1];
    AfterIsBeyond(rows, cursor);
    AfterIsBeyond(rows, Some(last));
    assert found[n - 1] == last;
    SuffixIsNewer(found, n, last);
    forall r ensures r in After(rows, Some(last)) <==> r in found[n..] {
      if r in After(rows, Some(last)) {
        assert last in found && (cursor.Some? ==> Newer(cursor.value, last));
        assert r in found;
      }
    }
    SortedListsAgree(After(rows, Some(last)), found[n..]);
  }

  /** On a table that does not change, the walk ends and its pages are the table, in order. */
  lemma {:induction false} FixedTableIsReturned(tables: seq<seq<Row>>, rows: seq<Row>, cursor: Option<Row>, limit: nat)
    requires limit >= 1 && NewestFirst(rows) && Unchanged(tables, rows) && |tables| > |After(rows, cursor)|
    ensures Walk(tables, cursor, limit) == (After(rows, cursor), true)
    decreases |tables|
  {
    FetchedPage(rows, cursor, limit);
    var found := After(rows, cursor);
    if |found| > limit {
      AfterPage(rows, cursor, found[..limit]);
      FixedTableIsReturned(tables[1..], rows, Some(found[limit - 1]), limit);
      assert found[..limit] + found[limit..] == found;
    }
  }

  lemma AfterNone(rows: seq<Row>)
    ensures After(rows, None) == rows
  {
    if rows != [] { AfterNone(rows[1..]); }
  }

  /** From the first page, the pages of a table that does not change are the table itself. */
  lemma FixedTableFromTheStart(tables: seq<seq<Row>>, rows: seq<Row>, limit: nat)
    requires limit >= 1 && NewestFirst(rows) && Unchanged(tables, rows) && |tables| > |rows|
    ensures Walk(tables, None, limit) == (rows, true)
  {
    AfterNone(rows);
    FixedTableIsReturned(tables, rows, None, limit);
  }
}
