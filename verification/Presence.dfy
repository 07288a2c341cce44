/** Paging the subscriptions of a gateway: rows sorted by id, pages resumed after the last id returned. */
module Presence {
  import opened Common

  const MAX_PAGE := 500
  const DEFAULT_PAGE := 100

  datatype Row = Row(id: string, kind: string)

  // ----- The order of ids -----

  predicate Less(a: string, b: string) {
    if b == [] then false
    else if a == [] then true
    else if a[0] != b[0] then a[0] < b[0]
    else Less(a[1..], b[1..])
  }

  lemma {:induction false} LessIsStrict(a: string, b: string)
    ensures !(Less(a, b) && Less(b, a))
    ensures Less(a, b) || Less(b, a) || a == b
    ensures !Less(a, a)
  {
    if a != [] && b != [] && a[0] == b[0] {
      LessIsStrict(a[1..], b[1..]);
      assert a == [a[0]] + a[1..] && b == [b[0]] + b[1..];
    }
    if a != [] {
      LessIsStrict(a[1..], a[1..]);
    }
  }

  lemma {:induction false} LessIsTransitive(a: string, b: string, c: string)
    requires Less(a, b) && Less(b, c)
    ensures Less(a, c)
  {
    if a != [] && a[0] == b[0] && b[0] == c[0] {
      LessIsTransitive(a[1..], b[1..], c[1..]);
    }
  }

  // ----- Sorting by id -----

  /** No row comes after one with a greater id. */
  ghost predicate Sorted(rows: seq<Row>) {
    forall i, j :: 0 <= i < j < |rows| ==> !Less(rows[j].id, rows[i].id)
  }

  ghost predicate DistinctIds(rows: seq<Row>) {
    forall i, j :: 0 <= i < j < |rows| ==> rows[i].id != rows[j].id
  }

  /** `x` after every row that is not greater, so equal ids keep their order. */
  function Insert(rows: seq<Row>, x: Row): (r: seq<Row>)
    ensures multiset(r) == multiset(rows) + multiset{x}
  {
    if rows == [] || !Less(x.id, rows[|rows| - 1].id) then rows + [x]
    else
      assert rows == rows[..|rows| - 1] + [rows[|rows| - 1]];
      Insert(rows[..|rows| - 1], x) + [rows[|rows| - 1]]
  }

  function Sort(rows: seq<Row>): (r: seq<Row>)
    ensures multiset(r) == multiset(rows)
  {
    if rows == [] then []
    else
      assert rows == rows[..|rows| - 1] + [rows[|rows| - 1]];
      Insert(Sort(rows[..|rows| - 1]), rows[|rows| - 1])
  }

  lemma AppendSorts(rows: seq<Row>, x: Row)
    requires Sorted(rows) && forall i :: 0 <= i < |rows| ==> !Less(x.id, rows[i].id)
    ensures Sorted(rows + [x])
  {
  }

  lemma {:induction false} InsertSorts(rows: seq<Row>, x: Row)
    requires Sorted(rows)
    ensures Sorted(Insert(rows, x))
  {
    var n := |rows|;
    if n == 0 || !Less(x.id, rows[n - 1].id) {
      forall i | 0 <= i < n ensures !Less(x.id, rows[i].id) {
        if i < n - 1 {
          NotLessChain(x.id, rows[n - 1].id, rows[i].id);
        }
      }
      AppendSorts(rows, x);
    } else {
      var front, last := rows[..n - 1], rows[n - 1];
      InsertSorts(front, x);
      var r := Insert(front, x);
      LessIsStrict(x.id, last.id);
      forall i | 0 <= i < |r| ensures !Less(last.id, r[i].id) {
        assert r[i] in multiset(r);
        assert r[i] in front || r[i] == x;
      }
      AppendSorts(r, last);
    }
  }

  lemma NotLessChain(a: string, b: string, c: string)
    requires !Less(a, b) && !Less(b, c)
    ensures !Less(a, c)
  {
    LessIsStrict(a, b);
    LessIsStrict(b, c);
    LessIsStrict(a, c);
    if Less(a, c) {
      if a == b { } else if b == c { } else {
        LessIsTransitive(c, b, a);
      }
    }
  }

  lemma {:induction false} SortSorts(rows: seq<Row>)
    ensures Sorted(Sort(rows))
  {
    if rows != [] {
      SortSorts(rows[..|rows| - 1]);
      InsertSorts(Sort(rows[..|rows| - 1]), rows[|rows| - 1]);
    }
  }

  /** Distinct ids are a fact about the rows, not their order. */
  lemma SortKeepsDistinct(rows: seq<Row>)
    requires DistinctIds(rows)
    ensures DistinctIds(Sort(rows))
  {
    var s := Sort(rows);
    forall i, j | 0 <= i < j < |s| ensures s[i].id != s[j].id {
      if s[i].id == s[j].id {
        DistinctHasNoTwins(rows, s, i, j);
      }
    }
  }

  lemma DistinctHasNoTwins(rows: seq<Row>, s: seq<Row>, i: nat, j: nat)
    requires DistinctIds(rows) && multiset(s) == multiset(rows)
    requires i < j < |s|
    ensures s[i].id != s[j].id
  {
    if s[i].id == s[j].id {
      assert s[i] in multiset(rows) && s[j] in multiset(rows);
      var a :| 0 <= a < |rows| && rows[a] == s[i];
      var b :| 0 <= b < |rows| && rows[b] == s[j];
      assert a == b;
      assert s[i] == s[j];
      TwiceCounts(s, i, j);
      OnceCounts(rows, a);
    }
  }

  lemma TwiceCounts(s: seq<Row>, i: nat, j: nat)
    requires i < j < |s| && s[i] == s[j]
    ensures multiset(s)[s[i]] >= 2
  {
    assert s == s[..i] + [s[i]] + s[i + 1..j] + [s[j]] + s[j + 1..];
  }

  lemma OnceCounts(rows: seq<Row>, a: nat)
    requires DistinctIds(rows) && a < |rows|
    ensures multiset(rows)[rows[a]] == 1
  {
    assert rows == rows[..a] + [rows[a]] + rows[a + 1..];
    assert rows[a] !in rows[..a] && rows[a] !in rows[a + 1..];
  }

  // ----- One page -----

  function PageSize(limit: Option<nat>): (n: nat)
    ensures 1 <= n <= MAX_PAGE
  {
    var asked := if limit.Some? then limit.value else DEFAULT_PAGE;
    if asked < 1 then 1 else if MAX_PAGE < asked then MAX_PAGE else asked
  }

  /** The rows past `cursor`. */
  function After(rows: seq<Row>, cursor: Option<string>): seq<Row> {
    if rows == [] then []
    else
      (if cursor.None? || Less(cursor.value, rows[0].id) then [rows[0]] else []) + After(rows[1..], cursor)
  }

  datatype Page = Page(rows: seq<Row>, cursor: Option<string>)

  /** The first `size` rows; one more is taken to see whether there is a next page. */
  function Cut(after: seq<Row>, size: nat): Page
    requires size > 0
  {
    var taken := if |after| <= size + 1 then after else after[..size + 1];
    if |taken| > size then Page(taken[..size], Some(taken[size - 1].id)) else Page(taken, None)
  }

  /** One page of the sorted rows of a query. */
  function PageOf(sorted: seq<Row>, cursor: Option<string>, limit: Option<nat>): Page {
    Cut(After(sorted, cursor), PageSize(limit))
  }

  lemma {:induction false} AfterNone(rows: seq<Row>)
    ensures After(rows, None) == rows
  {
    if rows != [] {
      AfterNone(rows[1..]);
    }
  }

  ghost predicate NonePast(rows: seq<Row>, cursor: string) {
    forall i :: 0 <= i < |rows| ==> !Less(cursor, rows[i].id)
  }

  ghost predicate AllPast(rows: seq<Row>, cursor: string) {
    forall i :: 0 <= i < |rows| ==> Less(cursor, rows[i].id)
  }

  /** Where the first rows are not past the cursor and the rest are, the rest is what comes after it. */
  lemma {:induction false} AfterSplit(front: seq<Row>, rest: seq<Row>, cursor: string)
    requires NonePast(front, cursor) && AllPast(rest, cursor)
    ensures After(front + rest, Some(cursor)) == rest
    decreases |front| + |rest|
  {
    if front != [] {
      assert (front + rest)[1..] == front[1..] + rest;
      AfterSplit(front[1..], rest, cursor);
    } else if rest != [] {
      assert (front + rest)[1..] == [] + rest[1..];
      AfterSplit([], rest[1..], cursor);
    } else {
      assert front + rest == [];
    }
  }

  lemma FrontNotPast(rows: seq<Row>, k: nat)
    requires Sorted(rows) && k < |rows|
    ensures NonePast(rows[..k + 1], rows[k].id)
  {
    LessIsStrict(rows[k].id, rows[k].id);
  }

  lemma RestPast(rows: seq<Row>, k: nat)
    requires Sorted(rows) && DistinctIds(rows) && k < |rows|
    ensures AllPast(rows[k + 1..], rows[k].id)
  {
    var rest := rows[k + 1..];
    forall i | 0 <= i < |rest| ensures Less(rows[k].id, rest[i].id) {
      LessIsStrict(rows[k].id, rest[i].id);
    }
  }

  lemma AfterCut(rows: seq<Row>, k: nat, cursor: string)
    requires k <= |rows| && NonePast(rows[..k], cursor) && AllPast(rows[k..], cursor)
    ensures After(rows, Some(cursor)) == rows[k..]
  {
    AfterSplit(rows[..k], rows[k..], cursor);
    assert rows[..k] + rows[k..] == rows;
  }

  /** Past the id of row `k - 1` come exactly the rows from `k` on. */
  lemma CursorResumes(rows: seq<Row>, k: nat)
    requires Sorted(rows) && DistinctIds(rows) && 0 < k <= |rows|
    ensures After(rows, Some(rows[k - 1].id)) == rows[k..]
  {
    FrontNotPast(rows, k - 1);
    RestPast(rows, k - 1);
    AfterCut(rows, k, rows[k - 1].id);
  }

  /** The cursor that resumes at row `k` of the sorted rows. */
  ghost predicate ResumesAt(sorted: seq<Row>, cursor: Option<string>, k: nat) {
    k <= |sorted| && (if cursor.None? then k == 0 else k > 0 && cursor.value == sorted[k - 1].id)
  }

  lemma CutTakesFront(sorted: seq<Row>, k: nat, size: nat)
    requires k <= |sorted| && size > 0
    ensures Cut(sorted[k..], size) ==
      if |sorted| - k > size then Page(sorted[k..k + size], Some(sorted[k + size - 1].id)) else Page(sorted[k..], None)
  {
    if |sorted| - k > size + 1 {
      assert sorted[k..][..size + 1][..size] == sorted[k..k + size];
    }
  }

  /** One page holds the next rows in id order, and has no cursor exactly when they are the last. */
  lemma PageTakesNext(sorted: seq<Row>, cursor: Option<string>, limit: Option<nat>, k: nat)
    requires Sorted(sorted) && DistinctIds(sorted) && ResumesAt(sorted, cursor, k)
    ensures var page := PageOf(sorted, cursor, limit); var size := PageSize(limit);
      && (if |sorted| - k > size
          then page.rows == sorted[k..k + size] && page.cursor.Some? && ResumesAt(sorted, page.cursor, k + size)
          else page.rows == sorted[k..] && page.cursor.None?)
  {
    if cursor.None? {
      AfterNone(sorted);
    } else {
      CursorResumes(sorted, k);
    }
    CutTakesFront(sorted, k, PageSize(limit));
  }

  /** A limit up to the largest page is honoured while so many rows are left; without one a page holds a hundred. */
  lemma LimitHonoured(sorted: seq<Row>, cursor: Option<string>, limit: Option<nat>, k: nat)
    requires Sorted(sorted) && DistinctIds(sorted) && ResumesAt(sorted, cursor, k)
    ensures var left := |sorted| - k; var rows := |PageOf(sorted, cursor, limit).rows|;
      match limit
      case None => rows == Min(left, 100)
      case Some(n) => rows == Min(left, if n == 0 then 1 else Min(n, 500))
  {
    PageTakesNext(sorted, cursor, limit, k);
  }

  // ----- Following cursors -----

  datatype Walk = Walk(rows: seq<Row>, done: bool)

  /** What a caller collects by following cursors over a fixed row set, one page per limit. */
  function Follow(rows: seq<Row>, cursor: Option<string>, limits: seq<Option<nat>>): Walk {
    FollowSorted(Sort(rows), cursor, limits)
  }

  function FollowSorted(sorted: seq<Row>, cursor: Option<string>, limits: seq<Option<nat>>): Walk
    decreases |limits|
  {
    if limits == [] then Walk([], false)
    else
      var page := PageOf(sorted, cursor, limits[0]);
      if page.cursor.None? then Walk(page.rows, true)
      else
        var rest := FollowSorted(sorted, page.cursor, limits[1..]);
        Walk(page.rows + rest.rows, rest.done)
  }

  /** A walk of `calls` pages from row `k`. */
  ghost predicate Walked(sorted: seq<Row>, walk: Walk, calls: nat, k: nat) {
    && k <= |sorted|
    && (walk.done ==> walk.rows == sorted[k..])
    && (calls > |sorted| - k ==> walk.done)
  }

  lemma WalkedOn(sorted: seq<Row>, rest: Walk, calls: nat, k: nat, size: nat)
    requires 0 < size && k + size <= |sorted| && Walked(sorted, rest, calls, k + size)
    ensures Walked(sorted, Walk(sorted[k..k + size] + rest.rows, rest.done), calls + 1, k)
  {
    assert sorted[k..k + size] + sorted[k + size..] == sorted[k..];
  }

  lemma {:induction false} FollowFrom(sorted: seq<Row>, cursor: Option<string>, limits: seq<Option<nat>>, k: nat)
    requires Sorted(sorted) && DistinctIds(sorted) && ResumesAt(sorted, cursor, k)
    ensures Walked(sorted, FollowSorted(sorted, cursor, limits), |limits|, k)
    decreases |limits|
  {
    if limits != [] {
      var page := PageOf(sorted, cursor, limits[0]);
      var size := PageSize(limits[0]);
      PageTakesNext(sorted, cursor, limits[0], k);
      if page.cursor.Some? {
        FollowFrom(sorted, page.cursor, limits[1..], k + size);
        WalkedOn(sorted, FollowSorted(sorted, page.cursor, limits[1..]), |limits| - 1, k, size);
      }
    }
  }

  /** The walk ends with every row of the query, each once, in id order. */
  ghost predicate Complete(rows: seq<Row>, limits: seq<Option<nat>>) {
    var walk := Follow(rows, None, limits);
    walk.done && Sorted(walk.rows) && multiset(walk.rows) == multiset(rows)
  }

  lemma SortLength(rows: seq<Row>)
    ensures |Sort(rows)| == |rows|
  {
    assert |Sort(rows)| == |multiset(Sort(rows))| == |multiset(rows)| == |rows|;
  }

  /** Following cursors with any limits is complete once enough pages were asked for. */
  lemma PagingIsComplete(rows: seq<Row>, limits: seq<Option<nat>>)
    requires DistinctIds(rows) && |limits| > |rows|
    ensures Complete(rows, limits)
  {
    SortSorts(rows);
    SortKeepsDistinct(rows);
    SortLength(rows);
    FollowFrom(Sort(rows), None, limits, 0);
  }

  // ----- Rows that share an id -----

  /** Strictly increasing ids, all past `cursor`. */
  ghost predicate Increasing(rows: seq<Row>, cursor: Option<string>) {
    && (forall i :: 0 <= i < |rows| && cursor.Some? ==> Less(cursor.value, rows[i].id))
    && (forall i, j :: 0 <= i < j < |rows| ==> Less(rows[i].id, rows[j].id))
  }

  lemma {:induction false} AfterIsPast(rows: seq<Row>, cursor: Option<string>)
    ensures forall i :: 0 <= i < |After(rows, cursor)| && cursor.Some? ==> Less(cursor.value, After(rows, cursor)[i].id)
  {
    if rows != [] {
      AfterIsPast(rows[1..], cursor);
    }
  }

  /** Pages of one row never return an id twice. */
  lemma {:induction false} SingleRowPagesIncrease(sorted: seq<Row>, cursor: Option<string>, limits: seq<Option<nat>>)
    requires forall i :: 0 <= i < |limits| ==> limits[i] == Some(1)
    ensures Increasing(FollowSorted(sorted, cursor, limits).rows, cursor)
    decreases |limits|
  {
    if limits != [] {
      var page := PageOf(sorted, cursor, limits[0]);
      AfterIsPast(sorted, cursor);
      assert limits[0] == Some(1) && PageSize(limits[0]) == 1;
      if page.cursor.Some? {
        SingleRowPagesIncrease(sorted, page.cursor, limits[1..]);
        var rest := FollowSorted(sorted, page.cursor, limits[1..]).rows;
        assert page.rows == [page.rows[0]] && page.cursor.value == page.rows[0].id;
        if cursor.Some? {
          forall i | 0 <= i < |rest| ensures Less(cursor.value, rest[i].id) {
            LessIsTransitive(cursor.value, page.cursor.value, rest[i].id);
          }
        }
      }
    }
  }

  lemma IncreasingIsDistinct(rows: seq<Row>)
    requires Increasing(rows, None)
    ensures DistinctIds(rows)
  {
    forall i, j | 0 <= i < j < |rows| ensures rows[i].id != rows[j].id {
      LessIsStrict(rows[i].id, rows[i].id);
    }
  }

  /** Paging is complete for every choice of limits exactly when no two rows share an id. */
  lemma PagingIsCompleteIff(rows: seq<Row>)
    ensures DistinctIds(rows) <==>
      forall limits: seq<Option<nat>> :: |limits| > |rows| ==> Complete(rows, limits)
  {
    if DistinctIds(rows) {
      forall limits: seq<Option<nat>> | |limits| > |rows| ensures Complete(rows, limits) {
        PagingIsComplete(rows, limits);
      }
    } else {
      var limits: seq<Option<nat>> := seq(|rows| + 1, _ => Some(1));
      if Complete(rows, limits) {
        var walked := Follow(rows, None, limits).rows;
        SingleRowPagesIncrease(Sort(rows), None, limits);
        IncreasingIsDistinct(walked);
        var i, j :| 0 <= i < j < |rows| && rows[i].id == rows[j].id;
        DistinctHasNoTwins(walked, rows, i, j);
      }
    }
  }

  // ----- The order is that of the text -----

  /** Ids are ordered by the first place they differ, and a prefix comes first. */
  lemma {:induction false} LessIsLexicographic(front: string, a: string, b: string)
    requires a != b && (a != [] && b != [] ==> a[0] != b[0])
    ensures Less(front + a, front + b) <==> b != [] && (a == [] || a[0] < b[0])
    decreases |front|
  {
    if front == [] {
      assert front + a == a && front + b == b;
    } else {
      assert (front + a)[1..] == front[1..] + a && (front + b)[1..] == front[1..] + b;
      LessIsLexicographic(front[1..], a, b);
    }
  }
}
