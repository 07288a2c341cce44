/** Listing a plugin store through the cluster's key-value interface: pages re-cut to the caller's limit. */
module StoreListing {
  import opened Common

  /** One page of the plugin store, which picks its own page size. */
  datatype StorePage<T> = StorePage(items: seq<T>, nextCursor: Option<string>)

  datatype StoreError = StoreError(reason: string)

  /** The plugin store's `list` for one role and prefix, by its own cursor. */
  type StoreList<!T> = Option<string> -> Result<StorePage<T>, StoreError>

  /** A place inside a store page: the cursor that lists the page, and the items to skip on it. */
  datatype AdapterCursor = AdapterCursor(store: Option<string>, skip: nat)

  /** How adapter cursors travel as strings. */
  datatype Codec = Codec(encode: AdapterCursor -> string, decode: string -> Option<AdapterCursor>) {
    ghost predicate RoundTrips() {
      forall c: AdapterCursor :: decode(encode(c)) == Some(c)
    }
  }

  datatype KvPage<T> = KvPage(entries: seq<T>, next: Option<string>)

  datatype ListError = NotACursor(cursor: string) | Backend(error: StoreError)

  /** Where a cursor stands; none is the start. */
  function Position(codec: Codec, cursor: Option<string>): Option<AdapterCursor> {
    match cursor
    case None => Some(AdapterCursor(None, 0))
    case Some(c) => codec.decode(c)
  }

  /** `items` past the first `skip`, as an iterator skips: nothing is left of a shorter page. */
  function Skip<T>(items: seq<T>, skip: nat): seq<T> {
    if skip <= |items| then items[skip..] else []
  }

  /** One page of at most max(limit, 1) entries; a longer store page is cut, and the cursor says how far. */
  method ListPage<T>(list: StoreList<T>, codec: Codec, cursor: Option<string>, limit: nat)
    returns (r: Result<KvPage<T>, ListError>)
    ensures r == PageAt(list, codec, cursor, limit)
  {
    var limit := Max(limit, 1);
    var at := AdapterCursor(None, 0);
    if cursor.Some? {
      var decoded := codec.decode(cursor.value);
      if decoded.None? {
        return Err(NotACursor(cursor.value));
      }
      at := decoded.value;
    }
    var listed := list(at.store);
    if listed.Err? {
      return Err(Backend(listed.error));
    }
    var page := listed.value;
    var items := Skip(page.items, at.skip);
    var next := None;
    if |items| > limit {
      items := items[..limit];
      next := Some(AdapterCursor(at.store, at.skip + limit));
    } else if page.nextCursor.Some? {
      next := Some(AdapterCursor(page.nextCursor, 0));
    }
    return Ok(KvPage(items, if next.Some? then Some(codec.encode(next.value)) else None));
  }

  function PageAt<T>(list: StoreList<T>, codec: Codec, cursor: Option<string>, limit: nat): Result<KvPage<T>, ListError> {
    var at := Position(codec, cursor);
    if at.None? then Err(NotACursor(cursor.value))
    else
      match list(at.value.store)
      case Err(e) => Err(Backend(e))
      case Ok(page) =>
        var rest := Skip(page.items, at.value.skip);
        var cut := Max(limit, 1);
        if |rest| > cut then
          Ok(KvPage(rest[..cut], Some(codec.encode(AdapterCursor(at.value.store, at.value.skip + cut)))))
        else
          Ok(KvPage(rest,
            if page.nextCursor.None? then None else Some(codec.encode(AdapterCursor(page.nextCursor, 0)))))
  }

  // ----- The sequence a store lists -----

  /** Page `i` is what the store lists at cursor `i`, and it leads to cursor `i + 1`, or, last, to none. */
  ghost predicate Linked<T>(list: StoreList<T>, cursors: seq<Option<string>>, pages: seq<StorePage<T>>, i: nat)
    requires i < |pages| == |cursors|
  {
    && list(cursors[i]) == Ok(pages[i])
    && (if i == 0 then cursors[i].None? else cursors[i].Some?)
    && pages[i].nextCursor == (if i + 1 < |cursors| then cursors[i + 1] else None)
  }

  /** The store's pages under a prefix, from the first to the last. */
  ghost predicate Chain<T>(list: StoreList<T>, cursors: seq<Option<string>>, pages: seq<StorePage<T>>) {
    0 < |pages| == |cursors| && forall i :: 0 <= i < |pages| ==> Linked(list, cursors, pages, i)
  }

  /** Everything on `pages`, in order. */
  ghost function All<T>(pages: seq<StorePage<T>>): seq<T> {
    if pages == [] then [] else pages[0].items + All(pages[1..])
  }

  /** What a walk still has to return at page `i` with `skip` items of it returned. */
  ghost function Left<T>(pages: seq<StorePage<T>>, i: nat, skip: nat): seq<T>
    requires i < |pages|
  {
    Skip(pages[i].items, skip) + All(pages[i + 1..])
  }

  /** The cursor stands at page `i` of the chain, with `skip` of its items returned. */
  ghost predicate StandsAt<T>(
    codec: Codec, cursors: seq<Option<string>>, pages: seq<StorePage<T>>, cursor: Option<string>, i: nat, skip: nat)
  {
    && i < |pages| == |cursors|
    && Position(codec, cursor) == Some(AdapterCursor(cursors[i], skip))
    && skip <= |pages[i].items|
  }

  // ----- One page takes the next entries, in order -----

  /** Where the page after one at (i, skip) stands: the same store page further on, or the next one. */
  ghost function Onward<T>(pages: seq<StorePage<T>>, i: nat, skip: nat, limit: nat): (nat, nat)
    requires i < |pages|
  {
    if |Skip(pages[i].items, skip)| > Max(limit, 1) then (i, skip + Max(limit, 1)) else (i + 1, 0)
  }

  lemma CutTakesFront<T>(pages: seq<StorePage<T>>, i: nat, skip: nat, cut: nat)
    requires i < |pages| && skip + cut <= |pages[i].items|
    ensures pages[i].items[skip..][..cut] + Left(pages, i, skip + cut) == Left(pages, i, skip)
  {
    assert pages[i].items[skip..] == pages[i].items[skip..][..cut] + pages[i].items[skip + cut..];
  }

  lemma WholePageTakesFront<T>(pages: seq<StorePage<T>>, i: nat, skip: nat)
    requires i < |pages|
    ensures i + 1 < |pages| ==> Skip(pages[i].items, skip) + Left(pages, i + 1, 0) == Left(pages, i, skip)
    ensures i + 1 == |pages| ==> Skip(pages[i].items, skip) == Left(pages, i, skip)
  {
    if i + 1 < |pages| {
      assert pages[i + 1..][1..] == pages[i + 2..];
      assert Skip(pages[i + 1].items, 0) == pages[i + 1].items;
    }
  }

  lemma PageAdvances<T>(
    list: StoreList<T>, codec: Codec, cursors: seq<Option<string>>, pages: seq<StorePage<T>>,
    cursor: Option<string>, limit: nat, i: nat, skip: nat)
    requires codec.RoundTrips() && Chain(list, cursors, pages) && StandsAt(codec, cursors, pages, cursor, i, skip)
    ensures var r := PageAt(list, codec, cursor, limit); var (j, skip') := Onward(pages, i, skip, limit);
      && r.Ok? && |r.value.entries| <= Max(limit, 1)
      && (r.value.next.None? <==> j == |pages|)
      && (j == |pages| ==> r.value.entries == Left(pages, i, skip))
      && (j < |pages| ==>
            && StandsAt(codec, cursors, pages, r.value.next, j, skip')
            && r.value.entries + Left(pages, j, skip') == Left(pages, i, skip))
  {
    assert Linked(list, cursors, pages, i);
    var cut := Max(limit, 1);
    if |Skip(pages[i].items, skip)| > cut {
      CutTakesFront(pages, i, skip, cut);
    } else {
      WholePageTakesFront(pages, i, skip);
      if i + 1 < |pages| {
        assert Linked(list, cursors, pages, i + 1);
      }
    }
  }

  // ----- Following cursors -----

  /** What a caller collects by following cursors, one page per limit, and the cursor it is left with. */
  datatype Walk<T> = Walk(entries: seq<T>, next: Option<string>, done: bool)

  function Follow<T>(list: StoreList<T>, codec: Codec, cursor: Option<string>, limits: seq<nat>): Result<Walk<T>, ListError>
    decreases |limits|
  {
    if limits == [] then Ok(Walk([], cursor, false))
    else
      match PageAt(list, codec, cursor, limits[0])
      case Err(e) => Err(e)
      case Ok(page) =>
        if page.next.None? then Ok(Walk(page.entries, None, true))
        else
          match Follow(list, codec, page.next, limits[1..])
          case Err(e) => Err(e)
          case Ok(walk) => Ok(walk.(entries := page.entries + walk.entries))
  }

  /** Calls needed at worst from (i, skip): the entries one by one, and one more per page. */
  ghost function Effort<T>(pages: seq<StorePage<T>>, i: nat, skip: nat): nat
    requires i < |pages|
  {
    |Left(pages, i, skip)| + |pages| - i
  }

  /** A walk that is not done stands at some cursor of the chain, with exactly the rest still to come. */
  ghost predicate Resumable<T>(
    codec: Codec, cursors: seq<Option<string>>, pages: seq<StorePage<T>>, walk: Walk<T>, left: seq<T>)
  {
    exists j, k :: StandsAt(codec, cursors, pages, walk.next, j, k) && walk.entries + Left(pages, j, k) == left
  }

  lemma ResumableAfter<T>(
    codec: Codec, cursors: seq<Option<string>>, pages: seq<StorePage<T>>, entries: seq<T>, walk: Walk<T>, left: seq<T>)
    requires Resumable(codec, cursors, pages, walk, left)
    ensures Resumable(codec, cursors, pages, walk.(entries := entries + walk.entries), entries + left)
  {
    var j, k :| StandsAt(codec, cursors, pages, walk.next, j, k) && walk.entries + Left(pages, j, k) == left;
    assert entries + walk.entries + Left(pages, j, k) == entries + left;
  }

  /** A walk of `calls` pages from (i, skip) returned what is left there, or stands somewhere further on. */
  ghost predicate Walked<T>(
    codec: Codec, cursors: seq<Option<string>>, pages: seq<StorePage<T>>, walk: Walk<T>, calls: nat, i: nat, skip: nat)
    requires i < |pages|
  {
    var left := Left(pages, i, skip);
    && (if walk.done then walk.entries == left else Resumable(codec, cursors, pages, walk, left))
    && (calls >= Effort(pages, i, skip) ==> walk.done)
  }

  lemma WalkedOn<T>(
    codec: Codec, cursors: seq<Option<string>>, pages: seq<StorePage<T>>, entries: seq<T>, rest: Walk<T>, calls: nat,
    i: nat, skip: nat, j: nat, skip': nat)
    requires i < |pages| && j < |pages|
    requires entries + Left(pages, j, skip') == Left(pages, i, skip)
    requires Effort(pages, j, skip') < Effort(pages, i, skip)
    requires Walked(codec, cursors, pages, rest, calls, j, skip')
    ensures Walked(codec, cursors, pages, rest.(entries := entries + rest.entries), calls + 1, i, skip)
  {
    if !rest.done {
      ResumableAfter(codec, cursors, pages, entries, rest, Left(pages, j, skip'));
    }
  }

  lemma OnwardIsLess<T>(pages: seq<StorePage<T>>, i: nat, skip: nat, limit: nat)
    requires i < |pages| && skip <= |pages[i].items|
    ensures var (j, skip') := Onward(pages, i, skip, limit);
      j < |pages| ==> Effort(pages, j, skip') < Effort(pages, i, skip)
  {
    if |Skip(pages[i].items, skip)| > Max(limit, 1) {
      CutTakesFront(pages, i, skip, Max(limit, 1));
    } else {
      WholePageTakesFront(pages, i, skip);
    }
  }

  lemma {:induction false} FollowFrom<T>(
    list: StoreList<T>, codec: Codec, cursors: seq<Option<string>>, pages: seq<StorePage<T>>,
    cursor: Option<string>, limits: seq<nat>, i: nat, skip: nat)
    requires codec.RoundTrips() && Chain(list, cursors, pages) && StandsAt(codec, cursors, pages, cursor, i, skip)
    ensures var r := Follow(list, codec, cursor, limits);
      r.Ok? && Walked(codec, cursors, pages, r.value, |limits|, i, skip)
    decreases |limits|
  {
    var left := Left(pages, i, skip);
    if limits == [] {
      assert Walk([], cursor, false).entries + left == left;
    } else {
      PageAdvances(list, codec, cursors, pages, cursor, limits[0], i, skip);
      var page := PageAt(list, codec, cursor, limits[0]).value;
      if page.next.Some? {
        var (j, skip') := Onward(pages, i, skip, limits[0]);
        FollowFrom(list, codec, cursors, pages, page.next, limits[1..], j, skip');
        OnwardIsLess(pages, i, skip, limits[0]);
        var rest := Follow(list, codec, page.next, limits[1..]).value;
        WalkedOn(codec, cursors, pages, page.entries, rest, |limits| - 1, i, skip, j, skip');
      }
    }
  }

  /**
   * Following cursors from the start, with any limit at each call, never fails, returns the store's items in order and
   * none twice, and ends with all of them once enough pages were asked for.
   */
  lemma RecutIsLossless<T>(
    list: StoreList<T>, codec: Codec, cursors: seq<Option<string>>, pages: seq<StorePage<T>>, limits: seq<nat>)
    requires codec.RoundTrips() && Chain(list, cursors, pages)
    ensures var r := Follow(list, codec, None, limits);
      && r.Ok?
      && r.value.entries <= All(pages)
      && (r.value.done ==> r.value.entries == All(pages))
      && (|limits| >= |All(pages)| + |pages| ==> r.value.done)
  {
    assert Linked(list, cursors, pages, 0);
    FollowFrom(list, codec, cursors, pages, None, limits, 0, 0);
    assert Left(pages, 0, 0) == All(pages);
  }

  // ----- Failures -----

  /** A cursor that is none of this store's, or a store that fails, fails the page. */
  lemma PageFails<T>(list: StoreList<T>, codec: Codec, cursor: Option<string>, limit: nat)
    ensures cursor.Some? && codec.decode(cursor.value).None? ==>
      PageAt(list, codec, cursor, limit) == Err(NotACursor(cursor.value))
    ensures cursor.None? && list(None).Err? ==> PageAt(list, codec, cursor, limit) == Err(Backend(list(None).error))
    ensures cursor.Some? && codec.decode(cursor.value).Some? && list(codec.decode(cursor.value).value.store).Err? ==>
      PageAt(list, codec, cursor, limit) == Err(Backend(list(codec.decode(cursor.value).value.store).error))
  {
  }

  /** Following cursors makes call `k` with cursor `c`. */
  predicate Calls<T>(
    list: StoreList<T>, codec: Codec, cursor: Option<string>, limits: seq<nat>, k: nat, c: Option<string>)
    requires k < |limits|
    decreases k
  {
    if k == 0 then c == cursor
    else
      var page := PageAt(list, codec, cursor, limits[0]);
      page.Ok? && page.value.next.Some? && Calls(list, codec, page.value.next, limits[1..], k - 1, c)
  }

  /** A page that fails fails the walk; it is never taken for the end of the list. */
  lemma {:induction false} FailureFailsWalk<T>(
    list: StoreList<T>, codec: Codec, cursor: Option<string>, limits: seq<nat>, k: nat, c: Option<string>)
    requires k < |limits| && Calls(list, codec, cursor, limits, k, c) && PageAt(list, codec, c, limits[k]).Err?
    ensures Follow(list, codec, cursor, limits) == Err(PageAt(list, codec, c, limits[k]).error)
    decreases k
  {
    if k > 0 {
      FailureFailsWalk(list, codec, PageAt(list, codec, cursor, limits[0]).value.next, limits[1..], k - 1, c);
    }
  }

  // ----- The simple walk -----

  /** Adds the items of one page to `out` until it holds `limit` of them. */
  method TakePage<T>(before: seq<T>, items: seq<T>, limit: nat) returns (out: seq<T>, full: bool)
    requires |before| < Max(limit, 1)
    ensures full <==> |before + items| >= Max(limit, 1)
    ensures out == if full then (before + items)[..Max(limit, 1)] else before + items
  {
    out, full := before, false;
    for k := 0 to |items|
      invariant out == before + items[..k]
      invariant |out| < Max(limit, 1)
    {
      out := out + [items[k]];
      assert out == before + items[..k + 1];
      if |out| >= limit {
        full := true;
        return;
      }
    }
  }

  /** The store lists `pages` from `cursor` on, and then has no more, or fails with `failure`. */
  ghost predicate Lists<T>(
    list: StoreList<T>, cursor: Option<string>, pages: seq<StorePage<T>>, failure: Option<StoreError>)
    decreases |pages|
  {
    if pages == [] then failure.Some? && list(cursor) == Err(failure.value)
    else
      && list(cursor) == Ok(pages[0])
      && (if pages[0].nextCursor.None? then |pages| == 1 && failure.None?
          else Lists(list, pages[0].nextCursor, pages[1..], failure))
  }

  /** What a walk over `pages` that may end in a failure lists, asked for `limit`: at least one entry. */
  ghost function Listed<T>(pages: seq<StorePage<T>>, failure: Option<StoreError>, limit: nat): Result<seq<T>, ListError> {
    var all := All(pages);
    if |all| >= Max(limit, 1) then Ok(all[..Max(limit, 1)])
    else if failure.None? then Ok(all)
    else Err(Backend(failure.value))
  }

  /**
   * The first entries under a prefix, page after page: as many as asked for, and at least one, or all there are; a
   * store that fails before that many fails the walk.
   */
  method ListPrefix<T>(list: StoreList<T>, limit: nat, ghost pages: seq<StorePage<T>>, ghost failure: Option<StoreError>)
    returns (r: Result<seq<T>, ListError>)
    requires Lists(list, None, pages, failure)
    ensures r == Listed(pages, failure, limit)
  {
    var out: seq<T> := [];
    var cursor := None;
    ghost var rest := pages;
    while true
      invariant Lists(list, cursor, rest, failure)
      invariant out + All(rest) == All(pages)
      invariant |out| < Max(limit, 1)
      decreases |rest|
    {
      var listed := list(cursor);
      if listed.Err? {
        return Err(Backend(listed.error));
      }
      var page := listed.value;
      ghost var before := out;
      var full;
      out, full := TakePage(out, page.items, limit);
      assert before + page.items + All(rest[1..]) == All(pages);
      if full {
        assert (before + page.items)[..Max(limit, 1)] == (before + page.items + All(rest[1..]))[..Max(limit, 1)];
        return Ok(out);
      }
      if page.nextCursor.None? {
        assert All(rest[1..]) == [];
        assert out == All(pages);
        return Ok(out);
      }
      cursor := page.nextCursor;
      rest := rest[1..];
    }
  }

  // ----- The two walks agree -----

  lemma {:induction false} ChainLists<T>(
    list: StoreList<T>, cursors: seq<Option<string>>, pages: seq<StorePage<T>>, i: nat)
    requires Chain(list, cursors, pages) && i < |pages|
    ensures Lists(list, cursors[i], pages[i..], None)
    decreases |pages| - i
  {
    assert Linked(list, cursors, pages, i);
    if i + 1 < |pages| {
      assert Linked(list, cursors, pages, i + 1);
      ChainLists(list, cursors, pages, i + 1);
      assert pages[i..][1..] == pages[i + 1..];
    }
  }

  /**
   * What following cursors with any limits collects is what the simple walk returns when asked for as many entries;
   * once the last page was reached, it is what the walk returns however many more it is asked for.
   */
  lemma RecutAgreesWithPrefix<T>(
    list: StoreList<T>, codec: Codec, cursors: seq<Option<string>>, pages: seq<StorePage<T>>, limits: seq<nat>, limit: nat)
    requires codec.RoundTrips() && Chain(list, cursors, pages)
    ensures Lists(list, None, pages, None)
    ensures var r := Follow(list, codec, None, limits);
      && r.Ok?
      && (r.value.entries != [] ==> Listed(pages, None, |r.value.entries|) == Ok(r.value.entries))
      && (r.value.done && limit >= |r.value.entries| ==> Listed(pages, None, limit) == Ok(r.value.entries))
  {
    assert Linked(list, cursors, pages, 0);
    ChainLists(list, cursors, pages, 0);
    assert pages[0..] == pages;
    RecutIsLossless(list, codec, cursors, pages, limits);
    var entries := Follow(list, codec, None, limits).value.entries;
    assert All(pages)[..|entries|] == entries;
    assert entries[..|entries|] == entries;
  }
}
