/** Listing a user's GIFs page by page, over a result whose rows and order stay as they are. */
module Pages {
  import opened Prelude

  const DEFAULT_LIMIT := 20

  function ClampedPage(page: int): nat {
    Max(page, 1)
  }

  function ClampedLimit(limit: int): (l: nat)
    ensures l >= 1
  {
    if limit < 1 then DEFAULT_LIMIT else limit
  }

  /** `LIMIT limit OFFSET offset`. */
  function Window<T>(rows: seq<T>, limit: nat, offset: nat): seq<T> {
    var lo := Min(offset, |rows|);
    rows[lo..Min(lo + limit, |rows|)]
  }

  /** The rows a request for this page and limit gets. */
  function PageOf<T>(rows: seq<T>, page: int, limit: int): seq<T> {
    Window(rows, ClampedLimit(limit), (ClampedPage(page) - 1) * ClampedLimit(limit))
  }

  datatype GifResult<T> = GifResult(data: seq<T>, total: nat, page: nat, limit: nat)

  /** `total` counts the rows of the page, not of the result. */
  method GetGifs<T>(rows: seq<T>, page: int, limit: int) returns (r: GifResult<T>)
    ensures r.data == PageOf(rows, page, limit) && r.total == |r.data| <= r.limit
    ensures var offset := (r.page - 1) * r.limit;
      && 0 <= offset
      && r.data == if offset >= |rows| then [] else rows[offset..Min(offset + r.limit, |rows|)]
    ensures r.page == (if page < 1 then 1 else page) && r.limit == (if limit < 1 then 20 else limit)
  {
    var page', limit' := page, limit;
    if page' < 1 {
      page' := 1;
    }
    if limit' < 1 {
      limit' := 20;
    }
    MulKeepsOrder(0, page' - 1, limit');
    var offset := (page' - 1) * limit';
    var gifs := Window(rows, limit', offset);
    r := GifResult(gifs, |gifs|, page', limit');
  }

  /** The first `n` pages, one after the other. */
  function FirstPages<T>(rows: seq<T>, n: nat, limit: int): seq<T> {
    if n == 0 then [] else FirstPages(rows, n - 1, limit) + PageOf(rows, n, limit)
  }

  lemma WindowExtends<T>(rows: seq<T>, limit: nat, offset: nat)
    ensures rows[..Min(offset, |rows|)] + Window(rows, limit, offset) == rows[..Min(offset + limit, |rows|)]
  {
  }

  lemma {:induction false} FirstPagesArePrefix<T>(rows: seq<T>, n: nat, limit: int)
    ensures FirstPages(rows, n, limit) == rows[..Min(n * ClampedLimit(limit), |rows|)]
  {
    var l := ClampedLimit(limit);
    if n > 0 {
      FirstPagesArePrefix(rows, n - 1, limit);
      MulKeepsOrder(0, n - 1, l);
      assert n * l == (n - 1) * l + l;
      WindowExtends(rows, l, (n - 1) * l);
    }
  }

  /** For any limit the pages up to the last one are the whole list, and every page after it is empty. */
  lemma {:induction false} PagesTileTheList<T>(rows: seq<T>, limit: int, beyond: int)
    ensures var last := CeilDiv(|rows|, ClampedLimit(limit));
      FirstPages(rows, last, limit) == rows && (beyond > Max(last, 1) ==> PageOf(rows, beyond, limit) == [])
  {
    var l := ClampedLimit(limit);
    var last := CeilDiv(|rows|, l);
    CeilDivIsLeastCover(|rows|, l, last);
    FirstPagesArePrefix(rows, last, limit);
    if beyond > Max(last, 1) {
      MulKeepsOrder(last, beyond - 1, l);
    }
  }

  /** Row `i` is on page `i / limit + 1`, at place `i % limit`, and on no other page. */
  lemma {:induction false} RowIsOnItsPageOnly<T>(rows: seq<T>, i: nat, page: int, limit: int)
    requires i < |rows| && page >= 1
    requires forall j, k :: 0 <= j < k < |rows| ==> rows[j] != rows[k]
    ensures var l := ClampedLimit(limit); rows[i] in PageOf(rows, page, limit) <==> page == i / l + 1
    ensures var l := ClampedLimit(limit);
      page == i / l + 1 ==> i % l < |PageOf(rows, page, limit)| && PageOf(rows, page, limit)[i % l] == rows[i]
  {
    var l := ClampedLimit(limit);
    PageOfIndex(i, l, page);
    WindowHolds(rows, i, l, (page - 1) * l);
    hide Window;
  }

  lemma PageOfIndex(i: nat, l: nat, page: nat)
    requires l > 0 && page > 0
    ensures 0 <= (page - 1) * l
    ensures page == i / l + 1 <==> (page - 1) * l <= i < (page - 1) * l + l
    ensures page == i / l + 1 ==> i - (page - 1) * l == i % l
  {
    var q := i / l;
    assert i == q * l + i % l;
    MulKeepsOrder(0, page - 1, l);
    if page < q + 1 {
      MulKeepsOrder(page, q, l);
      assert (page - 1) * l + l == page * l;
    } else if page > q + 1 {
      MulKeepsOrder(q + 1, page - 1, l);
      assert (q + 1) * l == q * l + l;
    }
  }

  lemma WindowHolds<T>(rows: seq<T>, i: nat, limit: nat, offset: nat)
    requires i < |rows|
    requires forall j, k :: 0 <= j < k < |rows| ==> rows[j] != rows[k]
    ensures rows[i] in Window(rows, limit, offset) <==> offset <= i < offset + limit
    ensures var data := Window(rows, limit, offset);
      offset <= i < offset + limit ==> i - offset < |data| && data[i - offset] == rows[i]
  {
    var data := Window(rows, limit, offset);
    assert forall k :: 0 <= k < |data| ==> data[k] == rows[offset + k];
  }
}
