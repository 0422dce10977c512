/** The page arithmetic of ListUsers (api/grpc/user.go) and the walk it allows. */
module Paging {
  /** A size between 1 and 100 is honoured; any other gets the default. */
  function PageSize(requested: int): (size: nat)
    ensures 1 <= size <= 100
    ensures size == requested <==> 1 <= requested <= 100
    ensures size != requested ==> size == 50
  {
    if requested <= 0 || requested > 100 then 50 else requested
  }

  /** LIMIT page_size OFFSET page_offset */
  function Page<T>(all: seq<T>, offset: nat, size: nat): seq<T> {
    if offset >= |all| then [] else if offset + size <= |all| then all[offset..offset + size] else all[offset..]
  }

  lemma PageContinues<T>(all: seq<T>, offset: nat, size: nat)
    requires offset <= |all|
    ensures var page := Page(all, offset, size);
      && all[..offset] + page == (if offset + size < |all| then all[..offset + size] else all)
      && |page| <= size && (offset + size < |all| ==> |page| == size)
  {
  }

  /** One call: the page, and the offset in next_page_token if there is one. */
  method ListUsers<T>(all: seq<T>, requested: int, offset: nat) returns (page: seq<T>, next: nat, more: bool)
    ensures page == Page(all, offset, PageSize(requested))
    ensures more <==> offset + PageSize(requested) < |all|
    ensures next == if more then offset + PageSize(requested) else 0
  {
    var pageSize := requested;
    if pageSize <= 0 || pageSize > 100 {
      pageSize := 50;
    }
    page := Page(all, offset, pageSize);
    next, more := 0, false;
    var nextPageOffset := offset + pageSize;
    if nextPageOffset < |all| {
      next, more := nextPageOffset, true;
    }
  }

  /** No page is larger than asked for, and the first `full` are exactly as large. */
  ghost predicate Sized<T>(pages: seq<seq<T>>, requested: nat -> int, full: int) {
    forall k :: 0 <= k < |pages| ==>
      |pages[k]| <= PageSize(requested(k)) && (k < full ==> |pages[k]| == PageSize(requested(k)))
  }

  lemma SizedAppend<T>(pages: seq<seq<T>>, requested: nat -> int, page: seq<T>)
    requires Sized(pages, requested, |pages|) && |page| <= PageSize(requested(|pages|))
    ensures Sized(pages + [page], requested, |pages|)
    ensures |page| == PageSize(requested(|pages|)) ==> Sized(pages + [page], requested, |pages| + 1)
  {
  }

  /** A client that follows the tokens, asking for `requested(k)` on its k-th call. */
  method Walk<T>(all: seq<T>, requested: nat -> int) returns (pages: seq<seq<T>>)
    ensures Concat(pages) == all
    ensures |pages| >= 1 && (|all| == 0 || |pages| <= |all|)
    ensures Sized(pages, requested, |pages| - 1)
  {
    pages := [];
    var offset, more := 0, true;
    while more
      invariant more ==> offset == |Concat(pages)| && |pages| <= offset
      invariant more ==> offset < |all| || (offset == 0 && pages == [])
      invariant Concat(pages) == if more then all[..offset] else all
      invariant offset <= |all|
      invariant !more ==> |pages| >= 1 && (|all| == 0 || |pages| <= |all|)
      invariant Sized(pages, requested, if more then |pages| else |pages| - 1)
      decreases if more then |all| - offset + 1 else 0
    {
      var page, next, again := ListUsers(all, requested(|pages|), offset);
      ConcatAppend(pages, page);
      PageContinues(all, offset, PageSize(requested(|pages|)));
      SizedAppend(pages, requested, page);
      pages := pages + [page];
      more := again;
      if more { offset := next; }
    }
  }

  function Concat<T>(pages: seq<seq<T>>): seq<T> {
    if pages == [] then [] else pages[0] + Concat(pages[1..])
  }

  lemma {:induction false} ConcatAppend<T>(pages: seq<seq<T>>, page: seq<T>)
    ensures Concat(pages + [page]) == Concat(pages) + page
    decreases |pages|
  {
    if pages != [] {
      ConcatAppend(pages[1..], page);
      assert (pages + [page])[1..] == pages[1..] + [page];
    }
  }
}
