/** The page navigator under a list: a sliding window of at most five page numbers
    around the current page, first/last shortcuts with ellipses, and Previous/Next. */
module Pagination {
  import opened Wrappers
  import Decimal

  const MaxVisible := 5

  function Max(a: int, b: int): int { if a >= b then a else b }
  function Min(a: int, b: int): int { if a <= b then a else b }

  /** The ascending run `lo, lo + 1, ..., hi`; empty when `hi < lo`. */
  function Range(lo: int, hi: int): (r: seq<int>)
    ensures |r| == if hi < lo then 0 else hi - lo + 1
    ensures forall k :: 0 <= k < |r| ==> r[k] == lo + k
    decreases hi - lo
  {
    if hi < lo then [] else Range(lo, hi - 1) + [hi]
  }

  lemma InRange(lo: int, hi: int, x: int)
    ensures x in Range(lo, hi) <==> lo <= x <= hi
  {
    if lo <= x <= hi {
      assert Range(lo, hi)[x - lo] == x;
    }
  }

  /** The window's first and last page as the component computes them: start two
      pages before the current one (never below 1), end four pages later (never past
      the last page), and if that leaves fewer than five pages, move the start back. */
  function Window(currentPage: int, totalPages: int): (w: (int, int))
    ensures 1 <= w.0
    ensures w.1 <= totalPages
    ensures w.1 - w.0 + 1 <= MaxVisible
  {
    var start := Max(1, currentPage - MaxVisible / 2);
    var end := Min(totalPages, start + MaxVisible - 1);
    if end - start + 1 < MaxVisible then (Max(1, end - MaxVisible + 1), end) else (start, end)
  }

  /** The window computation with its reassigned bounds and the loop that collects
      the page numbers. */
  method ComputeWindow(currentPage: int, totalPages: int) returns (startPage: int, endPage: int, pages: seq<int>)
    ensures (startPage, endPage) == Window(currentPage, totalPages)
    ensures endPage == Min(totalPages, Max(1, currentPage - 2) + 4)
    ensures pages == Range(startPage, endPage)
  {
    pages := [];
    startPage := Max(1, currentPage - MaxVisible / 2);
    endPage := Min(totalPages, startPage + MaxVisible - 1);
    if endPage - startPage + 1 < MaxVisible {
      startPage := Max(1, endPage - MaxVisible + 1);
    }
    var i := startPage;
    while i <= endPage
      invariant startPage <= i <= Max(startPage, endPage + 1)
      invariant pages == Range(startPage, i - 1)
      decreases endPage - i
    {
      pages := pages + [i];
      i := i + 1;
    }
  }

  /** The visible pages of the window. */
  function WindowPages(currentPage: int, totalPages: int): seq<int> {
    var w := Window(currentPage, totalPages);
    Range(w.0, w.1)
  }

  /** Every page shown is a real page, and at most five are shown, whatever the current page. */
  lemma WindowWithinPages(currentPage: int, totalPages: int)
    ensures |WindowPages(currentPage, totalPages)| <= MaxVisible
    ensures forall p :: p in WindowPages(currentPage, totalPages) ==> 1 <= p <= totalPages
  {
    var w := Window(currentPage, totalPages);
    forall p | p in WindowPages(currentPage, totalPages)
      ensures 1 <= p <= totalPages
    {
      InRange(w.0, w.1, p);
    }
  }

  /** With at least one page the window holds `min(5, totalPages)` pages, even when the
      current page lies outside `[1, totalPages]`; with none it is empty. */
  lemma {:induction false} WindowLength(currentPage: int, totalPages: int)
    ensures totalPages >= 1 ==> |WindowPages(currentPage, totalPages)| == Min(MaxVisible, totalPages)
    ensures totalPages <= 0 ==> WindowPages(currentPage, totalPages) == []
  {
    var w := Window(currentPage, totalPages);
    assert |Range(w.0, w.1)| == if w.1 < w.0 then 0 else w.1 - w.0 + 1;
  }

  /** A valid current page is inside the window it centres. */
  lemma WindowShowsCurrent(currentPage: int, totalPages: int)
    requires 1 <= currentPage <= totalPages
    ensures var w := Window(currentPage, totalPages); w.0 <= currentPage <= w.1
    ensures currentPage in WindowPages(currentPage, totalPages)
  {
    var w := Window(currentPage, totalPages);
    InRange(w.0, w.1, currentPage);
  }

  /** Away from both ends the window is the current page with two neighbours on each side. */
  lemma WindowCentred(currentPage: int, totalPages: int)
    requires 3 <= currentPage <= totalPages - 2
    ensures WindowPages(currentPage, totalPages) ==
      [currentPage - 2, currentPage - 1, currentPage, currentPage + 1, currentPage + 2]
  {
    var r := WindowPages(currentPage, totalPages);
    assert Window(currentPage, totalPages) == (currentPage - 2, currentPage + 2);
    assert |r| == 5;
  }

  /** Near the end, or past it, the window is the last `min(5, totalPages)` pages. */
  lemma WindowAtEnd(currentPage: int, totalPages: int)
    requires totalPages >= 1 && currentPage >= totalPages - 2
    ensures WindowPages(currentPage, totalPages) == Range(Max(1, totalPages - MaxVisible + 1), totalPages)
  {
  }

  /** Near the start, or before it, the window is the first `min(5, totalPages)` pages. */
  lemma WindowAtStart(currentPage: int, totalPages: int)
    requires totalPages >= 1 && currentPage <= 3
    ensures WindowPages(currentPage, totalPages) == Range(1, Min(MaxVisible, totalPages))
  {
  }

  /** What the navigator renders: Previous with its disabled state and target page, the
      shortcut to page 1 and its ellipsis, the window, the shortcut to the last page
      with its ellipsis, and Next with its disabled state and target page. The shortcuts
      lead to page 1 and to the last page, and each window button to its own page. */
  datatype Controls = Controls(
    previousDisabled: bool,
    previousTarget: int,
    firstButton: bool,
    leadingEllipsis: bool,
    pages: seq<int>,
    trailingEllipsis: bool,
    lastButton: bool,
    nextDisabled: bool,
    nextTarget: int)

  /** The navigator, or nothing when there is at most one page. */
  function Render(currentPage: int, totalPages: int): (r: Option<Controls>)
    ensures r.None? <==> totalPages <= 1
    ensures r.Some? ==> r.value.pages == WindowPages(currentPage, totalPages)
    ensures r.Some? ==> (r.value.previousDisabled <==> currentPage == 1)
    ensures r.Some? ==> (r.value.nextDisabled <==> currentPage == totalPages)
    ensures r.Some? ==> r.value.previousTarget == currentPage - 1 && r.value.nextTarget == currentPage + 1
  {
    var w := Window(currentPage, totalPages);
    if totalPages <= 1 then None
    else Some(Controls(
      currentPage == 1,
      currentPage - 1,
      w.0 > 1,
      w.0 > 2,
      Range(w.0, w.1),
      w.1 < totalPages - 1,
      w.1 < totalPages,
      currentPage == totalPages,
      currentPage + 1))
  }

  /** The shortcuts appear exactly when their page is not already in the window, and
      each ellipsis exactly when the pages between the shortcut and the window are hidden. */
  lemma {:induction false} ShortcutsComplementWindow(currentPage: int, totalPages: int)
    requires totalPages >= 2
    ensures var c := Render(currentPage, totalPages).value;
      && (c.firstButton <==> 1 !in c.pages)
      && (c.leadingEllipsis <==> c.firstButton && 2 !in c.pages)
      && (c.lastButton <==> totalPages !in c.pages)
      && (c.trailingEllipsis <==> c.lastButton && totalPages - 1 !in c.pages)
  {
    var w := Window(currentPage, totalPages);
    InRange(w.0, w.1, 1);
    InRange(w.0, w.1, 2);
    InRange(w.0, w.1, totalPages);
    InRange(w.0, w.1, totalPages - 1);
  }

  /** No page goes missing from the navigator: each one is in the window, is the
      target of a shortcut, or lies behind an ellipsis. */
  lemma {:induction false} EveryPageAccountedFor(currentPage: int, totalPages: int, p: int)
    requires totalPages >= 2 && 1 <= p <= totalPages
    ensures var c := Render(currentPage, totalPages).value;
      var w := Window(currentPage, totalPages);
      || p in c.pages
      || (p == 1 && c.firstButton)
      || (p == totalPages && c.lastButton)
      || (c.leadingEllipsis && 1 < p < w.0)
      || (c.trailingEllipsis && w.1 < p < totalPages)
  {
    var w := Window(currentPage, totalPages);
    InRange(w.0, w.1, p);
  }

  /** For a valid current page, an enabled Previous or Next leads to a real page, one
      step from the current one. */
  lemma StepsStayInRange(currentPage: int, totalPages: int)
    requires 1 <= currentPage <= totalPages && totalPages >= 2
    ensures var c := Render(currentPage, totalPages).value;
      !c.previousDisabled ==> 1 <= c.previousTarget <= totalPages && c.previousTarget == currentPage - 1
    ensures var c := Render(currentPage, totalPages).value;
      !c.nextDisabled ==> 1 <= c.nextTarget <= totalPages && c.nextTarget == currentPage + 1
  {
  }

  /** `updatePage`: the query with only `page` replaced by the decimal text of the target. */
  function UpdatePage(query: map<string, string>, page: int): (r: map<string, string>)
    ensures r.Keys == query.Keys + {"page"}
    ensures r["page"] == Decimal.IntToString(page)
    ensures forall k :: k in query && k != "page" ==> r[k] == query[k]
  {
    query["page" := Decimal.IntToString(page)]
  }
}
