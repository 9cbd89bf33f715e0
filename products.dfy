/** Pagination of the product catalog page: the page count, the window of products
    shown for the current page, and the page counter moved by the Prev, Next and
    numbered page buttons. */
module ProductsPage {

  /** A catalog entry as the page's query returns it. */
  datatype Product = Product(id: string, name: string, imageUrl: string, price: real, slug: string)

  const ItemsPerPage: nat := 12

  function Min(a: int, b: int): int { if a <= b then a else b }
  function Max(a: int, b: int): int { if a >= b then a else b }

  // ---------------------------------------------------------------------------
  // Page count and page window

  /** `Math.ceil(n / itemsPerPage)`: the least number of pages of 12 that hold n items. */
  function TotalPages(n: nat): (pages: nat)
    ensures pages * ItemsPerPage >= n
    ensures pages == 0 || (pages - 1) * ItemsPerPage < n
  {
    (n + ItemsPerPage - 1) / ItemsPerPage
  }

  /** There are no pages exactly when there are no items. */
  lemma NoPagesIffNoItems(n: nat)
    ensures TotalPages(n) == 0 <==> n == 0
    ensures n > 0 ==> TotalPages(n) >= 1
  {
  }

  /** How `Array.prototype.slice` turns one argument into an index: a negative
      argument counts back from the end, and the result is clamped to [0, len]. */
  function SliceIndex(i: int, len: nat): (k: nat)
    ensures k <= len
    ensures 0 <= i ==> k == Min(i, len)
    ensures i < 0 ==> k == Max(len + i, 0)
  {
    if i < 0 then Max(len + i, 0) else Min(i, len)
  }

  /** `s.slice(start, end)`: empty when the clamped end does not pass the clamped start. */
  function JsSlice<T>(s: seq<T>, start: int, end: int): seq<T>
  {
    var from, to := SliceIndex(start, |s|), SliceIndex(end, |s|);
    if from < to then s[from..to] else []
  }

  /** The `currentProducts` memo: `data.slice(page * 12 - 12, page * 12)`. */
  function PageWindow<T>(data: seq<T>, page: int): seq<T>
  {
    JsSlice(data, page * ItemsPerPage - ItemsPerPage, page * ItemsPerPage)
  }

  /** For a page number from 1 up, the window is the clamped range
      [(page-1)*12, page*12) of the data and holds at most 12 items. */
  lemma WindowShape<T>(data: seq<T>, page: int)
    requires page >= 1
    ensures var n := |data|;
            PageWindow(data, page) == data[Min((page - 1) * ItemsPerPage, n)..Min(page * ItemsPerPage, n)]
    ensures |PageWindow(data, page)| <= ItemsPerPage
  {
  }

  /** Position j of page p's window is item (p-1)*12 + j of the data. */
  lemma WindowIndex<T>(data: seq<T>, page: int, j: int)
    requires page >= 1
    requires 0 <= j < |PageWindow(data, page)|
    ensures (page - 1) * ItemsPerPage + j < |data|
    ensures PageWindow(data, page)[j] == data[(page - 1) * ItemsPerPage + j]
  {
    WindowShape(data, page);
  }

  /** Every page from 1 to the page count shows at least one item. */
  lemma WindowNonEmpty<T>(data: seq<T>, page: int)
    requires 1 <= page <= TotalPages(|data|)
    ensures |PageWindow(data, page)| > 0
  {
    WindowShape(data, page);
  }

  /** Pages past the last one, and pages below 1, show nothing. */
  lemma WindowOutsidePagesEmpty<T>(data: seq<T>, page: int)
    requires page > TotalPages(|data|) || page == 0
    ensures PageWindow(data, page) == []
  {
  }

  /** Item i of the data is shown on page i / 12 + 1, at position i % 12. */
  lemma ItemOnItsPage<T>(data: seq<T>, i: int)
    requires 0 <= i < |data|
    ensures var page := i / ItemsPerPage + 1;
            1 <= page <= TotalPages(|data|) &&
            i % ItemsPerPage < |PageWindow(data, page)| &&
            PageWindow(data, page)[i % ItemsPerPage] == data[i]
  {
    var page := i / ItemsPerPage + 1;
    WindowShape(data, page);
  }

  /** The window of a page the counter can hold (1 while there is no data): the clamped
      range of that page, at most 12 items, and empty only when there is no data. */
  lemma CurrentWindow<T>(data: seq<T>, page: int)
    requires 1 <= page <= Max(TotalPages(|data|), 1)
    ensures |PageWindow(data, page)| <= ItemsPerPage
    ensures PageWindow(data, page) == data[Min((page - 1) * ItemsPerPage, |data|)..Min(page * ItemsPerPage, |data|)]
    ensures |PageWindow(data, page)| == 0 <==> |data| == 0
  {
    WindowShape(data, page);
    if |data| > 0 {
      WindowNonEmpty(data, page);
    }
  }

  /** The windows of pages 1..k, one after another. */
  function PagesUpTo<T>(data: seq<T>, k: nat): seq<T>
  {
    if k == 0 then [] else PagesUpTo(data, k - 1) + PageWindow(data, k)
  }

  /** The first k pages together are the first min(12k, n) items. */
  lemma {:induction false} PagesUpToIsPrefix<T>(data: seq<T>, k: nat)
    ensures PagesUpTo(data, k) == data[..Min(k * ItemsPerPage, |data|)]
  {
    if k > 0 {
      PagesUpToIsPrefix(data, k - 1);
      WindowShape(data, k);
      var a, b := Min((k - 1) * ItemsPerPage, |data|), Min(k * ItemsPerPage, |data|);
      assert data[..a] + data[a..b] == data[..b];
    }
  }

  /** The pages tile the data: the windows of pages 1..TotalPages, concatenated,
      are exactly the data, in order. */
  lemma {:induction false} PagesTileData<T>(data: seq<T>)
    ensures PagesUpTo(data, TotalPages(|data|)) == data
  {
    PagesUpToIsPrefix(data, TotalPages(|data|));
  }

  // ---------------------------------------------------------------------------
  // Page navigation

  /** `goToPreviousPage`: `Math.max(prev - 1, 1)`. */
  function PreviousPage(page: int): (p: int)
    ensures p >= 1
    ensures page > 1 ==> p == page - 1
    ensures page <= 1 ==> p == 1
  {
    Max(page - 1, 1)
  }

  /** `goToNextPage`: `Math.min(prev + 1, totalPages)`. */
  function NextPage(page: int, totalPages: nat): (p: int)
    ensures p <= totalPages
    ensures page < totalPages ==> p == page + 1
    ensures page >= totalPages ==> p == totalPages
  {
    Min(page + 1, totalPages)
  }

  /** The Prev button is disabled (`currentPage === 1`) exactly when pressing it
      would leave the page unchanged. */
  lemma PrevDisabledIffNoOp(page: int)
    requires page >= 1
    ensures PreviousPage(page) == page <==> page == 1
  {
  }

  /** The Next button is disabled (`currentPage === totalPages`) exactly when
      pressing it would leave the page unchanged. */
  lemma NextDisabledIffNoOp(page: int, totalPages: nat)
    requires 1 <= page <= totalPages
    ensures NextPage(page, totalPages) == page <==> page == totalPages
  {
  }

  /** The pagination controls are rendered only when there is more than one page. */
  predicate ControlsVisible(n: nat)
  {
    TotalPages(n) > 1
  }

  /** More than one page means more than 12 items. */
  lemma ControlsVisibleIff(n: nat)
    ensures ControlsVisible(n) <==> n > ItemsPerPage
  {
  }

  /** The numbered buttons: button `index` calls `goToPage(index + 1)`. */
  function PageButtons(totalPages: nat): (targets: seq<int>)
    ensures |targets| == totalPages
    ensures forall i :: 0 <= i < totalPages ==> targets[i] == i + 1
    ensures forall i :: 0 <= i < totalPages ==> 1 <= targets[i] <= totalPages
  {
    seq(totalPages, index requires 0 <= index < totalPages => index + 1)
  }

  /** A press on one of the rendered controls. */
  datatype Control = Prev | Next | PageButton(index: int)

  /** A control the page actually renders: a numbered button exists for each index below
      the page count. */
  predicate Rendered(c: Control, totalPages: nat)
  {
    c.PageButton? ==> 0 <= c.index < totalPages
  }

  /** The page after one press. */
  function Press(page: int, totalPages: nat, c: Control): int
    requires Rendered(c, totalPages)
  {
    match c
    case Prev => PreviousPage(page)
    case Next => NextPage(page, totalPages)
    case PageButton(index) => PageButtons(totalPages)[index]
  }

  /** The page after a series of presses, in order. */
  function Run(page: int, totalPages: nat, presses: seq<Control>): int
    requires forall i :: 0 <= i < |presses| ==> Rendered(presses[i], totalPages)
    decreases presses
  {
    if presses == [] then page else Run(Press(page, totalPages, presses[0]), totalPages, presses[1..])
  }

  /** Starting anywhere in [1, totalPages], any series of presses on rendered controls
      keeps the page in [1, totalPages]. */
  lemma {:induction false} RunStaysInRange(page: int, totalPages: nat, presses: seq<Control>)
    requires 1 <= page <= totalPages
    requires forall i :: 0 <= i < |presses| ==> Rendered(presses[i], totalPages)
    ensures 1 <= Run(page, totalPages, presses) <= totalPages
    decreases presses
  {
    if presses != [] {
      RunStaysInRange(Press(page, totalPages, presses[0]), totalPages, presses[1..]);
    }
  }

  /** The page's state: the loaded products and the current page counter. */
  class Catalog {
    var data: seq<Product>
    var currentPage: int

    /** The `totalPages` memo for the current data. */
    function PageCount(): nat
      reads this
    {
      TotalPages(|data|)
    }

    /** The page counter is at least 1 and at most the page count (1 while no data). */
    ghost predicate Valid()
      reads this
    {
      1 <= currentPage <= Max(PageCount(), 1)
    }

    /** `useState([])` and `useState(1)`. */
    constructor ()
      ensures Valid()
      ensures data == [] && currentPage == 1
    {
      data := [];
      currentPage := 1;
    }

    /** `setData`: the fetched products replace the initial empty list. The fetch runs
        once, when the page mounts, so the list is still empty then. */
    method SetData(result: seq<Product>)
      requires Valid() && data == []
      modifies this
      ensures Valid()
      ensures data == result && currentPage == old(currentPage) == 1
    {
      data := result;
    }

    /** The products shown for the current page: at most 12, the current page's
        range of the data, and some whenever there is any data. */
    function CurrentProducts(): (shown: seq<Product>)
      reads this
      requires Valid()
      ensures |shown| <= ItemsPerPage
      ensures shown == data[Min((currentPage - 1) * ItemsPerPage, |data|)..Min(currentPage * ItemsPerPage, |data|)]
      ensures |shown| == 0 <==> |data| == 0
    {
      CurrentWindow(data, currentPage);
      PageWindow(data, currentPage)
    }

    /** The Prev button. */
    method GoToPreviousPage()
      requires Valid()
      modifies this
      ensures Valid()
      ensures data == old(data)
      ensures currentPage == PreviousPage(old(currentPage))
    {
      currentPage := PreviousPage(currentPage);
    }

    /** The Next button, rendered only while the controls are visible. */
    method GoToNextPage()
      requires Valid() && ControlsVisible(|data|)
      modifies this
      ensures Valid()
      ensures data == old(data)
      ensures currentPage == NextPage(old(currentPage), PageCount())
    {
      currentPage := NextPage(currentPage, PageCount());
    }

    /** A numbered button, rendered only while the controls are visible; its target
        lies in [1, totalPages]. */
    method GoToPage(page: int)
      requires Valid() && ControlsVisible(|data|)
      requires 1 <= page <= PageCount()
      modifies this
      ensures Valid()
      ensures data == old(data)
      ensures currentPage == page
    {
      currentPage := page;
    }
  }
}
