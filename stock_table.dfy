/**
 * The logic of the stock table widget (src/components/widgets/StockTable.jsx): rows built
 * from a quote and a profile, a case-insensitive search filter, pages of five rows, and
 * the Previous/Next buttons.  The component's state (`stocks`, `searchTerm`,
 * `currentPage`) is a `View` value; each state setter yields the next `View`.
 */
module StockTable {
  import opened Wrappers
  import opened Text
  import opened Sequences
  import opened Finnhub

  const ItemsPerPage := 5

  datatype Row = Row(symbol: string, name: string, price: real, change: real, changePercent: real,
                     high: real, low: real, open: real, previousClose: real)

  /** `x || 0` for a number that may be missing: missing and 0 both give 0. */
  function OrZero(x: Option<real>): (r: real)
    ensures r != 0.0 ==> x == Some(r)
    ensures x.Some? ==> r == x.value
  {
    if x.Some? then x.value else 0.0
  }

  /** `profile.name || symbol`. */
  function NameOr(name: Option<string>, symbol: string): (r: string)
    ensures r != symbol ==> name == Some(r) && r != ""
    ensures name.Some? && name.value != "" ==> r == name.value
  {
    if name.Some? && name.value != "" then name.value else symbol
  }

  /** The row `fetchStockData` builds for `symbol` from its quote and profile. */
  function BuildRow(symbol: string, quote: Quote, profile: Profile): (r: Row)
    ensures r.symbol == symbol
    ensures symbol != "" ==> r.name != ""
  {
    Row(symbol, NameOr(profile.name, symbol), OrZero(quote.c), OrZero(quote.d), OrZero(quote.dp),
        OrZero(quote.h), OrZero(quote.l), OrZero(quote.o), OrZero(quote.pc))
  }

  /** Every numeric field of a row is the quote's value when present, and 0 when it is missing;
      a missing or empty company name falls back to the symbol. */
  lemma RowDefaults(symbol: string, quote: Quote, profile: Profile)
    ensures var r := BuildRow(symbol, quote, profile);
      && (quote.c.None? ==> r.price == 0.0) && (quote.c.Some? ==> r.price == quote.c.value)
      && (quote.d.None? ==> r.change == 0.0) && (quote.d.Some? ==> r.change == quote.d.value)
      && (quote.dp.None? ==> r.changePercent == 0.0) && (quote.dp.Some? ==> r.changePercent == quote.dp.value)
      && (quote.h.None? ==> r.high == 0.0) && (quote.h.Some? ==> r.high == quote.h.value)
      && (quote.l.None? ==> r.low == 0.0) && (quote.l.Some? ==> r.low == quote.l.value)
      && (quote.o.None? ==> r.open == 0.0) && (quote.o.Some? ==> r.open == quote.o.value)
      && (quote.pc.None? ==> r.previousClose == 0.0) && (quote.pc.Some? ==> r.previousClose == quote.pc.value)
      && (profile.name.None? || profile.name == Some("") ==> r.name == symbol)
      && (profile.name.Some? && profile.name.value != "" ==> r.name == profile.name.value)
  {
  }

  // ---------------------------------------------------------------- search

  /** The lower-cased term occurs in the lower-cased symbol or name. */
  predicate Matches(row: Row, term: string)
  {
    Contains(Lower(row.symbol), Lower(term)) || Contains(Lower(row.name), Lower(term))
  }

  /** `stocks.filter(...)` with the search term. */
  function FilterRows(rows: seq<Row>, term: string): (r: seq<Row>)
    ensures |r| <= |rows|
    ensures forall row :: row in r ==> row in rows && Matches(row, term)
  {
    Filter(rows, row => Matches(row, term))
  }

  /** The filter keeps exactly the matching rows, each as often as it occurred, in their original order. */
  lemma FilterRowsSpec(rows: seq<Row>, term: string)
    ensures forall row :: row in FilterRows(rows, term) <==> row in rows && Matches(row, term)
    ensures forall row :: multiset(FilterRows(rows, term))[row] == if Matches(row, term) then multiset(rows)[row] else 0
    ensures Subsequence(FilterRows(rows, term), rows)
  {
    FilterIsSubsequence(rows, row => Matches(row, term));
  }

  /** An empty search term keeps every row. */
  lemma EmptyTermKeepsAll(rows: seq<Row>)
    ensures FilterRows(rows, "") == rows
  {
    forall i | 0 <= i < |rows| ensures Matches(rows[i], "") {
      ContainsEmpty(Lower(rows[i].symbol));
    }
    FilterKeepsAll(rows, row => Matches(row, ""));
  }

  lemma LowerTwice(s: string)
    ensures Lower(Lower(s)) == Lower(s)
  {
  }

  /** Searching for a term or for its lower-case form shows the same rows. */
  lemma SearchIgnoresCase(rows: seq<Row>, term: string)
    ensures FilterRows(rows, term) == FilterRows(rows, Lower(term))
  {
    LowerTwice(term);
    FilterAgrees(rows, row => Matches(row, term), row => Matches(row, Lower(term)));
  }

  // ---------------------------------------------------------------- pages

  /** `Math.ceil(n / 5)`. */
  function TotalPages(n: nat): (t: nat)
    ensures n == 0 <==> t == 0
    ensures n > 0 ==> (t - 1) * ItemsPerPage < n <= t * ItemsPerPage
  {
    (n + ItemsPerPage - 1) / ItemsPerPage
  }

  /** Where `Array.prototype.slice` puts an index: negative counts from the end, then clamp. */
  function SliceIndex(i: int, n: nat): (k: nat)
    ensures k <= n
    ensures 0 <= i <= n ==> k == i
  {
    if i < 0 then (if n + i < 0 then 0 else n + i) else if i > n then n else i
  }

  /** `xs.slice(start, end)`. */
  function Slice<T>(xs: seq<T>, start: int, end: int): (r: seq<T>)
    ensures |r| <= |xs|
    ensures forall y :: y in r ==> y in xs
    ensures 0 <= start <= end ==> r == xs[Min(start, |xs|)..Min(end, |xs|)]
  {
    var s, e := SliceIndex(start, |xs|), SliceIndex(end, |xs|);
    if s < e then xs[s..e] else []
  }

  function Min(a: int, b: int): int
  {
    if a < b then a else b
  }

  /** `(currentPage - 1) * 5`. */
  function StartIndex(page: int): int
  {
    (page - 1) * ItemsPerPage
  }

  /** The rows on page `page`: `filtered.slice(startIndex, startIndex + 5)`. */
  function PageRows(rows: seq<Row>, page: int): (r: seq<Row>)
    ensures |r| <= ItemsPerPage
    ensures forall y :: y in r ==> y in rows
    ensures page >= 1 ==> r == rows[Min(StartIndex(page), |rows|)..Min(StartIndex(page) + ItemsPerPage, |rows|)]
  {
    Slice(rows, StartIndex(page), StartIndex(page) + ItemsPerPage)
  }

  /** Pages 1 to `k`, one after the other. */
  function Pages(rows: seq<Row>, k: nat): seq<Row>
  {
    if k == 0 then [] else Pages(rows, k - 1) + PageRows(rows, k)
  }

  lemma {:induction false} PagesPrefix(rows: seq<Row>, k: nat)
    requires k <= TotalPages(|rows|)
    ensures Pages(rows, k) == rows[..Min(k * ItemsPerPage, |rows|)]
  {
    if k > 0 {
      PagesPrefix(rows, k - 1);
      assert (k - 1) * ItemsPerPage < |rows|;
      assert rows[..(k - 1) * ItemsPerPage] + rows[(k - 1) * ItemsPerPage..Min(k * ItemsPerPage, |rows|)]
          == rows[..Min(k * ItemsPerPage, |rows|)];
    }
  }

  /** Pages 1 to `totalPages` cover the filtered rows exactly once, in order. */
  lemma PagesPartition(rows: seq<Row>)
    ensures Pages(rows, TotalPages(|rows|)) == rows
  {
    PagesPrefix(rows, TotalPages(|rows|));
  }

  // ---------------------------------------------------------------- the component state

  datatype View = View(stocks: seq<Row>, searchTerm: string, currentPage: int)

  /** The component's initial state: no stocks yet, an empty search box, page 1. */
  const Start := View([], "", 1)

  /** The table starts on a page in range, so with `NavigationKeepsRange` every reachable page is. */
  lemma StartsInRange()
    ensures InRange(Start) && Visible(Start) == []
  {
  }

  function Filtered(v: View): seq<Row>
  {
    FilterRows(v.stocks, v.searchTerm)
  }

  function PageCount(v: View): nat
  {
    TotalPages(|Filtered(v)|)
  }

  /** The rows the table shows. */
  function Visible(v: View): (r: seq<Row>)
    ensures |r| <= ItemsPerPage
    ensures forall row :: row in r ==> row in v.stocks && Matches(row, v.searchTerm)
  {
    PageRows(Filtered(v), v.currentPage)
  }

  /** The page is one the buttons can reach: 1, or a page that exists. */
  predicate InRange(v: View)
  {
    1 <= v.currentPage && (v.currentPage == 1 || v.currentPage <= PageCount(v))
  }

  /** Typing in the search box: new term, back to page 1. */
  function Search(v: View, term: string): (r: View)
    ensures r.searchTerm == term && r.currentPage == 1 && r.stocks == v.stocks
  {
    v.(searchTerm := term, currentPage := 1)
  }

  /** `setCurrentPage(p => Math.max(1, p - 1))`. */
  function Previous(v: View): (r: View)
    ensures r.currentPage >= 1
    ensures v.currentPage > 1 ==> r.currentPage == v.currentPage - 1
    ensures v.currentPage <= 1 ==> r.currentPage == 1
    ensures r.stocks == v.stocks && r.searchTerm == v.searchTerm
  {
    v.(currentPage := if v.currentPage - 1 > 1 then v.currentPage - 1 else 1)
  }

  /** `setCurrentPage(p => Math.min(totalPages, p + 1))`. */
  function Next(v: View): (r: View)
    ensures r.currentPage <= PageCount(v)
    ensures v.currentPage < PageCount(v) ==> r.currentPage == v.currentPage + 1
    ensures v.currentPage >= PageCount(v) ==> r.currentPage == PageCount(v)
    ensures r.stocks == v.stocks && r.searchTerm == v.searchTerm
  {
    v.(currentPage := Min(PageCount(v), v.currentPage + 1))
  }

  /** The Previous/Next controls are rendered only when there is more than one page. */
  predicate ShowsPagination(v: View)
  {
    PageCount(v) > 1
  }

  /** Searching and the two buttons (which exist only while pagination shows) keep the page in range. */
  lemma NavigationKeepsRange(v: View, term: string)
    requires InRange(v)
    ensures InRange(Search(v, term))
    ensures InRange(Previous(v))
    ensures ShowsPagination(v) ==> InRange(Next(v))
  {
  }

  /** On a page in range, the table shows at least one row unless nothing matches. */
  lemma VisibleNonEmpty(v: View)
    requires InRange(v)
    ensures Visible(v) == [] <==> Filtered(v) == []
  {
    var n := |Filtered(v)|;
    if n > 0 {
      assert StartIndex(v.currentPage) < n;
    }
  }

  /** "Showing a to b of n": `a = start + 1`, `b = min(start + 5, n)`. */
  function Label(v: View): (r: (int, int, nat))
    ensures r.2 == |Filtered(v)| && r.1 <= r.2
  {
    var start := StartIndex(v.currentPage);
    (start + 1, Min(start + ItemsPerPage, |Filtered(v)|), |Filtered(v)|)
  }

  /** While pagination shows on a page in range, the label counts exactly the rows shown. */
  lemma LabelCountsVisible(v: View)
    requires InRange(v) && ShowsPagination(v)
    ensures var (a, b, n) := Label(v);
      1 <= a <= b <= n && b - a + 1 == |Visible(v)|
  {
    assert StartIndex(v.currentPage) < |Filtered(v)|;
  }
}
