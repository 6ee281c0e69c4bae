/** The list logic of the app shell: the stocks shown for a category, a
    horizon and a rank window; the size of the category; and the stock
    selected by a click. */
module StockView {
  import opened Stocks
  import Sorting

  /** The upper end of a rank window: a number, or `Infinity` for "all". */
  datatype End = Finite(n: nat) | Infinity

  /** A rank window `{start, end}` as the range selector supplies it. */
  datatype Range = Range(start: nat, end: End)

  /** The category test: "all" takes every stock, "nifty50" the index
      members, any other filter the stocks of that sector. */
  predicate InCategory(s: Stock, filter: string) {
    if filter == "all" then true
    else if filter == "nifty50" then s.isNifty50
    else s.sector == filter
  }

  /** A stock that is listed: in the category and with a positive price. */
  predicate Listed(s: Stock, filter: string) {
    InCategory(s, filter) && s.ltp > 0.0
  }

  /** The size of the change a stock is ranked by, a missing one counting as 0. */
  function Magnitude(s: Stock, period: Period): (m: real)
    ensures m >= 0.0 && (m == ChangeAt(s, period) || m == -ChangeAt(s, period))
  {
    Abs(ChangeAt(s, period))
  }

  /** The listed stocks in their original order. */
  function Candidates(stocks: seq<Stock>, filter: string): (r: seq<Stock>)
    ensures |r| <= |stocks|
    ensures forall s :: s in r <==> s in stocks && Listed(s, filter)
    ensures forall s :: multiset(r)[s] == if Listed(s, filter) then multiset(stocks)[s] else 0
  {
    var listed := (s: Stock) => Listed(s, filter);
    FilterCount(stocks, listed);
    Filter(stocks, listed)
  }

  /** The listed stocks, largest |change| first (a stable sort). */
  function Ranked(stocks: seq<Stock>, filter: string, period: Period): (r: seq<Stock>)
    ensures multiset(r) == multiset(Candidates(stocks, filter))
    ensures |r| == |Candidates(stocks, filter)|
    ensures Sorting.SortedDesc(r, (s: Stock) => Magnitude(s, period))
  {
    Sorting.SortDesc(Candidates(stocks, filter), (s: Stock) => Magnitude(s, period))
  }

  /** The bounds `Array.prototype.slice(start, end)` takes from a list of
      length n: both clamped to n, and an end before the start gives nothing. */
  function SliceBounds(n: nat, range: Range): (b: (nat, nat))
    ensures b.0 <= b.1 <= n
    ensures b.0 == if range.start < n then range.start else n
    ensures range.end.Finite? && range.end.n <= n && range.start <= range.end.n ==> b == (range.start, range.end.n)
    ensures range.end.Infinity? ==> b.1 == n
    ensures b.1 - b.0 <= if range.end.Finite? && range.end.n < n then
                           (if range.end.n < range.start then 0 else range.end.n - range.start)
                         else (if n < range.start then 0 else n - range.start)
  {
    var lo := if range.start < n then range.start else n;
    var e := match range.end
      case Infinity => n
      case Finite(k) => if k < n then k else n;
    (lo, if e < lo then lo else e)
  }

  /** `filteredStocks`: the window [start, end) of the ranked listed stocks. */
  function FilteredStocks(stocks: seq<Stock>, filter: string, period: Period, range: Range): (r: seq<Stock>)
    ensures |stocks| == 0 ==> r == []
    ensures forall s :: s in r ==> InCategory(s, filter) && s.ltp > 0.0
    ensures Sorting.SortedDesc(r, (s: Stock) => Magnitude(s, period))
    ensures var ranked := Ranked(stocks, filter, period);
      var b := SliceBounds(|ranked|, range);
      r == ranked[b.0..b.1]
  {
    var ranked := Ranked(stocks, filter, period);
    var b := SliceBounds(|ranked|, range);
    RankedAreListed(stocks, filter, period);
    SliceSorted(ranked, b.0, b.1, (s: Stock) => Magnitude(s, period));
    assert forall s :: s in ranked[b.0..b.1] ==> s in ranked;
    ranked[b.0..b.1]
  }

  lemma RankedAreListed(stocks: seq<Stock>, filter: string, period: Period)
    ensures forall s :: s in Ranked(stocks, filter, period) ==> Listed(s, filter)
  {
    var ranked := Ranked(stocks, filter, period);
    forall s | s in ranked ensures Listed(s, filter) {
      assert s in multiset(Candidates(stocks, filter));
    }
  }

  lemma SliceSorted<T>(s: seq<T>, lo: nat, hi: nat, key: T -> real)
    requires lo <= hi <= |s| && Sorting.SortedDesc(s, key)
    ensures Sorting.SortedDesc(s[lo..hi], key)
  {
    assert forall i :: 0 <= i < hi - lo ==> s[lo..hi][i] == s[lo + i];
  }

  /** `totalInCategory`: the number of listed stocks. */
  function TotalInCategory(stocks: seq<Stock>, filter: string): (n: nat)
    ensures n <= |stocks|
    ensures n == |Candidates(stocks, filter)|
  {
    |Candidates(stocks, filter)|
  }

  /** The count shown next to the window is never below the window's size,
      and the window is at most `end - start` long. */
  lemma WindowWithinCategory(stocks: seq<Stock>, filter: string, period: Period, range: Range)
    ensures |FilteredStocks(stocks, filter, period, range)| <= TotalInCategory(stocks, filter)
    ensures range.end.Finite? ==>
      |FilteredStocks(stocks, filter, period, range)| <= (if range.end.n < range.start then 0 else range.end.n - range.start)
  {
  }

  /** The "All Stocks" window (0 to Infinity) shows every listed stock, each
      as often as it is listed. */
  lemma FullWindowIsPermutation(stocks: seq<Stock>, filter: string, period: Period)
    ensures multiset(FilteredStocks(stocks, filter, period, Range(0, Infinity))) ==
      multiset(Candidates(stocks, filter))
  {
    var ranked := Ranked(stocks, filter, period);
    assert ranked[0..|ranked|] == ranked;
  }

  /** Every listed stock is in the full window, in any category and horizon. */
  lemma ListedStockShown(stocks: seq<Stock>, filter: string, period: Period, s: Stock)
    requires s in stocks && Listed(s, filter)
    ensures s in FilteredStocks(stocks, filter, period, Range(0, Infinity))
  {
    FullWindowIsPermutation(stocks, filter, period);
    assert s in multiset(Candidates(stocks, filter));
  }

  /** `handleStockClick`: a click on nothing clears the selection; a click on
      a bubble selects the current record with that symbol, or the clicked
      record itself when the list no longer has it. */
  function HandleStockClick(stocks: seq<Stock>, clicked: Option<Stock>): (selected: Option<Stock>)
    ensures clicked == None ==> selected == None
    ensures clicked.Some? ==> selected.Some? && selected.value.symbol == clicked.value.symbol
    ensures clicked.Some? && Find(stocks, clicked.value.symbol).Some? ==> selected.value in stocks
    ensures clicked.Some? && Find(stocks, clicked.value.symbol) == None ==> selected == clicked
  {
    match clicked
    case None => None
    case Some(c) =>
      match Find(stocks, c.symbol)
      case Some(latest) => Some(latest)
      case None => Some(c)
  }
}
