/** The market-data hook: the first load, which records every price in the
    tracker, computes the weekly changes and enriches each stock with its
    five horizons, and the poll, which merges a fresh quote list into the
    current one by symbol.

    The fetches are inputs: the stock list the data service returned, the
    answers of the historical endpoint, the market-hours flag and the
    clock. React's state setters become assignments to the fields of one
    object; the poll timer is not modelled. */
module MarketHook {
  import opened Stocks
  import opened ChangeTracker

  const NoDataError: string := "No stock data received. Check your proxy URL."

  /** A changes object from its five entries; an undefined entry is absent. */
  function Assemble(h1: Option<real>, d1: Option<real>, w1: Option<real>, m1: Option<real>, y1: Option<real>): (c: map<Period, real>)
    ensures Get(c, H1) == h1 && Get(c, D1) == d1 && Get(c, W1) == w1
    ensures Get(c, M1) == m1 && Get(c, Y1) == y1
  {
    var c1 := if h1.Some? then map[H1 := h1.value] else map[];
    var c2 := if d1.Some? then c1[D1 := d1.value] else c1;
    var c3 := if w1.Some? then c2[W1 := w1.value] else c2;
    var c4 := if m1.Some? then c3[M1 := m1.value] else c3;
    if y1.Some? then c4[Y1 := y1.value] else c4
  }

  /** One stock of the first load: its own record with all five horizons
      set; 1h is the tracker's change or 0, 1w the weekly change or 0, and
      1d, 1m and 1y its own values or 0. */
  function Enrich(s: Stock, hourly: Option<real>, weekly: map<string, real>): (e: Stock)
    ensures e == s.(changes := e.changes)
    ensures H1 in e.changes && D1 in e.changes && W1 in e.changes && M1 in e.changes && Y1 in e.changes
    ensures ChangeAt(e, H1) == if hourly.Some? then hourly.value else 0.0
    ensures ChangeAt(e, W1) == if s.symbol in weekly then weekly[s.symbol] else 0.0
    ensures ChangeAt(e, D1) == ChangeAt(s, D1)
    ensures ChangeAt(e, M1) == ChangeAt(s, M1)
    ensures ChangeAt(e, Y1) == ChangeAt(s, Y1)
  {
    var h1 := if hourly.Some? then hourly.value else 0.0;
    var w1 := if s.symbol in weekly then weekly[s.symbol] else 0.0;
    var c := Assemble(Some(h1), Some(ChangeAt(s, D1)), Some(w1), Some(ChangeAt(s, M1)), Some(ChangeAt(s, Y1)));
    s.(changes := c)
  }

  /** The enriched list: stock i enriched with the one-hour change the
      tracker's `history` gives for it. */
  function Enriched(stocks: seq<Stock>, history: map<string, seq<Entry>>, weekly: map<string, real>, now: int): (r: seq<Stock>)
    ensures |r| == |stocks| && Symbols(r) == Symbols(stocks)
    ensures forall i :: 0 <= i < |stocks| ==>
      r[i] == Enrich(stocks[i], HourlyChange(Get(history, stocks[i].symbol), stocks[i].ltp, now), weekly)
  {
    var r := seq(|stocks|, i requires 0 <= i < |stocks| =>
      Enrich(stocks[i], HourlyChange(Get(history, stocks[i].symbol), stocks[i].ltp, now), weekly));
    assert forall i :: 0 <= i < |r| ==> Symbols(r)[i] == Symbols(stocks)[i];
    r
  }

  /** One matched stock of the poll: the quote fields (ltp, open, high, low,
      volume) and the horizons come from the fresh record, everything else
      is kept. 1h falls back to the previous value when the tracker has
      none, and 1w is the weekly change when there is one, else the previous
      value. */
  function MergeStock(existing: Stock, latest: Stock, hourly: Option<real>, weekly: map<string, real>): (m: Stock)
    ensures m == existing.(ltp := latest.ltp, open := latest.open, high := latest.high, low := latest.low,
                           volume := latest.volume, changes := m.changes)
    ensures Get(m.changes, H1) == if hourly.Some? then hourly else Get(existing.changes, H1)
    ensures Get(m.changes, W1) ==
      if latest.symbol in weekly then Some(weekly[latest.symbol]) else Get(existing.changes, W1)
    ensures Get(m.changes, D1) == Get(latest.changes, D1)
    ensures Get(m.changes, M1) == Get(latest.changes, M1)
    ensures Get(m.changes, Y1) == Get(latest.changes, Y1)
  {
    var h1 := if hourly.Some? then hourly else Get(existing.changes, H1);
    var w1 := if latest.symbol in weekly then Some(weekly[latest.symbol]) else Get(existing.changes, W1);
    existing.(ltp := latest.ltp, open := latest.open, high := latest.high, low := latest.low, volume := latest.volume,
              changes := Assemble(h1, Get(latest.changes, D1), w1, Get(latest.changes, M1), Get(latest.changes, Y1)))
  }

  /** What the poll makes of the previous stock `p` after seeing the
      quote list `quotes`: merged with the quote of its symbol, if any. */
  function Updated(p: Stock, quotes: seq<Stock>, history: map<string, seq<Entry>>, weekly: map<string, real>, now: int): (u: Stock)
    ensures u.symbol == p.symbol
    ensures Find(quotes, p.symbol) == None ==> u == p
  {
    match Find(quotes, p.symbol)
    case None => p
    case Some(f) => MergeStock(p, f, HourlyChange(Get(history, p.symbol), f.ltp, now), weekly)
  }

  /** The merged list of a poll: the previous stocks, in their order, each
      updated from the quote list. */
  function PollMerged(prev: seq<Stock>, quotes: seq<Stock>, history: map<string, seq<Entry>>,
                      weekly: map<string, real>, now: int): (r: seq<Stock>)
    ensures |r| == |prev| && Symbols(r) == Symbols(prev)
    ensures forall i :: 0 <= i < |prev| ==> r[i] == Updated(prev[i], quotes, history, weekly, now)
    ensures forall i :: 0 <= i < |prev| && Find(quotes, prev[i].symbol) == None ==> r[i] == prev[i]
    ensures forall i :: 0 <= i < |prev| ==>
      && r[i].name == prev[i].name && r[i].sector == prev[i].sector && r[i].industry == prev[i].industry
      && r[i].prevClose == prev[i].prevClose && r[i].yearHigh == prev[i].yearHigh
      && r[i].yearLow == prev[i].yearLow && r[i].isNifty50 == prev[i].isNifty50
  {
    var r := seq(|prev|, i requires 0 <= i < |prev| => Updated(prev[i], quotes, history, weekly, now));
    assert forall i :: 0 <= i < |r| ==> Symbols(r)[i] == Symbols(prev)[i];
    r
  }

  /** A quote whose symbol was not listed before is dropped: no
      symbol appears in the merged list that was not there already. */
  lemma PollDropsNewSymbols(prev: seq<Stock>, quotes: seq<Stock>, history: map<string, seq<Entry>>,
                            weekly: map<string, real>, now: int, s: string)
    requires s !in Symbols(prev)
    ensures s !in Symbols(PollMerged(prev, quotes, history, weekly, now))
  {
  }

  /** The `new Map(prev.map(s => [s.symbol, s]))` loop. */
  method IndexBySymbol(prev: seq<Stock>) returns (table: map<string, Stock>)
    requires Distinct(Symbols(prev))
    ensures forall s :: s in table <==> s in Symbols(prev)
    ensures forall i :: 0 <= i < |prev| ==> table[prev[i].symbol] == prev[i]
  {
    var syms := Symbols(prev);
    table := map[];
    for i := 0 to |prev|
      invariant forall s :: s in table <==> s in syms[..i]
      invariant forall j :: 0 <= j < i ==> prev[j].symbol in table && table[prev[j].symbol] == prev[j]
    {
      assert syms[..i + 1] == syms[..i] + [prev[i].symbol];
      assert forall j :: 0 <= j < i ==> syms[j] != syms[i];
      table := table[prev[i].symbol := prev[i]];
    }
    assert syms[..|prev|] == syms;
  }

  /** No record before index k has the symbol of record k. */
  lemma FirstOfDistinct(quotes: seq<Stock>, k: int)
    requires Distinct(Symbols(quotes)) && 0 <= k < |quotes|
    ensures Find(quotes[..k], quotes[k].symbol) == None
  {
    if Find(quotes[..k], quotes[k].symbol).Some? {
      assert false;
    }
  }

  /** Recording one more quote: RecordMatched over a list grown by one. */
  lemma RecordMatchedAppend(symbols: seq<string>, history: map<string, seq<Entry>>,
                            quotes: seq<Stock>, x: Stock, known: set<string>, now: int)
    ensures var prior := RecordMatched(symbols, history, quotes, known, now);
      RecordMatched(symbols, history, quotes + [x], known, now) ==
        if x.symbol in known then RecordStep(prior.0, prior.1, x.symbol, x.ltp, now) else prior
  {
    assert (quotes + [x])[..|quotes|] == quotes;
  }

  /** A quote for another symbol does not change what the poll makes of `p`. */
  lemma UpdatedByOther(p: Stock, quotes: seq<Stock>, x: Stock, h0: map<string, seq<Entry>>,
                       h1: map<string, seq<Entry>>, weekly: map<string, real>, now: int)
    requires x.symbol != p.symbol && Get(h0, p.symbol) == Get(h1, p.symbol)
    ensures Updated(p, quotes + [x], h1, weekly, now) == Updated(p, quotes, h0, weekly, now)
  {
    FindAppend(quotes, x, p.symbol);
  }

  /** The first quote for the symbol of `p` merges it. */
  lemma UpdatedByOwn(p: Stock, quotes: seq<Stock>, x: Stock, history: map<string, seq<Entry>>,
                     weekly: map<string, real>, now: int)
    requires x.symbol == p.symbol && Find(quotes, p.symbol) == None
    ensures Updated(p, quotes, history, weekly, now) == p
    ensures Updated(p, quotes + [x], history, weekly, now) ==
      MergeStock(p, x, HourlyChange(Get(history, p.symbol), x.ltp, now), weekly)
  {
    FindAppend(quotes, x, p.symbol);
  }

  /** What the merge loop keeps after `k` quotes: the tracker has recorded
      the listed ones, and every listed stock is updated by them. */
  ghost predicate MergedUpTo(prev: seq<Stock>, quotes: seq<Stock>, k: int, table: map<string, Stock>,
                             tracker: HourlyTracker, symbols0: seq<string>, history0: map<string, seq<Entry>>,
                             weekly: map<string, real>, now: int)
    reads tracker
    requires 0 <= k <= |quotes|
  {
    && (tracker.symbols, tracker.history) ==
         RecordMatched(symbols0, history0, quotes[..k], SymbolSet(prev), now)
    && (forall s :: s in table <==> s in Symbols(prev))
    && (forall i :: 0 <= i < |prev| ==>
         table[prev[i].symbol] == Updated(prev[i], quotes[..k], tracker.history, weekly, now))
  }

  /** One round of the merge loop, for quote k. */
  method MergeOne(prev: seq<Stock>, quotes: seq<Stock>, k: int, table: map<string, Stock>, tracker: HourlyTracker,
                  ghost symbols0: seq<string>, ghost history0: map<string, seq<Entry>>,
                  weekly: map<string, real>, now: int)
    returns (next: map<string, Stock>)
    requires Distinct(Symbols(quotes)) && 0 <= k < |quotes| && tracker.Valid()
    requires MergedUpTo(prev, quotes, k, table, tracker, symbols0, history0, weekly, now)
    modifies tracker
    ensures tracker.Valid() && tracker.lastSaveTime == old(tracker.lastSaveTime)
    ensures MergedUpTo(prev, quotes, k + 1, next, tracker, symbols0, history0, weekly, now)
  {
    var f := quotes[k];
    assert quotes[..k + 1] == quotes[..k] + [f];
    RecordMatchedAppend(symbols0, history0, quotes[..k], f, SymbolSet(prev), now);
    next := table;
    ghost var before := tracker.history;
    if f.symbol in table {
      FirstOfDistinct(quotes, k);
      tracker.RecordPrice(f.symbol, f.ltp, now);
      var hourly := tracker.GetHourlyChange(f.symbol, f.ltp, now);
      next := table[f.symbol := MergeStock(table[f.symbol], f, hourly, weekly)];
    }
    forall i | 0 <= i < |prev|
      ensures next[prev[i].symbol] == Updated(prev[i], quotes[..k + 1], tracker.history, weekly, now)
    {
      if prev[i].symbol == f.symbol {
        UpdatedByOwn(prev[i], quotes[..k], f, tracker.history, weekly, now);
      } else {
        UpdatedByOther(prev[i], quotes[..k], f, before, tracker.history, weekly, now);
      }
    }
  }

  /** The poll's `freshStocks.forEach` loop: each quote whose symbol
      is listed is recorded in the tracker, its one-hour change read back,
      and the listed stock replaced by the merge; then the map's values are
      read out in insertion order, which is the order of the previous list. */
  method MergeFresh(prev: seq<Stock>, quotes: seq<Stock>, tracker: HourlyTracker, weekly: map<string, real>, now: int)
    returns (merged: seq<Stock>)
    requires Distinct(Symbols(prev)) && Distinct(Symbols(quotes)) && tracker.Valid()
    modifies tracker
    ensures tracker.Valid() && tracker.lastSaveTime == old(tracker.lastSaveTime)
    ensures (tracker.symbols, tracker.history) ==
      RecordMatched(old(tracker.symbols), old(tracker.history), quotes, SymbolSet(prev), now)
    ensures merged == PollMerged(prev, quotes, tracker.history, weekly, now)
  {
    var table := IndexBySymbol(prev);
    MergedAtStart(prev, quotes, table, tracker, weekly, now);
    for k := 0 to |quotes|
      invariant tracker.Valid() && tracker.lastSaveTime == old(tracker.lastSaveTime)
      invariant MergedUpTo(prev, quotes, k, table, tracker, old(tracker.symbols), old(tracker.history), weekly, now)
    {
      table := MergeOne(prev, quotes, k, table, tracker, old(tracker.symbols), old(tracker.history), weekly, now);
    }
    assert quotes[..|quotes|] == quotes;
    merged := ReadOut(prev, quotes, table, tracker.history, weekly, now);
  }

  /** Before the first quote the table holds the previous stocks unchanged. */
  lemma MergedAtStart(prev: seq<Stock>, quotes: seq<Stock>, table: map<string, Stock>, tracker: HourlyTracker,
                      weekly: map<string, real>, now: int)
    requires forall s :: s in table <==> s in Symbols(prev)
    requires forall i :: 0 <= i < |prev| ==> table[prev[i].symbol] == prev[i]
    ensures MergedUpTo(prev, quotes, 0, table, tracker, tracker.symbols, tracker.history, weekly, now)
  {
    var none: seq<Stock> := [];
    assert quotes[..0] == none;
    assert RecordMatched(tracker.symbols, tracker.history, none, SymbolSet(prev), now) == (tracker.symbols, tracker.history);
    forall i | 0 <= i < |prev|
      ensures table[prev[i].symbol] == Updated(prev[i], none, tracker.history, weekly, now)
    {
      assert Find(none, prev[i].symbol) == None;
    }
  }

  /** `Array.from(map.values())`: the entries in the order of the previous list. */
  function ReadOut(prev: seq<Stock>, quotes: seq<Stock>, table: map<string, Stock>, history: map<string, seq<Entry>>,
                   weekly: map<string, real>, now: int): (merged: seq<Stock>)
    requires forall s :: s in table <==> s in Symbols(prev)
    requires forall i :: 0 <= i < |prev| ==> table[prev[i].symbol] == Updated(prev[i], quotes, history, weekly, now)
    ensures merged == PollMerged(prev, quotes, history, weekly, now)
  {
    var merged := seq(|prev|, i requires 0 <= i < |prev| => table[prev[i].symbol]);
    assert |merged| == |PollMerged(prev, quotes, history, weekly, now)|;
    merged
  }

  /** The outcome of one `saveToStorage` on the stored snapshot and the
      tracker's save time: within 30 s of the last save both stay as they
      were; otherwise the snapshot of the tracker's (first 250) symbols and
      their trimmed logs is stored and the save time becomes `now`. */
  predicate SavedAt(stored0: Option<Snapshot>, last0: int, stored: Option<Snapshot>, last: int,
                    symbols: seq<string>, history: map<string, seq<Entry>>, now: int)
  {
    if now - last0 < SaveInterval then stored == stored0 && last == last0
    else
      && last == now
      && (forall s :: s in SavedSymbols(symbols) ==> s in history)
      && stored == Some(Snapshot(SavedSymbols(symbols), Trimmed(SavedSymbols(symbols), history)))
  }

  /** The hook's state. */
  class MarketData {
    var stocks: seq<Stock>
    var loading: bool
    var error: Option<string>
    /** The time of the last successful load or poll. */
    var lastUpdated: Option<int>
    var marketOpen: bool
    var hourlyDataAge: int
    /** `weeklyChangesRef.current`. */
    var weekly: map<string, real>
    /** The tracker's stored snapshot (localStorage "hourly_v3"). */
    var stored: Option<Snapshot>
    const tracker: HourlyTracker

    /** The list holds one record per symbol. The tracker's own invariant
        is stated beside it, as `tracker.Valid()`. */
    ghost predicate Valid()
      reads this
    {
      Distinct(Symbols(stocks))
    }

    constructor (saved: Option<Snapshot>)
      requires saved.Some? ==> WellFormed(saved.value.symbols, saved.value.log)
      ensures Valid() && tracker.Valid() && fresh(tracker)
      ensures stocks == [] && loading && error == None && lastUpdated == None
      ensures !marketOpen && hourlyDataAge == 0 && weekly == map[] && stored == saved
    {
      stocks, loading, error, lastUpdated := [], true, None, None;
      marketOpen, hourlyDataAge, weekly, stored := false, 0, map[], saved;
      tracker := new HourlyTracker(saved);
    }

    /** Stores the tracker's snapshot when the save is not throttled. */
    method Save(now: int)
      requires Valid() && tracker.Valid()
      modifies this, tracker
      ensures Valid() && tracker.Valid() && stocks == old(stocks) && weekly == old(weekly)
      ensures tracker.symbols == old(tracker.symbols) && tracker.history == old(tracker.history)
      ensures loading == old(loading) && error == old(error) && lastUpdated == old(lastUpdated)
      ensures marketOpen == old(marketOpen) && hourlyDataAge == old(hourlyDataAge)
      ensures SavedAt(old(stored), old(tracker.lastSaveTime), stored, tracker.lastSaveTime,
                      tracker.symbols, tracker.history, now)
    {
      var snap := tracker.SaveToStorage(now);
      if snap.Some? {
        stored := snap;
      }
    }

    /** `loadInitialData`. An empty list makes the load fail with the
        proxy message and leaves the stocks as they were. Otherwise every
        price is recorded, the weekly changes are computed, the stocks are
        replaced by the enriched list, and loading ends without error. */
    method LoadInitialData(allStocks: seq<Stock>, historical: map<string, real>, open: bool, now: int)
      requires Valid() && tracker.Valid() && Distinct(Symbols(allStocks))
      modifies this, tracker
      ensures Valid() && tracker.Valid() && !loading
      ensures |allStocks| == 0 ==>
        && error == Some(NoDataError) && stocks == old(stocks) && lastUpdated == old(lastUpdated)
        && marketOpen == old(marketOpen) && hourlyDataAge == old(hourlyDataAge) && weekly == old(weekly)
        && tracker.symbols == old(tracker.symbols) && tracker.history == old(tracker.history)
        && stored == old(stored) && tracker.lastSaveTime == old(tracker.lastSaveTime)
      ensures |allStocks| > 0 ==>
        && error == None && marketOpen == open && lastUpdated == Some(now)
        && SavedAt(old(stored), old(tracker.lastSaveTime), stored, tracker.lastSaveTime,
                   tracker.symbols, tracker.history, now)
        && (tracker.symbols, tracker.history) ==
             RecordMatched(old(tracker.symbols), old(tracker.history), allStocks, SymbolSet(allStocks), now)
        && (forall s :: s in weekly <==> s in Symbols(allStocks))
        && (forall i :: 0 <= i < |allStocks| ==> weekly[allStocks[i].symbol] == WeeklyValue(allStocks, historical, i))
        && stocks == Enriched(allStocks, tracker.history, weekly, now)
        && hourlyDataAge == DataAgeMinutes(Get(tracker.history, allStocks[0].symbol), now)
    {
      // `loading` is true and `error` cleared while the load runs; only
      // the final values are observable here.
      if |allStocks| == 0 {
        error, loading := Some(NoDataError), false;
        return;
      }
      LoadStocks(allStocks, historical, open, now);
    }

    /** The successful path of `loadInitialData`. */
    method LoadStocks(allStocks: seq<Stock>, historical: map<string, real>, open: bool, now: int)
      requires tracker.Valid() && Distinct(Symbols(allStocks)) && |allStocks| > 0
      modifies this, tracker
      ensures Valid() && tracker.Valid() && !loading
      ensures error == None && marketOpen == open && lastUpdated == Some(now)
      ensures (tracker.symbols, tracker.history) ==
        RecordMatched(old(tracker.symbols), old(tracker.history), allStocks, SymbolSet(allStocks), now)
      ensures forall s :: s in weekly <==> s in Symbols(allStocks)
      ensures forall i :: 0 <= i < |allStocks| ==> weekly[allStocks[i].symbol] == WeeklyValue(allStocks, historical, i)
      ensures stocks == Enriched(allStocks, tracker.history, weekly, now)
      ensures hourlyDataAge == DataAgeMinutes(Get(tracker.history, allStocks[0].symbol), now)
      ensures SavedAt(old(stored), old(tracker.lastSaveTime), stored, tracker.lastSaveTime,
                      tracker.symbols, tracker.history, now)
    {
      var snap, w, enriched, age := FirstLoad(allStocks, historical, tracker, now);
      Publish(snap, w, enriched, age, open, now);
    }

    /** The state setters of a successful load. */
    method Publish(snap: Option<Snapshot>, w: map<string, real>, enriched: seq<Stock>, age: int, open: bool, now: int)
      modifies this
      ensures stored == (if snap.Some? then snap else old(stored))
      ensures weekly == w && stocks == enriched && hourlyDataAge == age
      ensures lastUpdated == Some(now) && marketOpen == open && !loading && error == None
    {
      if snap.Some? {
        stored := snap;
      }
      weekly, stocks, lastUpdated, marketOpen, loading, hourlyDataAge, error := w, enriched, Some(now), open, false, age, None;
    }

    /** `pollUpdate`. The market flag is always refreshed. An empty quote
        list changes nothing else. Otherwise the stocks are merged with it
        (the tracker records the matched prices), the tracker is saved and
        the update time and data age are refreshed. */
    method PollUpdate(quotes: seq<Stock>, open: bool, now: int)
      requires Valid() && tracker.Valid() && Distinct(Symbols(quotes))
      modifies this, tracker
      ensures Valid() && tracker.Valid() && marketOpen == open && weekly == old(weekly)
      ensures loading == old(loading) && error == old(error)
      ensures |quotes| == 0 ==>
        && stocks == old(stocks) && lastUpdated == old(lastUpdated) && hourlyDataAge == old(hourlyDataAge)
        && tracker.symbols == old(tracker.symbols) && tracker.history == old(tracker.history)
        && stored == old(stored) && tracker.lastSaveTime == old(tracker.lastSaveTime)
      ensures |quotes| > 0 ==>
        && (tracker.symbols, tracker.history) ==
             RecordMatched(old(tracker.symbols), old(tracker.history), quotes, SymbolSet(old(stocks)), now)
        && stocks == PollMerged(old(stocks), quotes, tracker.history, weekly, now)
        && lastUpdated == Some(now)
        && hourlyDataAge == DataAgeMinutes(Get(tracker.history, quotes[0].symbol), now)
        && SavedAt(old(stored), old(tracker.lastSaveTime), stored, tracker.lastSaveTime,
                   tracker.symbols, tracker.history, now)
    {
      marketOpen := open;
      if |quotes| == 0 {
        return;
      }
      var merged := MergeFresh(stocks, quotes, tracker, weekly, now);
      stocks := merged;
      Save(now);
      lastUpdated := Some(now);
      hourlyDataAge := tracker.GetDataAgeMinutes(quotes[0].symbol, now);
    }
  }

  /** The successful path of the first load: record every price, save,
      compute the weekly changes, enrich, and read the data age of the
      first stock. */
  method FirstLoad(allStocks: seq<Stock>, historical: map<string, real>, tracker: HourlyTracker, now: int)
    returns (snap: Option<Snapshot>, weekly: map<string, real>, enriched: seq<Stock>, age: int)
    requires tracker.Valid() && Distinct(Symbols(allStocks)) && |allStocks| > 0
    modifies tracker
    ensures tracker.Valid()
    ensures (tracker.symbols, tracker.history) ==
      RecordMatched(old(tracker.symbols), old(tracker.history), allStocks, SymbolSet(allStocks), now)
    ensures forall s :: s in weekly <==> s in Symbols(allStocks)
    ensures forall i :: 0 <= i < |allStocks| ==> weekly[allStocks[i].symbol] == WeeklyValue(allStocks, historical, i)
    ensures enriched == Enriched(allStocks, tracker.history, weekly, now)
    ensures age == DataAgeMinutes(Get(tracker.history, allStocks[0].symbol), now)
    ensures Distinct(Symbols(enriched))
    ensures SavedAt(None, old(tracker.lastSaveTime), snap, tracker.lastSaveTime,
                    tracker.symbols, tracker.history, now)
  {
    RecordAll(allStocks, tracker, now);
    snap := tracker.SaveToStorage(now);
    weekly := WeeklyOfDistinct(allStocks, historical);
    enriched := EnrichAll(allStocks, tracker, weekly, now);
    age := tracker.GetDataAgeMinutes(allStocks[0].symbol, now);
  }

  /** `fetchWeeklyChanges` on a list with distinct symbols: every stock
      gets its own weekly value. */
  method WeeklyOfDistinct(stocks: seq<Stock>, historical: map<string, real>) returns (weekly: map<string, real>)
    requires Distinct(Symbols(stocks))
    ensures forall s :: s in weekly <==> s in Symbols(stocks)
    ensures forall i :: 0 <= i < |stocks| ==>
      stocks[i].symbol in weekly && weekly[stocks[i].symbol] == WeeklyValue(stocks, historical, i)
  {
    weekly := WeeklyChanges(stocks, historical);
    forall i | 0 <= i < |stocks| ensures FirstOccurrence(stocks, i) {
      DistinctIsFirst(stocks, i);
    }
  }

  /** The `allStocks.forEach(s => recordPrice(...))` of the first load:
      every price is offered to the tracker. */
  method RecordAll(stocks: seq<Stock>, tracker: HourlyTracker, now: int)
    requires tracker.Valid()
    modifies tracker
    ensures tracker.Valid() && tracker.lastSaveTime == old(tracker.lastSaveTime)
    ensures (tracker.symbols, tracker.history) ==
      RecordMatched(old(tracker.symbols), old(tracker.history), stocks, SymbolSet(stocks), now)
  {
    ghost var known := SymbolSet(stocks);
    assert stocks[..0] == [];
    for k := 0 to |stocks|
      invariant tracker.Valid() && tracker.lastSaveTime == old(tracker.lastSaveTime)
      invariant (tracker.symbols, tracker.history) ==
        RecordMatched(old(tracker.symbols), old(tracker.history), stocks[..k], known, now)
    {
      assert stocks[..k + 1] == stocks[..k] + [stocks[k]];
      assert Symbols(stocks)[k] == stocks[k].symbol;
      RecordMatchedAppend(old(tracker.symbols), old(tracker.history), stocks[..k], stocks[k], known, now);
      tracker.RecordPrice(stocks[k].symbol, stocks[k].ltp, now);
    }
    assert stocks[..|stocks|] == stocks;
  }

  /** The `allStocks.map(...)` of the first load, reading each one-hour
      change from the tracker. */
  method EnrichAll(stocks: seq<Stock>, tracker: HourlyTracker, weekly: map<string, real>, now: int)
    returns (enriched: seq<Stock>)
    ensures enriched == Enriched(stocks, tracker.history, weekly, now)
  {
    enriched := [];
    for k := 0 to |stocks|
      invariant |enriched| == k
      invariant forall i :: 0 <= i < k ==>
        enriched[i] == Enrich(stocks[i], HourlyChange(Get(tracker.history, stocks[i].symbol), stocks[i].ltp, now), weekly)
    {
      var hourly := tracker.GetHourlyChange(stocks[k].symbol, stocks[k].ltp, now);
      enriched := enriched + [Enrich(stocks[k], hourly, weekly)];
    }
  }
}
