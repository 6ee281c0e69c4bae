/** The data service: the rows of one index fetch turned into stock
    records, the merge of all index fetches into one list with one record
    per symbol, and the market-hours test.

    The fetches themselves, the session cache and the clock are inputs:
    a fetch is given as the rows it returned (or nothing, for a failed or
    malformed response), the merge takes the settled results, and the
    market-hours test takes the Indian Standard Time day and time. The
    symbol-to-sector table is a parameter. */
module Nse {
  import opened Stocks

  /** The sector and industry a symbol is mapped to. */
  datatype Mapping = Mapping(sector: string, industry: string)

  /** One row of the index endpoint. Optional fields are the ones the code
      tests or falls back on. */
  datatype Row = Row(
    symbol: Option<string>,
    companyName: Option<string>,
    lastPrice: Option<real>,
    open: real,
    dayHigh: real,
    dayLow: real,
    previousClose: real,
    totalTradedVolume: Option<real>,
    yearHigh: real,
    yearLow: real,
    pChange: Option<real>,
    perChange30d: Option<real>,
    perChange365d: Option<real>)

  /** The symbols the "Nifty 50" filter selects (49 are listed). */
  const Nifty50: set<string> := {
    "RELIANCE", "TCS", "HDFCBANK", "INFY", "ICICIBANK", "HINDUNILVR",
    "ITC", "SBIN", "BHARTIARTL", "KOTAKBANK", "LT", "AXISBANK",
    "WIPRO", "HCLTECH", "SUNPHARMA", "MARUTI", "TATAMOTORS", "NTPC",
    "POWERGRID", "ONGC", "TATASTEEL", "JSWSTEEL", "DRREDDY", "CIPLA",
    "BAJFINANCE", "BAJAJ-AUTO", "TECHM", "NESTLEIND", "ADANIENT",
    "ADANIPORTS", "ULTRACEMCO", "TITAN", "INDUSINDBK", "COALINDIA",
    "GRASIM", "DIVISLAB", "EICHERMOT", "APOLLOHOSP", "HEROMOTOCO",
    "BAJAJFINSV", "TATACONSUM", "SBILIFE", "HDFCLIFE", "BRITANNIA",
    "M&M", "HINDALCO", "BPCL", "LTIM", "TRENT"
  }

  const Unmapped: Mapping := Mapping("Other", "General")

  /** JavaScript truthiness of an optional string: absent and "" are falsy. */
  predicate Truthy(s: Option<string>) {
    s.Some? && s.value != ""
  }

  /** `s.replace(/%20/g, " ")`: every "%20", scanned left to right, becomes
      one space. */
  function DecodeSpaces(s: string): (r: string)
    ensures |r| <= |s|
  {
    if |s| >= 3 && s[0] == '%' && s[1] == '2' && s[2] == '0' then " " + DecodeSpaces(s[3..])
    else if s == [] then []
    else [s[0]] + DecodeSpaces(s[1..])
  }

  /** A character other than '%' passes through unchanged. */
  lemma DecodeSpacesChar(c: char, b: string)
    requires c != '%'
    ensures DecodeSpaces([c] + b) == [c] + DecodeSpaces(b)
  {
    assert ([c] + b)[0] == c && ([c] + b)[1..] == b;
  }

  /** A prefix without '%' passes through unchanged. */
  lemma {:induction false} DecodeSpacesPlain(a: string, b: string)
    requires forall i :: 0 <= i < |a| ==> a[i] != '%'
    ensures DecodeSpaces(a + b) == a + DecodeSpaces(b)
    decreases |a|
  {
    if a != [] {
      var rest := a[1..];
      assert forall i :: 0 <= i < |rest| ==> rest[i] == a[i + 1];
      DecodeSpacesChar(a[0], rest + b);
      DecodeSpacesPlain(rest, b);
      assert a + b == [a[0]] + (rest + b);
    } else {
      assert a + b == b;
    }
  }

  /** A name without '%' is its own display name. */
  lemma DecodeSpacesPlainName(a: string)
    requires forall i :: 0 <= i < |a| ==> a[i] != '%'
    ensures DecodeSpaces(a) == a
  {
    DecodeSpacesPlain(a, []);
    assert a + [] == a;
  }

  /** An encoded space after a plain prefix decodes to one space:
      "NIFTY%20500" becomes "NIFTY 500". */
  lemma DecodeSpacesEncoded(a: string, b: string)
    requires forall i :: 0 <= i < |a| ==> a[i] != '%'
    ensures DecodeSpaces(a + "%20" + b) == a + " " + DecodeSpaces(b)
  {
    var tail := "%20" + b;
    assert tail[0] == '%' && tail[1] == '2' && tail[2] == '0' && tail[3..] == b;
    DecodeSpacesPlain(a, tail);
    assert a + "%20" + b == a + tail;
  }

  /** The row filter of a fetch: a symbol, a positive last price, and not
      the row of the index itself. */
  predicate Kept(row: Row, indexName: string) {
    && Truthy(row.symbol)
    && row.lastPrice.Some? && row.lastPrice.value > 0.0
    && row.symbol.value != DecodeSpaces(indexName)
  }

  /** `x || 0` for an optional number: absent and 0 both give 0. */
  function OrZero(x: Option<real>): (r: real)
    ensures x.Some? ==> r == x.value
    ensures x.None? ==> r == 0.0
  {
    if x.Some? then x.value else 0.0
  }

  /** The stock record built from a kept row. */
  function ToStock(row: Row, sectorMap: map<string, Mapping>): (s: Stock)
    requires row.symbol.Some? && row.lastPrice.Some?
    ensures s.symbol == row.symbol.value && s.ltp == row.lastPrice.value
    ensures s.name == if Truthy(row.companyName) then row.companyName.value else row.symbol.value
    ensures s.open == row.open && s.high == row.dayHigh && s.low == row.dayLow
    ensures s.prevClose == row.previousClose && s.yearHigh == row.yearHigh && s.yearLow == row.yearLow
    ensures s.volume == OrZero(row.totalTradedVolume)
    ensures Mapping(s.sector, s.industry) ==
      if row.symbol.value in sectorMap then sectorMap[row.symbol.value] else Unmapped
    ensures s.isNifty50 <==> row.symbol.value in Nifty50
    ensures H1 in s.changes && D1 in s.changes && W1 in s.changes && M1 in s.changes && Y1 in s.changes
    ensures ChangeAt(s, H1) == 0.0 && ChangeAt(s, W1) == 0.0
    ensures ChangeAt(s, D1) == OrZero(row.pChange)
    ensures ChangeAt(s, M1) == OrZero(row.perChange30d)
    ensures ChangeAt(s, Y1) == OrZero(row.perChange365d)
  {
    var sym := row.symbol.value;
    var mapping := if sym in sectorMap then sectorMap[sym] else Unmapped;
    var changes := map[H1 := 0.0, D1 := OrZero(row.pChange), W1 := 0.0,
                       M1 := OrZero(row.perChange30d), Y1 := OrZero(row.perChange365d)];
    Stock(sym, if Truthy(row.companyName) then row.companyName.value else sym,
          row.lastPrice.value, row.open, row.dayHigh, row.dayLow, row.previousClose,
          OrZero(row.totalTradedVolume), row.yearHigh, row.yearLow,
          mapping.sector, mapping.industry, sym in Nifty50, changes)
  }

  /** The kept rows of a response, in order. */
  function KeptRows(rows: seq<Row>, indexName: string): (r: seq<Row>)
    ensures |r| <= |rows|
    ensures forall row :: row in r <==> row in rows && Kept(row, indexName)
  {
    Filter(rows, (row: Row) => Kept(row, indexName))
  }

  /** Each row of `rows` made into a stock, in order. */
  function ConvertRows(rows: seq<Row>, sectorMap: map<string, Mapping>): (r: seq<Stock>)
    requires forall row :: row in rows ==> row.symbol.Some? && row.lastPrice.Some?
    ensures |r| == |rows|
    ensures forall row :: row in rows ==> ToStock(row, sectorMap) in r
    ensures forall s :: s in r ==> exists row :: row in rows && s == ToStock(row, sectorMap)
  {
    var r := seq(|rows|, i requires 0 <= i < |rows| => assert rows[i] in rows; ToStock(rows[i], sectorMap));
    assert forall row :: row in rows ==> ToStock(row, sectorMap) in r by {
      forall row | row in rows ensures ToStock(row, sectorMap) in r {
        var i :| 0 <= i < |rows| && rows[i] == row;
        assert r[i] == ToStock(row, sectorMap);
      }
    }
    assert forall s :: s in r ==> exists row :: row in rows && s == ToStock(row, sectorMap) by {
      forall s | s in r ensures exists row :: row in rows && s == ToStock(row, sectorMap) {
        var i :| 0 <= i < |r| && r[i] == s;
        assert rows[i] in rows;
      }
    }
    r
  }

  /** `fetchIndex`: a failed or malformed response gives no stocks;
      otherwise each kept row becomes one stock, in order. Every stock has
      a non-empty symbol other than the index's own display name and a
      positive price, and every kept row is represented. */
  function FetchIndex(indexName: string, response: Option<seq<Row>>, sectorMap: map<string, Mapping>): (r: seq<Stock>)
    ensures response.None? ==> r == []
    ensures response.Some? ==> |r| <= |response.value|
    ensures forall s :: s in r ==> s.symbol != "" && s.symbol != DecodeSpaces(indexName) && s.ltp > 0.0
    ensures forall s :: s in r ==> ChangeAt(s, H1) == 0.0 && ChangeAt(s, W1) == 0.0
    ensures response.Some? ==> forall row :: row in response.value && Kept(row, indexName) ==> ToStock(row, sectorMap) in r
    ensures response.Some? ==> forall s :: s in r ==>
      exists row :: row in response.value && Kept(row, indexName) && s == ToStock(row, sectorMap)
  {
    match response
    case None => []
    case Some(rows) =>
      var kept := KeptRows(rows, indexName);
      var r := ConvertRows(kept, sectorMap);
      assert forall s :: s in r ==>
        (s.symbol != "" && s.symbol != DecodeSpaces(indexName) && s.ltp > 0.0 &&
         ChangeAt(s, H1) == 0.0 && ChangeAt(s, W1) == 0.0) by {
        forall s | s in r
          ensures s.symbol != "" && s.symbol != DecodeSpaces(indexName) && s.ltp > 0.0
          ensures ChangeAt(s, H1) == 0.0 && ChangeAt(s, W1) == 0.0
        {
          var row :| row in kept && s == ToStock(row, sectorMap);
        }
      }
      r
  }

  /** The indices `fetchAllStocks` fetches, in order. */
  const IndexList: seq<string> := [
    "NIFTY 500", "NIFTY BANK", "NIFTY IT", "NIFTY PHARMA", "NIFTY AUTO",
    "NIFTY METAL", "NIFTY ENERGY", "NIFTY FMCG", "NIFTY REALTY", "NIFTY MEDIA",
    "NIFTY INFRA", "NIFTY COMMODITIES", "NIFTY PSU BANK", "NIFTY HEALTHCARE",
    "NIFTY CONSR DURBL", "NIFTY OIL AND GAS", "NIFTY MIDCAP 50", "NIFTY SMLCAP 50"
  ]

  /** The listed index names are written with plain spaces, so the row
      filter drops exactly the row whose symbol is the index name itself. */
  lemma IndexNamesAreDisplayNames(i: nat)
    requires i < |IndexList|
    ensures DecodeSpaces(IndexList[i]) == IndexList[i]
  {
    var name := IndexList[i];
    assert forall j :: 0 <= j < |name| ==> name[j] != '%';
    DecodeSpacesPlainName(name);
  }

  /** A settled index fetch (`Promise.allSettled`). */
  datatype Settled = Fulfilled(stocks: seq<Stock>) | Rejected

  /** The stocks of the fulfilled results, in order; rejected ones add nothing. */
  function Flatten(results: seq<Settled>): (r: seq<Stock>)
  {
    if results == [] then []
    else
      var last := results[|results| - 1];
      Flatten(results[..|results| - 1]) + (if last.Fulfilled? then last.stocks else [])
  }

  /** `stockMap` with its key order: symbols in insertion order and the
      record stored for each. */
  datatype Merge = Merge(order: seq<string>, table: map<string, Stock>)

  /** One step of the merge loop: a new symbol is stored and appended; a
      known one whose stored sector is "Other" takes the sector and
      industry of an incoming record that has a real sector; otherwise
      nothing changes. */
  function Absorb(m: Merge, x: Stock): (n: Merge)
    ensures x.symbol in n.table
    ensures forall s :: s != x.symbol && s in m.table ==> s in n.table && n.table[s] == m.table[s]
  {
    if x.symbol !in m.table then Merge(m.order + [x.symbol], m.table[x.symbol := x])
    else if x.sector != "Other" && m.table[x.symbol].sector == "Other" then
      Merge(m.order, m.table[x.symbol := m.table[x.symbol].(sector := x.sector, industry := x.industry)])
    else m
  }

  /** A stored record with a real sector is left as it is. */
  lemma AbsorbKeepsRealSector(m: Merge, x: Stock, s: string)
    requires s in m.table && m.table[s].sector != "Other"
    ensures s in Absorb(m, x).table && Absorb(m, x).table[s] == m.table[s]
  {
  }

  /** The merge of a list of stocks, one at a time. */
  function Deduped(flat: seq<Stock>): (m: Merge)
  {
    if flat == [] then Merge([], map[])
    else Absorb(Deduped(flat[..|flat| - 1]), flat[|flat| - 1])
  }

  lemma DedupedAppend(flat: seq<Stock>, x: Stock)
    ensures Deduped(flat + [x]) == Absorb(Deduped(flat), x)
  {
    assert (flat + [x])[..|flat|] == flat;
  }

  /** The order lists each stored symbol once, and each record is stored
      under its own symbol. */
  ghost predicate WellFormed(m: Merge) {
    && Distinct(m.order)
    && (forall s :: s in m.table <==> s in m.order)
    && (forall s :: s in m.table ==> m.table[s].symbol == s)
  }

  /** `Object.values(stockMap)`: the stored records in key order. */
  function Values(m: Merge): (r: seq<Stock>)
    requires WellFormed(m)
    ensures |r| == |m.order| && Symbols(r) == m.order
    ensures forall s :: s in r <==> s.symbol in m.table && m.table[s.symbol] == s
  {
    var r := seq(|m.order|, i requires 0 <= i < |m.order| => m.table[m.order[i]]);
    ValuesSymbols(m, r);
    ValuesCover(m, r);
    r
  }

  /** A list holding the record of each key, in key order, has the keys as
      its symbols. */
  lemma ValuesSymbols(m: Merge, r: seq<Stock>)
    requires forall s :: s in m.table ==> m.table[s].symbol == s
    requires |r| == |m.order| && forall i :: 0 <= i < |r| ==> m.order[i] in m.table && r[i] == m.table[m.order[i]]
    ensures Symbols(r) == m.order
  {
    assert forall i :: 0 <= i < |r| ==> Symbols(r)[i] == m.order[i];
  }

  /** The same list holds exactly the stored records. */
  lemma ValuesCover(m: Merge, r: seq<Stock>)
    requires (forall s :: s in m.table <==> s in m.order) && (forall s :: s in m.table ==> m.table[s].symbol == s)
    requires |r| == |m.order| && forall i :: 0 <= i < |r| ==> r[i] == m.table[m.order[i]]
    ensures forall s :: s in r <==> s.symbol in m.table && m.table[s.symbol] == s
  {
    forall s: Stock | s.symbol in m.table && m.table[s.symbol] == s ensures s in r {
      var i :| 0 <= i < |m.order| && m.order[i] == s.symbol;
      assert r[i] == s;
    }
  }

  /** A merge step keeps the merge well formed. */
  lemma AbsorbWellFormed(m: Merge, x: Stock)
    requires WellFormed(m)
    ensures WellFormed(Absorb(m, x))
  {
    if x.symbol !in m.table {
      var o := m.order + [x.symbol];
      forall i, j | 0 <= i < |o| && 0 <= j < |o| && o[i] == o[j] ensures i == j {
        if i < |m.order| && j < |m.order| {
        } else if i < |m.order| {
          assert false;
        } else if j < |m.order| {
          assert false;
        }
      }
    }
  }

  lemma {:induction false} DedupedWellFormed(flat: seq<Stock>)
    ensures WellFormed(Deduped(flat))
  {
    if flat != [] {
      DedupedWellFormed(flat[..|flat| - 1]);
      AbsorbWellFormed(Deduped(flat[..|flat| - 1]), flat[|flat| - 1]);
    }
  }

  /** Exactly the symbols of the input are stored. */
  lemma {:induction false} DedupedCoverage(flat: seq<Stock>)
    ensures forall s :: s in Deduped(flat).table <==> s in Symbols(flat)
  {
    if flat != [] {
      var init := flat[..|flat| - 1];
      var x := flat[|flat| - 1];
      DedupedCoverage(init);
      assert flat == init + [x];
      DedupedAppend(init, x);
      forall s ensures s in Deduped(flat).table <==> s in Symbols(flat) {
        FindSymbols(init, s);
        FindSymbols(flat, s);
        FindAppend(init, x, s);
      }
    }
  }


  /** The records whose sector is not "Other", in order. */
  function WithSector(flat: seq<Stock>): (r: seq<Stock>)
    ensures forall y :: y in r <==> y in flat && y.sector != "Other"
  {
    if flat == [] then []
    else
      var last := flat[|flat| - 1];
      WithSector(flat[..|flat| - 1]) + (if last.sector != "Other" then [last] else [])
  }

  lemma WithSectorAppend(flat: seq<Stock>, x: Stock)
    ensures WithSector(flat + [x]) == WithSector(flat) + (if x.sector != "Other" then [x] else [])
  {
    assert (flat + [x])[..|flat|] == flat;
  }

  /** What the merge stores for symbol `s`: the first record with that
      symbol, with the sector and industry of the first record for `s`
      that has a real sector, when there is one. */
  function Expected(flat: seq<Stock>, s: string): (e: Stock)
    requires Find(flat, s).Some?
    ensures e == Find(flat, s).value.(sector := e.sector, industry := e.industry)
  {
    var first := Find(flat, s).value;
    match Find(WithSector(flat), s)
    case Some(t) => first.(sector := t.sector, industry := t.industry)
    case None => first
  }

  /** A first record without a real sector means no record for the
      symbol has one. */
  lemma FirstWithoutSector(flat: seq<Stock>, s: string)
    requires Find(flat, s).Some? && Find(WithSector(flat), s) == None
    ensures Find(flat, s).value.sector == "Other"
  {
    if Find(flat, s).value.sector != "Other" {
      assert false;
    }
  }

  /** The records with a real sector are records of the list. */
  lemma WithSectorFind(flat: seq<Stock>, s: string)
    requires Find(WithSector(flat), s).Some?
    ensures Find(flat, s).Some? && Find(WithSector(flat), s).value.sector != "Other"
  {
    var t := Find(WithSector(flat), s).value;
    assert t in flat;
    var i :| 0 <= i < |flat| && flat[i] == t;
  }

  /** A record for another symbol leaves Expected unchanged. */
  lemma ExpectedOtherSymbol(init: seq<Stock>, x: Stock, s: string)
    requires s != x.symbol && Find(init, s).Some?
    ensures Find(init + [x], s).Some? && Expected(init + [x], s) == Expected(init, s)
  {
    FindAppend(init, x, s);
    assert Find(init + [x], s) == Find(init, s);
    WithSectorStep(init, x, s);
  }

  /** The first record with a real sector after one more record. */
  lemma WithSectorStep(init: seq<Stock>, x: Stock, s: string)
    ensures Find(WithSector(init + [x]), s) ==
      if Find(WithSector(init), s).Some? then Find(WithSector(init), s)
      else if x.symbol == s && x.sector != "Other" then Some(x) else None
  {
    WithSectorAppend(init, x);
    var w := WithSector(init);
    if x.sector != "Other" {
      FindAppend(w, x, s);
    } else {
      assert w + [] == w;
    }
  }

  /** The first record of a symbol is Expected as it is. */
  lemma ExpectedNewSymbol(init: seq<Stock>, x: Stock)
    requires Find(init, x.symbol) == None
    ensures Find(init + [x], x.symbol) == Some(x) && Expected(init + [x], x.symbol) == x
  {
    FindAppend(init, x, x.symbol);
    WithSectorStep(init, x, x.symbol);
    if Find(WithSector(init), x.symbol).Some? {
      WithSectorFind(init, x.symbol);
      assert false;
    }
  }

  /** A later record for a known symbol upgrades Expected exactly when
      Expected still has sector "Other" and the record has a real one. */
  lemma ExpectedKnownSymbol(init: seq<Stock>, x: Stock)
    requires Find(init, x.symbol).Some?
    ensures Find(init + [x], x.symbol).Some?
    ensures var e := Expected(init, x.symbol);
      Expected(init + [x], x.symbol) ==
        if x.sector != "Other" && e.sector == "Other" then e.(sector := x.sector, industry := x.industry) else e
  {
    var s := x.symbol;
    FindAppend(init, x, s);
    WithSectorStep(init, x, s);
    if Find(WithSector(init), s).Some? {
      WithSectorFind(init, s);
    } else {
      FirstWithoutSector(init, s);
    }
  }

  /** The merge step agrees with Expected for the symbol `s`. */
  lemma ExpectedStep(init: seq<Stock>, x: Stock, s: string)
    requires s in Deduped(init).table <==> Find(init, s).Some?
    requires x.symbol in Deduped(init).table <==> Find(init, x.symbol).Some?
    requires s in Deduped(init).table ==> Deduped(init).table[s] == Expected(init, s)
    requires x.symbol in Deduped(init).table ==> Deduped(init).table[x.symbol] == Expected(init, x.symbol)
    requires s in Deduped(init + [x]).table
    ensures Find(init + [x], s).Some? && Deduped(init + [x]).table[s] == Expected(init + [x], s)
  {
    DedupedAppend(init, x);
    if s != x.symbol {
      ExpectedOtherSymbol(init, x, s);
    } else if s !in Deduped(init).table {
      ExpectedNewSymbol(init, x);
    } else {
      ExpectedKnownSymbol(init, x);
    }
  }

  /** Every stored record is the first record of its symbol, upgraded to
      the first real sector seen for it. */
  lemma {:induction false} DedupedEntries(flat: seq<Stock>)
    ensures forall s :: s in Deduped(flat).table ==> Find(flat, s).Some? && Deduped(flat).table[s] == Expected(flat, s)
  {
    if flat != [] {
      var init := flat[..|flat| - 1];
      var x := flat[|flat| - 1];
      assert flat == init + [x];
      DedupedEntries(init);
      DedupedCoverage(init);
      forall s | s in Deduped(flat).table
        ensures Find(flat, s).Some? && Deduped(flat).table[s] == Expected(flat, s)
      {
        FindSymbols(init, s);
        FindSymbols(init, x.symbol);
        ExpectedStep(init, x, s);
      }
    }
  }

  /** `fetchAllStocks` after the cache check: the merged list of all
      fulfilled index fetches, one record per symbol, in first-seen
      order. */
  method MergeResults(results: seq<Settled>) returns (all: seq<Stock>)
    ensures WellFormed(Deduped(Flatten(results)))
    ensures all == Values(Deduped(Flatten(results)))
  {
    var order: seq<string> := [];
    var table: map<string, Stock> := map[];
    for k := 0 to |results|
      invariant Merge(order, table) == Deduped(Flatten(results[..k]))
    {
      ghost var done := Flatten(results[..k]);
      assert results[..k + 1][..k] == results[..k] && results[..k + 1][k] == results[k];
      if results[k].Fulfilled? {
        assert Flatten(results[..k + 1]) == done + results[k].stocks;
        order, table := AbsorbAll(order, table, done, results[k].stocks);
      } else {
        assert Flatten(results[..k + 1]) == done + [];
        assert done + [] == done;
      }
    }
    assert results[..|results|] == results;
    DedupedWellFormed(Flatten(results));
    all := Values(Merge(order, table));
  }

  /** Merging one more record of a fetch. */
  lemma DedupedPrefixStep(done: seq<Stock>, stocks: seq<Stock>, j: int)
    requires 0 <= j < |stocks|
    ensures Deduped(done + stocks[..j + 1]) == Absorb(Deduped(done + stocks[..j]), stocks[j])
  {
    assert done + stocks[..j + 1] == (done + stocks[..j]) + [stocks[j]];
    DedupedAppend(done + stocks[..j], stocks[j]);
  }

  /** One record of the inner `forEach`: a new symbol is stored and
      appended to the key order; a known one stored as "Other" takes the
      record's real sector and industry. */
  method AbsorbOne(order0: seq<string>, table0: map<string, Stock>, x: Stock)
    returns (order: seq<string>, table: map<string, Stock>)
    ensures Merge(order, table) == Absorb(Merge(order0, table0), x)
  {
    order, table := order0, table0;
    if x.symbol !in table {
      table := table[x.symbol := x];
      order := order + [x.symbol];
    } else if x.sector != "Other" && table[x.symbol].sector == "Other" {
      table := table[x.symbol := table[x.symbol].(sector := x.sector, industry := x.industry)];
    }
  }

  /** The inner `forEach` of the merge: every record of one fetch is
      absorbed in turn. */
  method AbsorbAll(order0: seq<string>, table0: map<string, Stock>, ghost done: seq<Stock>, stocks: seq<Stock>)
    returns (order: seq<string>, table: map<string, Stock>)
    requires Merge(order0, table0) == Deduped(done)
    ensures Merge(order, table) == Deduped(done + stocks)
  {
    order, table := order0, table0;
    assert done + stocks[..0] == done;
    for j := 0 to |stocks|
      invariant Merge(order, table) == Deduped(done + stocks[..j])
    {
      DedupedPrefixStep(done, stocks, j);
      order, table := AbsorbOne(order, table, stocks[j]);
    }
    assert stocks[..|stocks|] == stocks;
  }

  /** The merged list holds each symbol once, holds exactly the symbols of
      the fulfilled results, and each record is the first one fetched for
      its symbol, with the sector and industry of the first record for it
      with a real sector when the first had "Other". */
  lemma MergeResultsProperties(results: seq<Settled>)
    ensures WellFormed(Deduped(Flatten(results)))
    ensures var all := Values(Deduped(Flatten(results)));
      && Distinct(Symbols(all))
      && (forall s :: s in Symbols(all) <==> s in Symbols(Flatten(results)))
      && (forall x :: x in all ==> Find(Flatten(results), x.symbol).Some? && x == Expected(Flatten(results), x.symbol))
  {
    var flat := Flatten(results);
    DedupedWellFormed(flat);
    DedupedCoverage(flat);
    DedupedEntries(flat);
  }

  /** A stored record with a real sector is never changed by a later
      record: the "upgrade from Other" happens at most once. */
  lemma {:induction false} RealSectorIsFinal(flat: seq<Stock>, more: seq<Stock>, s: string)
    requires s in Deduped(flat).table && Deduped(flat).table[s].sector != "Other"
    ensures s in Deduped(flat + more).table && Deduped(flat + more).table[s] == Deduped(flat).table[s]
    decreases |more|
  {
    if more == [] {
      assert flat + more == flat;
    } else {
      var init := more[..|more| - 1];
      var y := more[|more| - 1];
      RealSectorIsFinal(flat, init, s);
      assert flat + more == (flat + init) + [y];
      DedupedAppend(flat + init, y);
      AbsorbKeepsRealSector(Deduped(flat + init), y, s);
    }
  }


  /** `isMarketOpen` on the Indian Standard Time day of the week (0 is
      Sunday), hour and minute. */
  function IsMarketOpen(day: int, hours: int, minutes: int): (open: bool)
    requires 0 <= day <= 6 && 0 <= hours < 24 && 0 <= minutes < 60
    ensures open <==> (1 <= day <= 5 && (9 < hours < 15 || (hours == 9 && minutes >= 15) || (hours == 15 && minutes <= 30)))
  {
    if day == 0 || day == 6 then false
    else
      var time := hours * 60 + minutes;
      time >= 555 && time <= 930
  }
}
