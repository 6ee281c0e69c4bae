/** The stock record shared by the data service, the hook, the list view
    and the bubble chart, and small sequence helpers used by all of them. */
module Stocks {

  datatype Option<T> = None | Some(value: T)

  /** The five horizons a percentage change is kept for ("1h" … "1y"). */
  datatype Period = H1 | D1 | W1 | M1 | Y1

  /** One instrument as the data service builds it. Prices, volume and the
      52-week band are passed through untouched; `changes` is keyed by
      horizon, and a horizon that is absent reads as 0 (see ChangeAt). */
  datatype Stock = Stock(
    symbol: string,
    name: string,
    ltp: real,
    open: real,
    high: real,
    low: real,
    prevClose: real,
    volume: real,
    yearHigh: real,
    yearLow: real,
    sector: string,
    industry: string,
    isNifty50: bool,
    changes: map<Period, real>)

  /** `stock.changes?.[p] || 0`: a missing horizon reads as 0. */
  function ChangeAt(s: Stock, p: Period): (c: real)
    ensures p in s.changes ==> c == s.changes[p]
    ensures p !in s.changes ==> c == 0.0
  {
    if p in s.changes then s.changes[p] else 0.0
  }

  function Abs(x: real): (r: real)
    ensures r >= 0.0 && (r == x || r == -x)
  {
    if x < 0.0 then -x else x
  }

  function Min(a: real, b: real): (r: real)
    ensures r <= a && r <= b && (r == a || r == b)
  {
    if a <= b then a else b
  }

  function Max(a: real, b: real): (r: real)
    ensures r >= a && r >= b && (r == a || r == b)
  {
    if a >= b then a else b
  }

  /** A property read `obj[key]` (also `obj?.[key]`): None when the key is
      absent, which JavaScript reads as undefined. */
  function Get<K, V>(m: map<K, V>, key: K): (v: Option<V>)
    ensures v.Some? <==> key in m
    ensures v.Some? ==> v.value == m[key]
  {
    if key in m then Some(m[key]) else None
  }

  /** The symbols of a list of stocks, in order. */
  function Symbols(s: seq<Stock>): (r: seq<string>)
    ensures |r| == |s|
    ensures forall i :: 0 <= i < |s| ==> r[i] == s[i].symbol
  {
    if s == [] then [] else [s[0].symbol] + Symbols(s[1..])
  }

  /** The set of symbols of a list of stocks. */
  function SymbolSet(s: seq<Stock>): (r: set<string>)
    ensures forall sym :: sym in r <==> sym in Symbols(s)
  {
    set sym | sym in Symbols(s)
  }

  /** No symbol occurs twice. */
  predicate Distinct<T(==)>(s: seq<T>) {
    forall i, j :: 0 <= i < |s| && 0 <= j < |s| && s[i] == s[j] ==> i == j
  }

  /** The elements of `s` that satisfy `keep`, in their original order. */
  function Filter<T(!new)>(s: seq<T>, keep: T -> bool): (r: seq<T>)
    ensures |r| <= |s|
    ensures forall x :: x in r <==> x in s && keep(x)
  {
    if s == [] then []
    else
      assert s == [s[0]] + s[1..];
      if keep(s[0]) then [s[0]] + Filter(s[1..], keep)
      else Filter(s[1..], keep)
  }

  /** Filtering keeps every copy of a kept element and no copy of any other. */
  lemma {:induction false} FilterCount<T(!new)>(s: seq<T>, keep: T -> bool)
    ensures forall x :: multiset(Filter(s, keep))[x] == if keep(x) then multiset(s)[x] else 0
    decreases |s|
  {
    if s != [] {
      assert s == [s[0]] + s[1..];
      FilterCount(s[1..], keep);
    }
  }

  /** Filtering keeps the order: a list grown by one element filters to
      the filtered list grown by that element when it is kept. */
  lemma {:induction false} FilterAppend<T(!new)>(a: seq<T>, x: T, keep: T -> bool)
    ensures Filter(a + [x], keep) == Filter(a, keep) + (if keep(x) then [x] else [])
    decreases |a|
  {
    if a == [] {
      assert a + [x] == [x];
      assert [x][1..] == [];
    } else {
      var t, last := a + [x], if keep(x) then [x] else [];
      assert t[0] == a[0] && t[1..] == a[1..] + [x];
      FilterAppend(a[1..], x, keep);
      if keep(a[0]) {
        calc {
          Filter(t, keep);
          [a[0]] + Filter(a[1..] + [x], keep);
          [a[0]] + (Filter(a[1..], keep) + last);
          ([a[0]] + Filter(a[1..], keep)) + last;
          Filter(a, keep) + last;
        }
      } else {
        calc {
          Filter(t, keep);
          Filter(a[1..] + [x], keep);
          Filter(a[1..], keep) + last;
          Filter(a, keep) + last;
        }
      }
    }
  }

  /** `stocks.find(s => s.symbol === symbol)`. */
  function Find(stocks: seq<Stock>, symbol: string): (r: Option<Stock>)
    ensures r.Some? <==> exists i :: 0 <= i < |stocks| && stocks[i].symbol == symbol
    ensures r.Some? ==> r.value in stocks && r.value.symbol == symbol
    ensures r.Some? ==> exists i ::
      && 0 <= i < |stocks| && stocks[i] == r.value
      && forall j :: 0 <= j < i ==> stocks[j].symbol != symbol
  {
    if stocks == [] then None
    else if stocks[0].symbol == symbol then Some(stocks[0])
    else
      var r := Find(stocks[1..], symbol);
      assert r.Some? ==> exists i ::
        && 0 <= i < |stocks| && stocks[i] == r.value
        && forall j :: 0 <= j < i ==> stocks[j].symbol != symbol
      by {
        if r.Some? {
          var i :| 0 <= i < |stocks[1..]| && stocks[1..][i] == r.value &&
            forall j :: 0 <= j < i ==> stocks[1..][j].symbol != symbol;
          assert stocks[i + 1] == r.value;
          assert forall j :: 1 <= j < i + 1 ==> stocks[j] == stocks[1..][j - 1];
        }
      }
      r
  }

  /** With distinct symbols, the record found is the one with the symbol. */
  lemma {:induction false} FindDistinct(stocks: seq<Stock>, i: int)
    requires Distinct(Symbols(stocks)) && 0 <= i < |stocks|
    ensures Find(stocks, stocks[i].symbol) == Some(stocks[i])
  {
    var syms := Symbols(stocks);
    if stocks[0].symbol == stocks[i].symbol {
      assert syms[0] == syms[i];
    } else {
      var tail := stocks[1..];
      assert Symbols(tail) == syms[1..];
      assert tail[i - 1] == stocks[i];
      FindDistinct(tail, i - 1);
    }
  }

  /** A symbol is found exactly when it is one of the list's symbols. */
  lemma FindSymbols(stocks: seq<Stock>, symbol: string)
    ensures Find(stocks, symbol).Some? <==> symbol in Symbols(stocks)
  {
    if symbol in Symbols(stocks) {
      var i :| 0 <= i < |stocks| && Symbols(stocks)[i] == symbol;
    }
  }

  /** `find` on a list grown by one record. */
  lemma FindAppend(a: seq<Stock>, x: Stock, symbol: string)
    ensures Find(a + [x], symbol) ==
      if Find(a, symbol).Some? then Find(a, symbol) else if x.symbol == symbol then Some(x) else None
  {
    var b := a + [x];
    assert forall i :: 0 <= i < |a| ==> b[i] == a[i];
    if Find(a, symbol).Some? {
      var i :| 0 <= i < |a| && a[i] == Find(a, symbol).value && forall j :: 0 <= j < i ==> a[j].symbol != symbol;
      var r := Find(b, symbol);
      var k :| 0 <= k < |b| && b[k] == r.value && forall j :: 0 <= j < k ==> b[j].symbol != symbol;
      assert !(i < k) && !(k < i);
    } else if x.symbol == symbol {
      var r := Find(b, symbol);
      assert b[|a|] == x;
      var k :| 0 <= k < |b| && b[k] == r.value && forall j :: 0 <= j < k ==> b[j].symbol != symbol;
      assert !(k < |a|);
    }
  }
}
