/** The price-history tracker: a per-symbol log of (price, time) samples
    taken at most once every 55 seconds and pruned to the last four hours;
    a throttled, trimmed snapshot of the log for storage; the one-hour
    change read off the log; and the weekly-change estimate used when the
    historical endpoint gives nothing.

    The clock (`Date.now()`) is the parameter `now`, in milliseconds.
    localStorage is a snapshot passed to the constructor and returned by
    SaveToStorage. */
module ChangeTracker {
  import opened Stocks

  const Minute: int := 60 * 1000
  const Hour: int := 60 * Minute
  /** Samples closer together than this are not recorded. */
  const RecordInterval: int := 55000
  /** Saves closer together than this are skipped. */
  const SaveInterval: int := 30000
  /** The log keeps samples newer than this. */
  const Retention: int := 4 * Hour
  const MaxSavedSymbols: nat := 250
  const MaxSavedEntries: nat := 80

  /** One price sample. */
  datatype Entry = Entry(p: real, t: int)

  /** What is stored: the symbols in insertion order and their logs. */
  datatype Snapshot = Snapshot(symbols: seq<string>, log: map<string, seq<Entry>>)

  /** The keys of a stored object: the symbol list names exactly the logged
      symbols, each once. */
  ghost predicate WellFormed(symbols: seq<string>, log: map<string, seq<Entry>>) {
    Distinct(symbols) && forall s :: s in log <==> s in symbols
  }

  /** Sample times strictly increase along a log. */
  predicate Increasing(h: seq<Entry>) {
    forall i, j :: 0 <= i < j < |h| ==> h[i].t < h[j].t
  }

  /** `history.filter(e => e.t > cutoff)`. */
  function Prune(h: seq<Entry>, cutoff: int): (r: seq<Entry>)
    ensures forall e :: e in r <==> e in h && e.t > cutoff
    ensures |r| <= |h|
    ensures (forall i :: 0 <= i < |h| ==> h[i].t > cutoff) ==> r == h
  {
    if h == [] then []
    else if h[0].t > cutoff then [h[0]] + Prune(h[1..], cutoff)
    else Prune(h[1..], cutoff)
  }

  /** Pruning keeps the samples in their order. */
  lemma {:induction false} PruneIncreasing(h: seq<Entry>, cutoff: int)
    requires Increasing(h)
    ensures Increasing(Prune(h, cutoff))
  {
    if h != [] {
      PruneIncreasing(h[1..], cutoff);
      var rest := Prune(h[1..], cutoff);
      if h[0].t > cutoff {
        forall k | 0 <= k < |rest| ensures h[0].t < rest[k].t {
          assert rest[k] in h[1..];
        }
      }
    }
  }

  /** A new sample is recorded unless the last one is under 55 s old. */
  predicate Throttled(h: seq<Entry>, now: int) {
    |h| > 0 && now - h[|h| - 1].t < RecordInterval
  }

  /** The log after recording `price` at `now`: the sample appended, then
      everything four hours old or older dropped. */
  function Recorded(h: seq<Entry>, price: real, now: int): (r: seq<Entry>)
    ensures |r| > 0 && r[|r| - 1] == Entry(price, now)
    ensures forall i :: 0 <= i < |r| ==> r[i].t > now - Retention
    ensures forall e :: e in r <==> (e in h || e == Entry(price, now)) && e.t > now - Retention
  {
    var appended := h + [Entry(price, now)];
    var r := Prune(appended, now - Retention);
    PruneKeepsLast(appended, now - Retention);
    r
  }

  lemma {:induction false} PruneKeepsLast(h: seq<Entry>, cutoff: int)
    requires |h| > 0 && h[|h| - 1].t > cutoff
    ensures |Prune(h, cutoff)| > 0 && Prune(h, cutoff)[|Prune(h, cutoff)| - 1] == h[|h| - 1]
  {
    var tail := h[1..];
    if |h| > 1 {
      assert tail[|tail| - 1] == h[|h| - 1];
      PruneKeepsLast(tail, cutoff);
      var p := Prune(tail, cutoff);
      if h[0].t > cutoff {
        assert Prune(h, cutoff) == [h[0]] + p;
      } else {
        assert Prune(h, cutoff) == p;
      }
    } else {
      assert tail == [];
      assert Prune(h, cutoff) == [h[0]];
    }
  }

  /** `slice(-80)`: the last 80 samples, or all of a shorter log. */
  function LastEntries(h: seq<Entry>): (r: seq<Entry>)
    ensures |r| == if |h| < MaxSavedEntries then |h| else MaxSavedEntries
    ensures r == h[|h| - |r|..]
  {
    if |h| <= MaxSavedEntries then h else h[|h| - MaxSavedEntries..]
  }

  /** `Object.keys(...).slice(0, 250)`. */
  function SavedSymbols(symbols: seq<string>): (r: seq<string>)
    ensures |r| <= MaxSavedSymbols && r <= symbols
    ensures |r| == if |symbols| <= MaxSavedSymbols then |symbols| else MaxSavedSymbols
    ensures |symbols| <= MaxSavedSymbols ==> r == symbols
  {
    if |symbols| <= MaxSavedSymbols then symbols else symbols[..MaxSavedSymbols]
  }

  /** The trimmed object built key by key: `trimmed[sym] = log[sym].slice(-80)`. */
  function Trimmed(keys: seq<string>, log: map<string, seq<Entry>>): (m: map<string, seq<Entry>>)
    requires forall s :: s in keys ==> s in log
    ensures forall s :: s in m <==> s in keys
    ensures forall s :: s in m ==> m[s] == LastEntries(log[s])
  {
    if keys == [] then map[]
    else
      var init := keys[..|keys| - 1];
      var last := keys[|keys| - 1];
      assert keys == init + [last];
      Trimmed(init, log)[last := LastEntries(log[last])]
  }

  /** What a save stores: at most 250 symbols, the first in insertion order,
      each with at most its last 80 samples, and a well-formed object. */
  lemma SnapshotBounds(symbols: seq<string>, log: map<string, seq<Entry>>)
    requires WellFormed(symbols, log)
    ensures var keys := SavedSymbols(symbols);
      var m := Trimmed(keys, log);
      && |keys| == (if |symbols| <= MaxSavedSymbols then |symbols| else MaxSavedSymbols)
      && WellFormed(keys, m)
      && (forall s :: s in m ==> |m[s]| <= MaxSavedEntries && m[s] == log[s][|log[s]| - |m[s]|..])
      && (forall i :: 0 <= i < |keys| ==> keys[i] == symbols[i])
  {
    SavedKeys(symbols, log);
    TrimmedLogs(SavedSymbols(symbols), log);
  }

  lemma SavedKeys(symbols: seq<string>, log: map<string, seq<Entry>>)
    requires WellFormed(symbols, log)
    ensures var keys := SavedSymbols(symbols);
      && Distinct(keys)
      && (forall s :: s in keys ==> s in log)
      && (forall i :: 0 <= i < |keys| ==> keys[i] == symbols[i])
  {
    var keys := SavedSymbols(symbols);
    assert forall i :: 0 <= i < |keys| ==> keys[i] == symbols[i];
    forall s | s in keys ensures s in log {
      var i :| 0 <= i < |keys| && keys[i] == s;
      assert symbols[i] == s;
    }
    forall i, j | 0 <= i < |keys| && 0 <= j < |keys| && keys[i] == keys[j] ensures i == j {
      assert symbols[i] == symbols[j];
    }
  }

  lemma TrimmedLogs(keys: seq<string>, log: map<string, seq<Entry>>)
    requires forall s :: s in keys ==> s in log
    ensures var m := Trimmed(keys, log);
      forall s :: s in m ==> |m[s]| <= MaxSavedEntries && m[s] == log[s][|log[s]| - |m[s]|..]
  {
    var m := Trimmed(keys, log);
    forall s | s in m ensures |m[s]| <= MaxSavedEntries && m[s] == log[s][|log[s]| - |m[s]|..] {
      assert m[s] == LastEntries(log[s]);
    }
  }

  function Dist(a: int, b: int): (d: nat)
    ensures d == a - b || d == b - a
  {
    if a >= b then a - b else b - a
  }

  /** Index i is the sample closest in time to `target`, and no earlier
      sample is as close. */
  predicate IsClosest(h: seq<Entry>, target: int, i: int) {
    && 0 <= i < |h|
    && (forall j :: 0 <= j < |h| ==> Dist(h[i].t, target) <= Dist(h[j].t, target))
    && (forall j :: 0 <= j < i ==> Dist(h[j].t, target) > Dist(h[i].t, target))
  }

  /** The `bestEntry` scan: a later sample replaces the best one only when it
      is strictly closer. */
  function Closest(h: seq<Entry>, target: int): (i: nat)
    requires |h| > 0
    ensures IsClosest(h, target, i)
  {
    if |h| == 1 then 0
    else
      var init := h[..|h| - 1];
      var b := Closest(init, target);
      assert forall j :: 0 <= j < |init| ==> init[j] == h[j];
      if Dist(h[|h| - 1].t, target) < Dist(h[b].t, target) then |h| - 1 else b
  }

  /** The closest sample is unique. */
  lemma ClosestUnique(h: seq<Entry>, target: int, i: int, k: int)
    requires IsClosest(h, target, i) && IsClosest(h, target, k)
    ensures i == k
  {
    assert Dist(h[i].t, target) <= Dist(h[k].t, target);
    assert Dist(h[k].t, target) <= Dist(h[i].t, target);
  }

  /** `((current - p) / p) * 100`, without the two-decimal rounding. */
  function PercentChange(p: real, current: real): (c: real)
    requires p > 0.0
    ensures c >= 0.0 <==> current >= p
    ensures c == 0.0 <==> current == p
  {
    assert (current - p) / p >= 0.0 <==> current >= p;
    (current - p) / p * 100.0
  }

  /** The one-hour change of a symbol whose log is `h` (None when missing). */
  function HourlyChange(h: Option<seq<Entry>>, current: real, now: int): (r: Option<real>)
    ensures h == None || |h.value| < 2 || current <= 0.0 ==> r == None
    ensures r.Some? ==> h.Some? && |h.value| >= 2 && current > 0.0
  {
    if h == None || |h.value| < 2 || current <= 0.0 then None
    else
      var log := h.value;
      var best := log[Closest(log, now - Hour)];
      if Dist(best.t, now - Hour) < 20 * Minute && best.p > 0.0 then Some(PercentChange(best.p, current))
      else if now - log[0].t >= 5 * Minute && log[0].p > 0.0 then Some(PercentChange(log[0].p, current))
      else None
  }

  /** The one-hour change is measured against the sample closest to one hour
      ago when that one is within 20 minutes of the mark and has a positive
      price; failing that, against the oldest sample, when it is at least 5
      minutes old and positive; and there is none otherwise. */
  lemma HourlyChangeReference(h: seq<Entry>, current: real, now: int, c: int)
    requires |h| >= 2 && current > 0.0
    requires IsClosest(h, now - Hour, c)
    ensures var r := HourlyChange(Some(h), current, now);
      && (Dist(h[c].t, now - Hour) < 20 * Minute && h[c].p > 0.0 ==> r == Some(PercentChange(h[c].p, current)))
      && (!(Dist(h[c].t, now - Hour) < 20 * Minute && h[c].p > 0.0) ==>
            r == if now - h[0].t >= 5 * Minute && h[0].p > 0.0 then Some(PercentChange(h[0].p, current)) else None)
  {
    ClosestUnique(h, now - Hour, c, Closest(h, now - Hour));
  }

  /** Any one-hour change is the change from a recorded positive price
      that is either within 20 minutes of the one-hour mark, or the oldest
      sample and at least 5 minutes old. */
  lemma HourlyChangeFromSample(h: seq<Entry>, current: real, now: int)
    requires HourlyChange(Some(h), current, now).Some?
    ensures exists i ::
      && 0 <= i < |h| && h[i].p > 0.0
      && HourlyChange(Some(h), current, now).value == PercentChange(h[i].p, current)
      && (Dist(h[i].t, now - Hour) < 20 * Minute || (i == 0 && now - h[0].t >= 5 * Minute))
  {
    var c := Closest(h, now - Hour);
    if Dist(h[c].t, now - Hour) < 20 * Minute && h[c].p > 0.0 {
      assert h[c].p > 0.0 && HourlyChange(Some(h), current, now).value == PercentChange(h[c].p, current);
    } else {
      assert h[0].p > 0.0 && HourlyChange(Some(h), current, now).value == PercentChange(h[0].p, current);
    }
  }

  /** `Math.round(age / 60000)` on whole milliseconds: adding half a minute
      and flooring rounds halves up, as Math.round does. */
  function RoundMinutes(age: int): (m: int)
    ensures m * Minute - Minute / 2 <= age < m * Minute + Minute / 2
  {
    (age + Minute / 2) / Minute
  }

  /** The age of a log in whole minutes: 0 for a missing or empty log. */
  function DataAgeMinutes(h: Option<seq<Entry>>, now: int): (m: int)
    ensures h == None || |h.value| == 0 ==> m == 0
    ensures h.Some? && |h.value| > 0 ==> m == RoundMinutes(now - h.value[0].t)
  {
    if h == None || |h.value| == 0 then 0 else RoundMinutes(now - h.value[0].t)
  }

  /** The log a new sample is appended to: the symbol's, or a fresh one. */
  function LogOrEmpty(history: map<string, seq<Entry>>, symbol: string): (h: seq<Entry>)
    ensures symbol in history ==> h == history[symbol]
    ensures symbol !in history ==> h == []
  {
    if symbol in history then history[symbol] else []
  }

  /** One `recordPrice` on the key order and the log. A non-positive price,
      or a sample under 55 s after the last one, changes nothing; otherwise
      the symbol's log becomes Recorded and a new symbol joins the key order
      at its end. No other symbol's log changes. */
  function RecordStep(symbols: seq<string>, history: map<string, seq<Entry>>,
                      symbol: string, price: real, now: int): (r: (seq<string>, map<string, seq<Entry>>))
    ensures var h := LogOrEmpty(history, symbol);
      price <= 0.0 || Throttled(h, now) ==> r == (symbols, history)
    ensures var h := LogOrEmpty(history, symbol);
      !(price <= 0.0 || Throttled(h, now)) ==>
        && symbol in r.1 && r.1[symbol] == Recorded(h, price, now)
        && r.0 == symbols + (if symbol in history then [] else [symbol])
    ensures forall s :: s != symbol ==> Get(r.1, s) == Get(history, s)
    ensures forall s :: s in history ==> s in r.1
    ensures WellFormed(symbols, history) ==> WellFormed(r.0, r.1)
  {
    var h := LogOrEmpty(history, symbol);
    if price <= 0.0 || Throttled(h, now) then (symbols, history)
    else
      var keys := symbols + (if symbol in history then [] else [symbol]);
      assert symbol !in history ==> (set s | s in keys) == (set s | s in symbols) + {symbol};
      (keys, history[symbol := Recorded(h, price, now)])
  }

  /** `forEach(s => recordPrice(s.symbol, s.ltp))` over the stocks whose
      symbol is in `known`, in order. */
  function RecordMatched(symbols: seq<string>, history: map<string, seq<Entry>>,
                         stocks: seq<Stock>, known: set<string>, now: int): (r: (seq<string>, map<string, seq<Entry>>))
    ensures WellFormed(symbols, history) ==> WellFormed(r.0, r.1)
    ensures forall s :: s !in Symbols(stocks) ==> Get(r.1, s) == Get(history, s)
  {
    if stocks == [] then (symbols, history)
    else
      var init := stocks[..|stocks| - 1];
      var last := stocks[|stocks| - 1];
      var prior := RecordMatched(symbols, history, init, known, now);
      assert forall s :: s in Symbols(init) ==> s in Symbols(stocks) by {
        assert forall i :: 0 <= i < |init| ==> Symbols(init)[i] == Symbols(stocks)[i];
      }
      assert Symbols(stocks)[|stocks| - 1] == last.symbol;
      if last.symbol in known then RecordStep(prior.0, prior.1, last.symbol, last.ltp, now) else prior
  }

  class HourlyTracker {
    /** `Object.keys(priceHistory)`: symbols in the order first recorded. */
    var symbols: seq<string>
    var history: map<string, seq<Entry>>
    var lastSaveTime: int

    ghost predicate Valid()
      reads this
    {
      WellFormed(symbols, history)
    }

    /** The tracker starts from the stored snapshot, or empty when there is none. */
    constructor (saved: Option<Snapshot>)
      requires saved.Some? ==> WellFormed(saved.value.symbols, saved.value.log)
      ensures Valid()
      ensures saved.Some? ==> symbols == saved.value.symbols && history == saved.value.log
      ensures saved == None ==> symbols == [] && history == map[]
      ensures lastSaveTime == 0
    {
      lastSaveTime := 0;
      match saved
      case Some(snap) =>
        symbols, history := snap.symbols, snap.log;
      case None =>
        symbols, history := [], map[];
    }

    /** `recordPrice`: a non-positive price is ignored; a sample under 55 s
        after the last one is ignored; otherwise the sample is appended and
        the symbol's log pruned to the last four hours. A symbol seen for
        the first time is added at the end of the key order. */
    method RecordPrice(symbol: string, price: real, now: int)
      requires Valid()
      modifies this
      ensures Valid() && lastSaveTime == old(lastSaveTime)
      ensures (symbols, history) == RecordStep(old(symbols), old(history), symbol, price, now)
    {
      if price <= 0.0 {
        return;
      }
      var h: seq<Entry> := [];
      if symbol in history {
        h := history[symbol];
      }
      if |h| > 0 && now - h[|h| - 1].t < RecordInterval {
        return;
      }
      if symbol !in history {
        symbols := symbols + [symbol];
      } else {
        assert symbols + [] == symbols;
      }
      history := history[symbol := Recorded(h, price, now)];
    }

    /** `saveToStorage`: at most once every 30 s; a save stores the first 250
        symbols, each with its last 80 samples. The log itself is kept whole. */
    method SaveToStorage(now: int) returns (snap: Option<Snapshot>)
      requires Valid()
      modifies this
      ensures Valid() && history == old(history) && symbols == old(symbols)
      ensures now - old(lastSaveTime) < SaveInterval ==> snap == None && lastSaveTime == old(lastSaveTime)
      ensures now - old(lastSaveTime) >= SaveInterval ==>
        lastSaveTime == now &&
        snap == Some(Snapshot(SavedSymbols(symbols), Trimmed(SavedSymbols(symbols), history)))
    {
      if now - lastSaveTime < SaveInterval {
        return None;
      }
      lastSaveTime := now;
      var keys := SavedSymbols(symbols);
      var trimmed := TrimLogs(keys, history);
      snap := Some(Snapshot(keys, trimmed));
    }

    /** `getHourlyChange`: the closest-sample scan, then the fallbacks. */
    method GetHourlyChange(symbol: string, current: real, now: int) returns (r: Option<real>)
      ensures r == HourlyChange(Get(history, symbol), current, now)
    {
      if symbol !in history || |history[symbol]| < 2 || current <= 0.0 {
        return None;
      }
      var h := history[symbol];
      var best, bestDiff := ClosestSample(h, now - Hour);
      if bestDiff < 20 * Minute && h[best].p > 0.0 {
        return Some(PercentChange(h[best].p, current));
      }
      if now - h[0].t >= 5 * Minute && h[0].p > 0.0 {
        return Some(PercentChange(h[0].p, current));
      }
      return None;
    }

    method GetDataAgeMinutes(symbol: string, now: int) returns (m: int)
      ensures m == DataAgeMinutes(Get(history, symbol), now)
    {
      if symbol !in history || |history[symbol]| == 0 {
        return 0;
      }
      m := RoundMinutes(now - history[symbol][0].t);
    }
  }

  /** The `symbols.forEach` loop that fills the trimmed object. */
  method TrimLogs(keys: seq<string>, log: map<string, seq<Entry>>) returns (trimmed: map<string, seq<Entry>>)
    requires forall s :: s in keys ==> s in log
    ensures trimmed == Trimmed(keys, log)
  {
    trimmed := map[];
    for k := 0 to |keys|
      invariant trimmed == Trimmed(keys[..k], log)
    {
      TrimmedStep(keys, log, k);
      trimmed := trimmed[keys[k] := LastEntries(log[keys[k]])];
    }
    assert keys[..|keys|] == keys;
  }

  /** One more key of the loop adds its trimmed log. */
  lemma TrimmedStep(keys: seq<string>, log: map<string, seq<Entry>>, k: int)
    requires forall s :: s in keys ==> s in log
    requires 0 <= k < |keys|
    ensures forall s :: s in keys[..k + 1] ==> s in log
    ensures Trimmed(keys[..k + 1], log) == Trimmed(keys[..k], log)[keys[k] := LastEntries(log[keys[k]])]
  {
    var next := keys[..k + 1];
    assert next[..k] == keys[..k] && next[k] == keys[k];
  }

  /** The `for (const entry of history)` scan for the sample closest to
      `target`, with its distance. */
  method ClosestSample(h: seq<Entry>, target: int) returns (best: nat, bestDiff: nat)
    requires |h| > 0
    ensures best == Closest(h, target) && bestDiff == Dist(h[best].t, target)
  {
    best, bestDiff := 0, Dist(h[0].t, target);
    var k := 1;
    while k < |h|
      invariant 1 <= k <= |h|
      invariant best == Closest(h[..k], target) && bestDiff == Dist(h[best].t, target)
    {
      assert h[..k + 1][..k] == h[..k];
      var diff := Dist(h[k].t, target);
      if diff < bestDiff {
        best, bestDiff := k, diff;
      }
      k := k + 1;
    }
    assert h[..k] == h;
  }

  /** A recorded sample is never under 55 s after the previous one, so a log
      grown only by RecordPrice keeps strictly increasing times. */
  lemma RecordKeepsOrder(h: seq<Entry>, price: real, now: int)
    requires Increasing(h) && !Throttled(h, now)
    ensures Increasing(Recorded(h, price, now))
  {
    var appended := h + [Entry(price, now)];
    assert Increasing(appended);
    PruneIncreasing(appended, now - Retention);
  }

  /** The weekly estimate made from a stock's own changes `m1 / 4.3`, else
      `d1 * 3`, else 0 (a missing horizon reads as 0). */
  function Estimate(s: Stock): (w: real)
    ensures ChangeAt(s, M1) != 0.0 ==> w == ChangeAt(s, M1) / 4.3
    ensures ChangeAt(s, M1) == 0.0 && ChangeAt(s, D1) != 0.0 ==> w == ChangeAt(s, D1) * 3.0
    ensures ChangeAt(s, M1) == 0.0 && ChangeAt(s, D1) == 0.0 ==> w == 0.0
  {
    if ChangeAt(s, M1) != 0.0 then ChangeAt(s, M1) / 4.3
    else if ChangeAt(s, D1) != 0.0 then ChangeAt(s, D1) * 3.0
    else 0.0
  }

  /** `stocks.filter(s => s.ltp > 0).slice(0, 80)`: the stocks tried on the
      historical endpoint. */
  function TopStocks(stocks: seq<Stock>): (top: seq<Stock>)
    ensures var priced := Priced(stocks);
      top <= priced && |top| == if |priced| <= 80 then |priced| else 80
    ensures forall s :: s in top ==> s in stocks && s.ltp > 0.0
  {
    var priced := Priced(stocks);
    assert |priced| > 80 ==> forall s :: s in priced[..80] ==> s in priced;
    if |priced| <= 80 then priced else priced[..80]
  }

  /** `stocks.filter(s => s.ltp > 0)`: the priced stocks, in order. */
  function Priced(stocks: seq<Stock>): (r: seq<Stock>)
    ensures forall s :: s in r <==> s in stocks && s.ltp > 0.0
  {
    Filter(stocks, (s: Stock) => s.ltp > 0.0)
  }

  /** Index i is the first stock with its symbol. */
  predicate FirstOccurrence(stocks: seq<Stock>, i: int)
    requires 0 <= i < |stocks|
  {
    forall j :: 0 <= j < i ==> stocks[j].symbol != stocks[i].symbol
  }

  /** With distinct symbols every index is a first occurrence. */
  lemma DistinctIsFirst(stocks: seq<Stock>, i: int)
    requires Distinct(Symbols(stocks)) && 0 <= i < |stocks|
    ensures FirstOccurrence(stocks, i)
  {
    if !FirstOccurrence(stocks, i) {
      assert false;
    }
  }

  /** The weekly change of the stock at index i (a first occurrence): the
      historical value when the stock was tried and the endpoint answered,
      the estimate otherwise. */
  function WeeklyValue(stocks: seq<Stock>, historical: map<string, real>, i: int): (w: real)
    requires 0 <= i < |stocks|
  {
    var sym := stocks[i].symbol;
    if sym in Symbols(TopStocks(stocks)) && sym in historical then historical[sym] else Estimate(stocks[i])
  }

  /** Step 1 of the weekly computation: the answers of the historical
      endpoint for the top stocks (`historical` holds an answer, by symbol,
      for every symbol the endpoint answers for). */
  method FetchedChanges(top: seq<Stock>, historical: map<string, real>) returns (weekly: map<string, real>)
    ensures forall s :: s in weekly <==> s in Symbols(top) && s in historical
    ensures forall s :: s in weekly ==> weekly[s] == historical[s]
  {
    var syms := Symbols(top);
    weekly := map[];
    for k := 0 to |top|
      invariant forall s :: s in weekly <==> s in syms[..k] && s in historical
      invariant forall s :: s in weekly ==> weekly[s] == historical[s]
    {
      assert syms[..k + 1] == syms[..k] + [top[k].symbol];
      if top[k].symbol in historical {
        weekly := weekly[top[k].symbol := historical[top[k].symbol]];
      }
    }
    assert syms[..|top|] == syms;
  }

  /** Step 2: every stock still without a value gets the estimate; a
      repeated symbol keeps the value of its first occurrence. */
  method FillEstimates(stocks: seq<Stock>, fetched: map<string, real>) returns (weekly: map<string, real>)
    ensures forall s :: s in weekly <==> s in fetched || s in Symbols(stocks)
    ensures forall i :: 0 <= i < |stocks| ==> stocks[i].symbol in weekly
    ensures forall s :: s in fetched ==> weekly[s] == fetched[s]
    ensures forall i :: 0 <= i < |stocks| && FirstOccurrence(stocks, i) && stocks[i].symbol !in fetched ==>
      weekly[stocks[i].symbol] == Estimate(stocks[i])
  {
    weekly := fetched;
    for k := 0 to |stocks|
      invariant FilledUpTo(stocks, fetched, k, weekly)
    {
      if stocks[k].symbol !in weekly {
        FillAdd(stocks, fetched, k, weekly);
        weekly := weekly[stocks[k].symbol := Estimate(stocks[k])];
      } else {
        FillKeep(stocks, fetched, k, weekly);
      }
    }
    forall s | s in weekly && s !in fetched ensures s in Symbols(stocks) {
      var j :| 0 <= j < |stocks| && stocks[j].symbol == s;
      assert Symbols(stocks)[j] == s;
    }
    forall s | s in Symbols(stocks) ensures s in weekly {
      var j :| 0 <= j < |stocks| && Symbols(stocks)[j] == s;
    }
  }

  /** The loop invariant of FillEstimates after the first k stocks: the
      fetched values are kept, the first k stocks have a value, any other
      key is one of their symbols, and each first occurrence among them
      that was not fetched has its estimate. */
  ghost predicate FilledUpTo(stocks: seq<Stock>, fetched: map<string, real>, k: int, weekly: map<string, real>)
    requires 0 <= k <= |stocks|
  {
    && (forall s :: s in fetched ==> s in weekly && weekly[s] == fetched[s])
    && (forall i :: 0 <= i < k ==> stocks[i].symbol in weekly)
    && (forall s :: s in weekly && s !in fetched ==> exists j :: 0 <= j < k && stocks[j].symbol == s)
    && (forall i :: 0 <= i < k && FirstOccurrence(stocks, i) && stocks[i].symbol !in fetched ==>
          weekly[stocks[i].symbol] == Estimate(stocks[i]))
  }

  /** A symbol already present is fetched or was seen earlier, so stock k
      is no first occurrence of an unfetched symbol. */
  lemma FillKeep(stocks: seq<Stock>, fetched: map<string, real>, k: int, weekly: map<string, real>)
    requires 0 <= k < |stocks| && FilledUpTo(stocks, fetched, k, weekly)
    requires stocks[k].symbol in weekly
    ensures FilledUpTo(stocks, fetched, k + 1, weekly)
  {
    var sym := stocks[k].symbol;
    if sym !in fetched {
      var j :| 0 <= j < k && stocks[j].symbol == sym;
      assert !FirstOccurrence(stocks, k);
    }
  }

  /** A new symbol gets the estimate; every other entry is unchanged. */
  lemma FillAdd(stocks: seq<Stock>, fetched: map<string, real>, k: int, weekly: map<string, real>)
    requires 0 <= k < |stocks| && FilledUpTo(stocks, fetched, k, weekly)
    requires stocks[k].symbol !in weekly
    ensures FilledUpTo(stocks, fetched, k + 1, weekly[stocks[k].symbol := Estimate(stocks[k])])
  {
  }

  lemma TopSymbolsListed(stocks: seq<Stock>, s: string)
    requires s in Symbols(TopStocks(stocks))
    ensures s in Symbols(stocks)
  {
    var top := TopStocks(stocks);
    var i :| 0 <= i < |top| && Symbols(top)[i] == s;
    assert top[i] in stocks;
    var j :| 0 <= j < |stocks| && stocks[j] == top[i];
    assert Symbols(stocks)[j] == s;
  }

  /** The weekly changes: every input symbol gets a value; a top stock the
      historical endpoint answered for keeps that answer, and every other
      stock gets the estimate of its first occurrence. The batching, the
      network and the cache are not modelled. */
  method WeeklyChanges(stocks: seq<Stock>, historical: map<string, real>) returns (weekly: map<string, real>)
    ensures forall s :: s in weekly <==> s in Symbols(stocks)
    ensures forall i :: 0 <= i < |stocks| ==> stocks[i].symbol in weekly
    ensures forall i :: 0 <= i < |stocks| && FirstOccurrence(stocks, i) ==>
      weekly[stocks[i].symbol] == WeeklyValue(stocks, historical, i)
  {
    var fetched := FetchedChanges(TopStocks(stocks), historical);
    forall s | s in fetched ensures s in Symbols(stocks) {
      TopSymbolsListed(stocks, s);
    }
    weekly := FillEstimates(stocks, fetched);
  }
}
