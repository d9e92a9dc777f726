/**
 * Provider adapters: total functions that turn one upstream JSON shape (Finnhub
 * quote or candle arrays, Alpha Vantage global quote or keyed time series) into
 * a list of candles, dropping malformed rows instead of failing.
 */
module Adapters {
  import opened JsValues

  /**
   * One OHLCV data point. `time` is whatever value the adapter stored: the raw
   * Finnhub timestamp, or a number it computed. The prices come from unary `+`
   * and are not promised to be finite.
   */
  datatype Candle = Candle(time: J, open: Num, high: Num, low: Num, close: Num, volume: Option<Num>)

  /** `isFiniteNum(n)`: a string whose `parseFloat` is finite, or a finite number. */
  predicate IsFiniteNum(conv: Conv, n: Option<J>) {
    match n
    case Some(JStr(s)) => conv.parseFloat(s).Fin?
    case Some(JNum(x)) => x.Fin?
    case _ => false
  }

  /** `+x` */
  function Plus(conv: Conv, x: Option<J>): Num {
    ToNumber(conv, x)
  }

  /** All four prices pass `isFiniteNum`. */
  predicate AllFinite(conv: Conv, o: Option<J>, h: Option<J>, l: Option<J>, c: Option<J>) {
    IsFiniteNum(conv, o) && IsFiniteNum(conv, h) && IsFiniteNum(conv, l) && IsFiniteNum(conv, c)
  }

  /** `isFiniteNum(v) ? +v : undefined` */
  function OptionalVolume(conv: Conv, v: Option<J>): (r: Option<Num>)
    ensures r.Some? <==> IsFiniteNum(conv, v)
  {
    if IsFiniteNum(conv, v) then Some(Plus(conv, v)) else None
  }

  /** `x?.[key]`: undefined on null. */
  function Member(x: J, key: string): Option<J> {
    Prop(x, key)
  }

  /** `x?.[key]` on a value that may be undefined. */
  function OptMember(x: Option<J>, key: string): Option<J> {
    if x.None? then None else Prop(x.value, key)
  }

  // ---------------------------------------------------------------- sorting by time

  /**
   * The order the comparator `a.time - b.time` induces on converted times:
   * -Infinity < finite (by value) < +Infinity. NaN compares "equal" to
   * everything in the comparator; here it is placed last, which is one of the
   * orders a conforming sort may produce.
   */
  function Rank(n: Num): int {
    match n
    case NegInf => 0
    case Fin(_) => 1
    case PosInf => 2
    case NaN => 3
  }

  predicate NumLe(a: Num, b: Num) {
    Rank(a) < Rank(b) || (Rank(a) == Rank(b) && (a.Fin? ==> a.r <= b.r))
  }

  /** The number the comparator reads from a candle's time. */
  function TimeKey(conv: Conv, c: Candle): Num {
    ToNumber(conv, Some(c.time))
  }

  predicate SortedByTime(conv: Conv, cs: seq<Candle>) {
    forall i, j :: 0 <= i < j < |cs| ==> NumLe(TimeKey(conv, cs[i]), TimeKey(conv, cs[j]))
  }

  /** The comparator's order is total: of two keys, one is not later than the other. */
  lemma NumLeTotal(a: Num, b: Num)
    ensures NumLe(a, b) || NumLe(b, a)
  {
  }

  /** Every candle of `cs` is at or after `b`. */
  predicate AtOrAfter(conv: Conv, b: Num, cs: seq<Candle>) {
    forall k :: 0 <= k < |cs| ==> NumLe(b, TimeKey(conv, cs[k]))
  }

  /** Puts `c` in front of the first candle that is not earlier than it. */
  function Insert(conv: Conv, c: Candle, cs: seq<Candle>): (r: seq<Candle>)
    ensures multiset(r) == multiset(cs) + multiset{c}
    ensures |r| == |cs| + 1
  {
    if cs == [] || NumLe(TimeKey(conv, c), TimeKey(conv, cs[0])) then
      [c] + cs
    else
      assert cs == [cs[0]] + cs[1..];
      [cs[0]] + Insert(conv, c, cs[1..])
  }

  /** A lower bound of `c` and of all of `cs` bounds the insertion too. */
  lemma {:induction false} InsertAtOrAfter(conv: Conv, b: Num, c: Candle, cs: seq<Candle>)
    requires AtOrAfter(conv, b, cs) && NumLe(b, TimeKey(conv, c))
    ensures AtOrAfter(conv, b, Insert(conv, c, cs))
  {
    if cs != [] && !NumLe(TimeKey(conv, c), TimeKey(conv, cs[0])) {
      InsertAtOrAfter(conv, b, c, cs[1..]);
    }
  }

  /** Inserting into a sorted sequence keeps it sorted. */
  lemma {:induction false} InsertSorted(conv: Conv, c: Candle, cs: seq<Candle>)
    requires SortedByTime(conv, cs)
    ensures SortedByTime(conv, Insert(conv, c, cs))
  {
    if cs == [] || NumLe(TimeKey(conv, c), TimeKey(conv, cs[0])) {
      var r := [c] + cs;
      forall i, j | 0 <= i < j < |r| ensures NumLe(TimeKey(conv, r[i]), TimeKey(conv, r[j])) {
        if i == 0 {
          assert AtOrAfter(conv, TimeKey(conv, cs[0]), cs);
        }
      }
    } else {
      var head := cs[0];
      var rest := Insert(conv, c, cs[1..]);
      InsertSorted(conv, c, cs[1..]);
      NumLeTotal(TimeKey(conv, c), TimeKey(conv, head));
      assert AtOrAfter(conv, TimeKey(conv, head), cs[1..]);
      InsertAtOrAfter(conv, TimeKey(conv, head), c, cs[1..]);
      var r := [head] + rest;
      assert Insert(conv, c, cs) == r;
      forall i, j | 0 <= i < j < |r| ensures NumLe(TimeKey(conv, r[i]), TimeKey(conv, r[j])) {
        if i == 0 {
          assert r[j] == rest[j - 1];
        } else {
          assert r[i] == rest[i - 1] && r[j] == rest[j - 1];
        }
      }
    }
  }

  /** `rows.sort((a, b) => a.time - b.time)`: an insertion sort by converted time. */
  function SortByTime(conv: Conv, cs: seq<Candle>): (r: seq<Candle>)
    ensures multiset(r) == multiset(cs)
    ensures |r| == |cs|
    ensures SortedByTime(conv, r)
  {
    if cs == [] then []
    else
      assert cs == [cs[0]] + cs[1..];
      var rest := SortByTime(conv, cs[1..]);
      InsertSorted(conv, cs[0], rest);
      Insert(conv, cs[0], rest)
  }

  /** Every candle's time converts to a finite number, and those numbers never decrease. */
  predicate FiniteAscending(conv: Conv, cs: seq<Candle>) {
    forall i, j :: 0 <= i < j < |cs| ==>
      TimeKey(conv, cs[i]).Fin? && TimeKey(conv, cs[j]).Fin? && TimeKey(conv, cs[i]).r <= TimeKey(conv, cs[j]).r
  }

  /** Candles whose times are all finite numbers are sorted into ascending time. */
  lemma SortedFiniteAscending(conv: Conv, cs: seq<Candle>)
    requires forall x :: x in cs ==> x.time.JNum? && x.time.n.Fin?
    ensures FiniteAscending(conv, SortByTime(conv, cs))
  {
    var r := SortByTime(conv, cs);
    forall x | x in r ensures TimeKey(conv, x).Fin? {
      assert x in multiset(cs);
    }
  }

  /** `ms / 1000`: a clock reading in milliseconds, in seconds. */
  function Seconds(ms: int): (r: real)
    ensures r * 1000.0 == ms as real
  {
    ms as real / 1000.0
  }

  /** `Math.floor(ms / 1000)`: the whole second a clock reading falls in. */
  function WholeSeconds(ms: int): (r: int)
    ensures r * 1000 <= ms < r * 1000 + 1000
  {
    ms / 1000
  }

  // ---------------------------------------------------------------- Alpha Vantage GLOBAL_QUOTE

  /** `adaptAlphaVantageGlobalQuote(json)`; `nowMs` is the clock reading used when no trading day is given. */
  function AlphaVantageGlobalQuote(conv: Conv, json: J, nowMs: int): (r: seq<Candle>)
    ensures |r| <= 1
  {
    var quote := Member(json, "Global Quote");
    if !Present(quote) || !(quote.value.JObj? || quote.value.JArr?) then []
    else
      var q := quote.value;
      var o, h, l, c := Member(q, "02. open"), Member(q, "03. high"), Member(q, "04. low"), Member(q, "05. price");
      var v, day := Member(q, "06. volume"), Member(q, "07. latest trading day");
      if !AllFinite(conv, o, h, l, c) then []
      else
        var t := if Present(day) then conv.dateParse(ToJsString(conv, day.value)) else Some(nowMs);
        if t.None? then []
        else [Candle(JNum(Fin(WholeSeconds(t.value) as real)), Plus(conv, o), Plus(conv, h), Plus(conv, l), Plus(conv, c),
                     OptionalVolume(conv, v))]
  }

  /** The global-quote adapter rejects exactly the malformed cases. */
  lemma GlobalQuoteEmptyIff(conv: Conv, json: J, nowMs: int)
    ensures var quote := Member(json, "Global Quote");
      AlphaVantageGlobalQuote(conv, json, nowMs) == [] <==>
        || !Present(quote)
        || !(quote.value.JObj? || quote.value.JArr?)
        || !AllFinite(conv, Member(quote.value, "02. open"), Member(quote.value, "03. high"),
                      Member(quote.value, "04. low"), Member(quote.value, "05. price"))
        || (Present(Member(quote.value, "07. latest trading day"))
            && conv.dateParse(ToJsString(conv, Member(quote.value, "07. latest trading day").value)).None?)
  {
  }

  /** The quote's candle carries the converted prices, and its time is the trading day in whole seconds. */
  lemma GlobalQuoteCandle(conv: Conv, json: J, nowMs: int)
    requires AlphaVantageGlobalQuote(conv, json, nowMs) != []
    ensures var q := Member(json, "Global Quote").value;
      var c := AlphaVantageGlobalQuote(conv, json, nowMs)[0];
      && c.open == Plus(conv, Member(q, "02. open")) && c.high == Plus(conv, Member(q, "03. high"))
      && c.low == Plus(conv, Member(q, "04. low")) && c.close == Plus(conv, Member(q, "05. price"))
      && (c.volume.Some? <==> IsFiniteNum(conv, Member(q, "06. volume")))
      && c.time.JNum? && c.time.n.Fin?
      && (!Present(Member(q, "07. latest trading day")) ==> c.time == JNum(Fin(WholeSeconds(nowMs) as real)))
      && (Present(Member(q, "07. latest trading day")) ==>
            c.time == JNum(Fin(WholeSeconds(conv.dateParse(ToJsString(conv, Member(q, "07. latest trading day").value)).value) as real)))
  {
  }

  // ---------------------------------------------------------------- Alpha Vantage time series

  /** The container keys tried, in order. */
  const SeriesKeys := ["Time Series (Daily)", "Time Series (Digital Currency Daily)", "Time Series (5min)",
                       "Time Series (60min)", "Weekly Time Series", "Monthly Time Series"]

  /** `json?.[k0] || json?.[k1] || ...`: the first truthy member, else the last one read. */
  function FirstTruthy(json: J, keys: seq<string>): (r: Option<J>)
    requires keys != []
    ensures Present(r) <==> exists i :: 0 <= i < |keys| && Present(Member(json, keys[i]))
    ensures Present(r) ==> exists i :: 0 <= i < |keys| && r == Member(json, keys[i])
                             && forall j :: 0 <= j < i ==> !Present(Member(json, keys[j]))
  {
    if |keys| == 1 || Present(Member(json, keys[0])) then Member(json, keys[0])
    else
      var r := FirstTruthy(json, keys[1..]);
      assert forall i :: 1 <= i < |keys| ==> keys[i] == keys[1..][i - 1];
      r
  }

  /** `row?.[numbered] ?? row?.[plain]` */
  function RowField(row: J, numbered: string, plain: string): Option<J> {
    Coalesce(Member(row, numbered), Member(row, plain))
  }

  /** The candle of one date entry, or nothing when a price or the date is unusable. */
  function DailyRow(conv: Conv, date: string, row: J): (r: Option<Candle>)
    ensures r.Some? <==>
      AllFinite(conv, RowField(row, "1. open", "open"), RowField(row, "2. high", "high"),
                RowField(row, "3. low", "low"), RowField(row, "4. close", "close"))
      && conv.dateParse(date).Some?
    ensures r.Some? ==>
      && r.value.time == JNum(Fin(Seconds(conv.dateParse(date).value)))
      && r.value.open == Plus(conv, RowField(row, "1. open", "open"))
      && r.value.high == Plus(conv, RowField(row, "2. high", "high"))
      && r.value.low == Plus(conv, RowField(row, "3. low", "low"))
      && r.value.close == Plus(conv, RowField(row, "4. close", "close"))
      && r.value.volume == OptionalVolume(conv, RowField(row, "5. volume", "volume"))
  {
    var o := RowField(row, "1. open", "open");
    var h := RowField(row, "2. high", "high");
    var l := RowField(row, "3. low", "low");
    var c := RowField(row, "4. close", "close");
    var v := RowField(row, "5. volume", "volume");
    var t := conv.dateParse(date);
    if !AllFinite(conv, o, h, l, c) || t.None? then None
    else Some(Candle(JNum(Fin(Seconds(t.value))), Plus(conv, o), Plus(conv, h), Plus(conv, l),
                     Plus(conv, c), OptionalVolume(conv, v)))
  }

  /** Entry positions that make a candle. */
  predicate DailyRowKept(conv: Conv, e: (string, J)) {
    DailyRow(conv, e.0, e.1).Some?
  }

  function CountKept(conv: Conv, es: seq<(string, J)>): nat {
    if es == [] then 0 else (if DailyRowKept(conv, es[0]) then 1 else 0) + CountKept(conv, es[1..])
  }

  /** The candles of the usable entries, in entry order. */
  function DailyRows(conv: Conv, es: seq<(string, J)>): (r: seq<Candle>)
    ensures |r| == CountKept(conv, es) && |r| <= |es|
    ensures forall x :: x in r ==> x.time.JNum? && x.time.n.Fin?
  {
    if es == [] then []
    else
      var c := DailyRow(conv, es[0].0, es[0].1);
      (if c.Some? then [c.value] else []) + DailyRows(conv, es[1..])
  }

  /** The series container `adaptAlphaVantageDaily` settles on. */
  function DailySeries(json: J): Option<J> {
    FirstTruthy(json, SeriesKeys)
  }

  /** `adaptAlphaVantageDaily(json)` */
  function AlphaVantageDaily(conv: Conv, json: J): (r: seq<Candle>)
    ensures var s := DailySeries(json);
      !Present(s) || !(s.value.JObj? || s.value.JArr?) ==> r == []
  {
    var series := DailySeries(json);
    if !Present(series) || !(series.value.JObj? || series.value.JArr?) then []
    else SortByTime(conv, DailyRows(conv, Entries(series.value)))
  }

  /**
   * The daily adapter keeps one candle per usable date entry, no more than there
   * are entries, in ascending numeric time.
   */
  lemma DailyShape(conv: Conv, json: J)
    requires Present(DailySeries(json)) && (DailySeries(json).value.JObj? || DailySeries(json).value.JArr?)
    ensures var es := Entries(DailySeries(json).value);
      var r := AlphaVantageDaily(conv, json);
      && |r| == CountKept(conv, es) && |r| <= |es|
      && multiset(r) == multiset(DailyRows(conv, es))
      && FiniteAscending(conv, r)
  {
    var es := Entries(DailySeries(json).value);
    assert AlphaVantageDaily(conv, json) == SortByTime(conv, DailyRows(conv, es));
    SortedFiniteAscending(conv, DailyRows(conv, es));
  }

  // ---------------------------------------------------------------- Finnhub candles

  /** The candle of index `i` of the parallel arrays, or nothing when a price is unusable. */
  function CandleAt(conv: Conv, t: seq<J>, o: seq<J>, h: seq<J>, l: seq<J>, c: seq<J>, v: Option<J>, i: nat): (r: Option<Candle>)
    requires i < |t|
    ensures r.Some? <==> AllFinite(conv, Index(JArr(o), i), Index(JArr(h), i), Index(JArr(l), i), Index(JArr(c), i))
    ensures r.Some? ==> r.value.time == t[i]
    ensures r.Some? ==>
      && r.value.open == Plus(conv, Index(JArr(o), i)) && r.value.high == Plus(conv, Index(JArr(h), i))
      && r.value.low == Plus(conv, Index(JArr(l), i)) && r.value.close == Plus(conv, Index(JArr(c), i))
      && r.value.volume == OptionalVolume(conv, if v.Some? && v.value.JArr? then Index(v.value, i) else None)
  {
    var open, high, low, close := Index(JArr(o), i), Index(JArr(h), i), Index(JArr(l), i), Index(JArr(c), i);
    var volume := if v.Some? && v.value.JArr? then Index(v.value, i) else None;
    if !AllFinite(conv, open, high, low, close) then None
    else Some(Candle(t[i], Plus(conv, open), Plus(conv, high), Plus(conv, low), Plus(conv, close),
                     OptionalVolume(conv, volume)))
  }

  /** Indices in `[i, |t|)` whose four prices all pass `isFiniteNum`. */
  function CountFinite(conv: Conv, t: seq<J>, o: seq<J>, h: seq<J>, l: seq<J>, c: seq<J>, i: nat): nat
    requires i <= |t|
    decreases |t| - i
  {
    if i == |t| then 0
    else
      (if AllFinite(conv, Index(JArr(o), i), Index(JArr(h), i), Index(JArr(l), i), Index(JArr(c), i)) then 1 else 0)
      + CountFinite(conv, t, o, h, l, c, i + 1)
  }

  /** The candles of indices `i` onward, in index order. */
  function CandlesFrom(conv: Conv, t: seq<J>, o: seq<J>, h: seq<J>, l: seq<J>, c: seq<J>, v: Option<J>, i: nat): (r: seq<Candle>)
    requires i <= |t|
    ensures |r| == CountFinite(conv, t, o, h, l, c, i) && |r| <= |t| - i
    ensures v.None? || !v.value.JArr? ==> forall x :: x in r ==> x.volume.None?
    decreases |t| - i
  {
    if i == |t| then []
    else
      var x := CandleAt(conv, t, o, h, l, c, v, i);
      (if x.Some? then [x.value] else []) + CandlesFrom(conv, t, o, h, l, c, v, i + 1)
  }

  /** `t`, `o`, `h`, `l` and `c` are all arrays. */
  predicate HasCandleArrays(json: J) {
    && Member(json, "t").Some? && Member(json, "t").value.JArr?
    && Member(json, "o").Some? && Member(json, "o").value.JArr?
    && Member(json, "h").Some? && Member(json, "h").value.JArr?
    && Member(json, "l").Some? && Member(json, "l").value.JArr?
    && Member(json, "c").Some? && Member(json, "c").value.JArr?
  }

  /** `adaptFinnhubCandle(json)` */
  function FinnhubCandle(conv: Conv, json: J): (r: seq<Candle>)
    ensures !HasCandleArrays(json) ==> r == []
  {
    if !HasCandleArrays(json) then []
    else
      var t := Member(json, "t").value.items;
      SortByTime(conv, CandlesFrom(conv, t, Member(json, "o").value.items, Member(json, "h").value.items,
                                   Member(json, "l").value.items, Member(json, "c").value.items,
                                   Member(json, "v"), 0))
  }

  /** Every candle's time is one of the timestamps. */
  lemma {:induction false} CandlesFromTimes(conv: Conv, t: seq<J>, o: seq<J>, h: seq<J>, l: seq<J>, c: seq<J>, v: Option<J>, i: nat)
    requires i <= |t|
    ensures forall x :: x in CandlesFrom(conv, t, o, h, l, c, v, i) ==> x.time in t
    decreases |t| - i
  {
    if i < |t| {
      CandlesFromTimes(conv, t, o, h, l, c, v, i + 1);
      assert t[i] in t;
    }
  }

  /**
   * A candle per index whose prices pass `isFiniteNum` (none substituted), no
   * more than there are timestamps, sorted by time, each stamped with one of the
   * given timestamps, and without volume when `v` is not an array.
   */
  lemma FinnhubCandleShape(conv: Conv, json: J)
    requires HasCandleArrays(json)
    ensures var t := Member(json, "t").value.items;
      var r := FinnhubCandle(conv, json);
      && |r| == CountFinite(conv, t, Member(json, "o").value.items, Member(json, "h").value.items,
                            Member(json, "l").value.items, Member(json, "c").value.items, 0)
      && |r| <= |t|
      && multiset(r) == multiset(CandlesFrom(conv, t, Member(json, "o").value.items, Member(json, "h").value.items,
                                             Member(json, "l").value.items, Member(json, "c").value.items,
                                             Member(json, "v"), 0))
      && SortedByTime(conv, r)
      && (forall x :: x in r ==> x.time in t)
      && (Member(json, "v").None? || !Member(json, "v").value.JArr? ==> forall x :: x in r ==> x.volume.None?)
  {
    var t, o, h, l, c, v := Member(json, "t").value.items, Member(json, "o").value.items, Member(json, "h").value.items,
                            Member(json, "l").value.items, Member(json, "c").value.items, Member(json, "v");
    var rows := CandlesFrom(conv, t, o, h, l, c, v, 0);
    var r := FinnhubCandle(conv, json);
    assert r == SortByTime(conv, rows);
    CandlesFromTimes(conv, t, o, h, l, c, v, 0);
    forall x | x in r ensures x in rows {
      assert x in multiset(r);
    }
  }

  // ---------------------------------------------------------------- Finnhub quote

  /** `adaptFinnhubQuote(json)`; `nowMs` is the clock reading used when `t` is not finite. */
  function FinnhubQuote(conv: Conv, json: J, nowMs: int): (r: seq<Candle>)
    ensures |r| <= 1
  {
    var c, h, l, o, t := Member(json, "c"), Member(json, "h"), Member(json, "l"), Member(json, "o"), Member(json, "t");
    if !AllFinite(conv, o, h, l, c) then []
    else
      var ts := if Plus(conv, t).Fin? then Plus(conv, t) else Fin(WholeSeconds(nowMs) as real);
      [Candle(JNum(ts), Plus(conv, o), Plus(conv, h), Plus(conv, l), Plus(conv, c), None)]
  }

  /**
   * The quote adapter is empty exactly when a price fails `isFiniteNum`; otherwise
   * its one candle has no volume and is stamped with `+t` when finite, else the
   * current second.
   */
  lemma FinnhubQuoteShape(conv: Conv, json: J, nowMs: int)
    ensures var o, h, l, c := Member(json, "o"), Member(json, "h"), Member(json, "l"), Member(json, "c");
      var r := FinnhubQuote(conv, json, nowMs);
      && (r == [] <==> !AllFinite(conv, o, h, l, c))
      && (r != [] ==> |r| == 1 && r[0].volume.None?
                      && r[0].open == Plus(conv, o) && r[0].high == Plus(conv, h)
                      && r[0].low == Plus(conv, l) && r[0].close == Plus(conv, c)
                      && (Plus(conv, Member(json, "t")).Fin? ==> r[0].time == JNum(Plus(conv, Member(json, "t"))))
                      && (!Plus(conv, Member(json, "t")).Fin? ==> r[0].time == JNum(Fin(WholeSeconds(nowMs) as real))))
  {
  }

  /**
   * `isFiniteNum` reads a price with `parseFloat`, the candle stores `+price`:
   * where the two conversions disagree (a string with trailing text) the quote is
   * accepted and its open is NaN.
   */
  lemma AcceptedPriceMayBeNaN(conv: Conv, nowMs: int)
    requires conv.parseFloat("12abc") == Fin(12.0) && conv.number("12abc") == NaN
    ensures var json := JObj([("o", JStr("12abc")), ("h", JNum(Fin(13.0))), ("l", JNum(Fin(11.0))), ("c", JNum(Fin(12.5)))]);
      IsFiniteNum(conv, Member(json, "o"))
      && |FinnhubQuote(conv, json, nowMs)| == 1 && FinnhubQuote(conv, json, nowMs)[0].open == NaN
  {
    var json := JObj([("o", JStr("12abc")), ("h", JNum(Fin(13.0))), ("l", JNum(Fin(11.0))), ("c", JNum(Fin(12.5)))]);
    var o, h, l, c := Member(json, "o"), Member(json, "h"), Member(json, "l"), Member(json, "c");
    assert o == Some(JStr("12abc"));
    assert h == Some(JNum(Fin(13.0))) && l == Some(JNum(Fin(11.0))) && c == Some(JNum(Fin(12.5)));
    assert AllFinite(conv, o, h, l, c);
    assert Plus(conv, o) == NaN;
    FinnhubQuoteShape(conv, json, nowMs);
  }

  // ---------------------------------------------------------------- dispatch

  /** Which adapter `normalizeFrom` hands the response to. */
  datatype Route = FinnhubCandleRoute | FinnhubQuoteRoute | GlobalQuoteRoute | DailyRoute

  function RouteOf(provider: string, endpoint: string, json: J): Route {
    var p := AsciiLower(provider);
    if p == "finnhub" && Contains(endpoint, "/stock/candle") then FinnhubCandleRoute
    else if p == "finnhub" && Contains(endpoint, "/quote") then FinnhubQuoteRoute
    else if p == "alphavantage" && Present(Member(json, "Global Quote")) then GlobalQuoteRoute
    else DailyRoute
  }

  /** `normalizeFrom(provider, endpoint, json)` */
  function NormalizeFrom(conv: Conv, provider: string, endpoint: string, json: J, nowMs: int): seq<Candle> {
    match RouteOf(provider, endpoint, json)
    case FinnhubCandleRoute => FinnhubCandle(conv, json)
    case FinnhubQuoteRoute => FinnhubQuote(conv, json, nowMs)
    case GlobalQuoteRoute => AlphaVantageGlobalQuote(conv, json, nowMs)
    case DailyRoute => AlphaVantageDaily(conv, json)
  }

  /**
   * For Finnhub (in any letter case) the candle path is checked before the quote
   * path; an endpoint with neither falls through to the daily adapter.
   */
  lemma NormalizeFinnhub(conv: Conv, provider: string, endpoint: string, json: J, nowMs: int)
    requires AsciiLower(provider) == "finnhub"
    ensures var r := NormalizeFrom(conv, provider, endpoint, json, nowMs);
      && (Contains(endpoint, "/stock/candle") ==> r == FinnhubCandle(conv, json))
      && (!Contains(endpoint, "/stock/candle") && Contains(endpoint, "/quote") ==> r == FinnhubQuote(conv, json, nowMs))
      && (!Contains(endpoint, "/stock/candle") && !Contains(endpoint, "/quote") ==> r == AlphaVantageDaily(conv, json))
  {
  }

  /**
   * For Alpha Vantage the global-quote adapter is taken exactly when "Global Quote"
   * is truthy, whatever the endpoint; otherwise the daily adapter.
   */
  lemma NormalizeAlphaVantage(conv: Conv, provider: string, endpoint: string, json: J, nowMs: int)
    requires AsciiLower(provider) == "alphavantage"
    ensures var r := NormalizeFrom(conv, provider, endpoint, json, nowMs);
      && (Present(Member(json, "Global Quote")) ==> r == AlphaVantageGlobalQuote(conv, json, nowMs))
      && (!Present(Member(json, "Global Quote")) ==> r == AlphaVantageDaily(conv, json))
  {
  }

  /** Any other provider is treated as an Alpha Vantage daily series. */
  lemma NormalizeOtherProvider(conv: Conv, provider: string, endpoint: string, json: J, nowMs: int)
    requires AsciiLower(provider) != "finnhub" && AsciiLower(provider) != "alphavantage"
    ensures NormalizeFrom(conv, provider, endpoint, json, nowMs) == AlphaVantageDaily(conv, json)
  {
  }

  /** Providers that differ only in ASCII letter case are routed alike. */
  lemma RouteIgnoresCase(p1: string, p2: string, endpoint: string, json: J)
    requires AsciiLower(p1) == AsciiLower(p2)
    ensures RouteOf(p1, endpoint, json) == RouteOf(p2, endpoint, json)
  {
  }

  /** "FinnHub" with a candle endpoint reaches the candle adapter. */
  lemma MixedCaseFinnhubCandle(conv: Conv, json: J, nowMs: int)
    ensures NormalizeFrom(conv, "FinnHub", "/stock/candle?symbol=AAPL", json, nowMs) == FinnhubCandle(conv, json)
  {
    assert AsciiLower("FinnHub") == "finnhub";
    assert "/stock/candle" <= "/stock/candle?symbol=AAPL";
  }
}
