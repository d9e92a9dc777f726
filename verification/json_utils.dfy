/**
 * Path lookup and shape detection over provider responses: the dotted-path
 * getter, the detector that finds "the list of records" in a response, the
 * OHLC key normaliser and the extractor of chartable time series.
 */
module JsonUtils {
  import opened JsValues

  // ---------------------------------------------------------------- getByPath

  /** `acc[idx]` on an array for a numeric index: an element only for an integral index in range. */
  function ArrayAt(a: seq<J>, idx: Num): (r: Option<J>)
    ensures r.Some? <==> idx.Fin? && idx.r == idx.r.Floor as real && 0 <= idx.r.Floor < |a|
  {
    if idx.Fin? && idx.r == idx.r.Floor as real && 0 <= idx.r.Floor < |a| then Some(a[idx.r.Floor]) else None
  }

  /** One step of the path walk: null and undefined absorb, arrays take numeric segments. */
  function Step(conv: Conv, acc: Option<J>, key: string): Option<J> {
    if Nullish(acc) then None
    else match acc.value
      case JArr(a) => if conv.number(key) == NaN then None else ArrayAt(a, conv.number(key))
      case v => Prop(v, key)
  }

  /** The left fold of `Step` over the segments. */
  function Walk(conv: Conv, acc: Option<J>, segs: seq<string>): Option<J>
    decreases |segs|
  {
    if segs == [] then acc else Walk(conv, Step(conv, acc, segs[0]), segs[1..])
  }

  /** `getByPath(obj, path)` */
  function GetByPath(conv: Conv, obj: J, path: string): (r: Option<J>)
    ensures !Truthy(obj) || path == "" ==> r.None?
  {
    if !Truthy(obj) || path == "" then None else Walk(conv, Some(obj), Split(path, '.'))
  }

  /** Once the walk meets null or undefined, the result is undefined. */
  lemma {:induction false} WalkAbsorbsNullish(conv: Conv, acc: Option<J>, segs: seq<string>)
    requires Nullish(acc) && segs != []
    ensures Walk(conv, acc, segs) == None
    decreases |segs|
  {
    if |segs| > 1 {
      WalkAbsorbsNullish(conv, None, segs[1..]);
    }
  }

  /** On an array a segment that `Number` turns into NaN gives undefined; any other indexes the array. */
  lemma StepOnArray(conv: Conv, a: seq<J>, key: string)
    ensures conv.number(key) == NaN ==> Step(conv, Some(JArr(a)), key) == None
    ensures forall k: nat :: k < |a| && conv.number(key) == Fin(k as real) ==> Step(conv, Some(JArr(a)), key) == Some(a[k])
  {
  }

  /** A path without dots on an object is a direct member lookup. */
  lemma SingleSegmentIsLookup(conv: Conv, members: seq<(string, J)>, path: string)
    requires path != "" && '.' !in path
    ensures GetByPath(conv, JObj(members), path) == Lookup(members, path)
  {
    SplitWithoutSeparator(path, '.');
    assert Truthy(JObj(members));
    var segs := Split(path, '.');
    assert segs == [path] && segs[1..] == [];
    assert Walk(conv, Some(JObj(members)), segs) == Walk(conv, Step(conv, Some(JObj(members)), path), []);
  }

  /** Walking a concatenation of segment lists is walking one after the other. */
  lemma {:induction false} WalkAppend(conv: Conv, acc: Option<J>, s: seq<string>, t: seq<string>)
    ensures Walk(conv, acc, s + t) == Walk(conv, Walk(conv, acc, s), t)
    decreases |s|
  {
    if s == [] {
      assert s + t == t;
    } else {
      assert (s + t)[0] == s[0] && (s + t)[1..] == s[1..] + t;
      WalkAppend(conv, Step(conv, acc, s[0]), s[1..], t);
    }
  }

  /** The path "p.q" walks q from wherever p leads. */
  lemma PathConcat(conv: Conv, obj: J, p: string, q: string)
    requires Truthy(obj) && p != ""
    ensures GetByPath(conv, obj, p + "." + q) == Walk(conv, GetByPath(conv, obj, p), Split(q, '.'))
  {
    SplitAtSeparator(p, '.', q);
    WalkAppend(conv, Some(obj), Split(p, '.'), Split(q, '.'));
  }

  // ---------------------------------------------------------------- normalizeOHLC

  const OpenKeys := ["1. open", "open", "o"]
  const HighKeys := ["2. high", "high", "h"]
  const LowKeys := ["3. low", "low", "l"]
  const CloseKeys := ["4. close", "close", "c"]
  const VolumeKeys := ["5. volume", "volume", "v"]

  /** The first of `keys` whose member in `ohlc` is neither null nor undefined. */
  function FirstPresent(ohlc: J, keys: seq<string>): (r: Option<J>)
    ensures r.None? <==> forall i :: 0 <= i < |keys| ==> Nullish(Prop(ohlc, keys[i]))
    ensures r.Some? ==> exists i :: 0 <= i < |keys| && Prop(ohlc, keys[i]) == r && !Nullish(r)
                          && forall j :: 0 <= j < i ==> Nullish(Prop(ohlc, keys[j]))
  {
    if keys == [] then None
    else if !Nullish(Prop(ohlc, keys[0])) then Prop(ohlc, keys[0])
    else
      var r := FirstPresent(ohlc, keys[1..]);
      assert forall i :: 1 <= i < |keys| ==> keys[i] == keys[1..][i - 1];
      r
  }

  /** One field of `normalizeOHLC`: `Number` of the first present key, else undefined. */
  function OhlcField(conv: Conv, ohlc: J, keys: seq<string>): (r: Option<Num>)
    ensures r.None? <==> FirstPresent(ohlc, keys).None?
  {
    var v := FirstPresent(ohlc, keys);
    if v.Some? then Some(ToNumber(conv, v)) else None
  }

  /** The five fields of `normalizeOHLC(ohlc)`, in order; `None` is an undefined field. */
  function OhlcFields(conv: Conv, ohlc: J): seq<(string, Option<Num>)> {
    [("open", OhlcField(conv, ohlc, OpenKeys)),
     ("high", OhlcField(conv, ohlc, HighKeys)),
     ("low", OhlcField(conv, ohlc, LowKeys)),
     ("close", OhlcField(conv, ohlc, CloseKeys)),
     ("volume", OhlcField(conv, ohlc, VolumeKeys))]
  }

  /** The members of a record with these fields; a field that is undefined is left out. */
  function DefinedMembers(fs: seq<(string, Option<Num>)>): seq<(string, J)> {
    if fs == [] then []
    else (if fs[0].1.Some? then [(fs[0].0, JNum(fs[0].1.value))] else []) + DefinedMembers(fs[1..])
  }

  /** The members of `normalizeOHLC(ohlc)` for an `ohlc` that is not null. */
  function NormalizedMembers(conv: Conv, ohlc: J): seq<(string, J)> {
    DefinedMembers(OhlcFields(conv, ohlc))
  }

  function AsNumberValue(v: Option<Num>): Option<J> {
    if v.Some? then Some(JNum(v.value)) else None
  }

  /** Reading a field of a record built from distinctly named fields gives that field back. */
  lemma {:induction false} DefinedMembersReadBack(fs: seq<(string, Option<Num>)>, k: nat)
    requires k < |fs|
    requires forall i, j :: 0 <= i < j < |fs| ==> fs[i].0 != fs[j].0
    ensures Lookup(DefinedMembers(fs), fs[k].0) == AsNumberValue(fs[k].1)
  {
    var head: seq<(string, J)> := if fs[0].1.Some? then [(fs[0].0, JNum(fs[0].1.value))] else [];
    var m := DefinedMembers(fs);
    assert m == head + DefinedMembers(fs[1..]);
    if k == 0 {
      if fs[0].1.None? {
        assert m == DefinedMembers(fs[1..]);
        DefinedMembersOmits(fs[1..], fs[0].0);
      }
    } else {
      DefinedMembersReadBack(fs[1..], k - 1);
      if fs[0].1.Some? {
        assert m[0].0 == fs[0].0 != fs[k].0;
        assert m[1..] == DefinedMembers(fs[1..]);
      }
    }
  }

  /** A name no field carries is not a member. */
  lemma {:induction false} DefinedMembersOmits(fs: seq<(string, Option<Num>)>, key: string)
    requires forall i :: 0 <= i < |fs| ==> fs[i].0 != key
    ensures Lookup(DefinedMembers(fs), key) == None
  {
    if fs != [] {
      DefinedMembersOmits(fs[1..], key);
      var m := DefinedMembers(fs);
      if fs[0].1.Some? {
        assert m[0].0 != key && m[1..] == DefinedMembers(fs[1..]);
      } else {
        assert m == DefinedMembers(fs[1..]);
      }
    }
  }

  /** Each member of the normalised record is that field's key-preference lookup. */
  lemma NormalizedFieldsReadBack(conv: Conv, ohlc: J)
    ensures var m := NormalizedMembers(conv, ohlc);
      && Lookup(m, "open") == AsNumberValue(OhlcField(conv, ohlc, OpenKeys))
      && Lookup(m, "high") == AsNumberValue(OhlcField(conv, ohlc, HighKeys))
      && Lookup(m, "low") == AsNumberValue(OhlcField(conv, ohlc, LowKeys))
      && Lookup(m, "close") == AsNumberValue(OhlcField(conv, ohlc, CloseKeys))
      && Lookup(m, "volume") == AsNumberValue(OhlcField(conv, ohlc, VolumeKeys))
  {
    var fs := OhlcFields(conv, ohlc);
    forall k | 0 <= k < |fs| ensures Lookup(DefinedMembers(fs), fs[k].0) == AsNumberValue(fs[k].1) {
      DefinedMembersReadBack(fs, k);
    }
    assert fs[0].0 == "open" && fs[1].0 == "high" && fs[2].0 == "low" && fs[3].0 == "close" && fs[4].0 == "volume";
  }

  /** `normalizeOHLC(ohlc)`: throws on null, whose members cannot be read. */
  function NormalizeOhlc(conv: Conv, ohlc: J): (r: Thrown<seq<(string, J)>>)
    ensures r.Threw? <==> ohlc.JNull?
  {
    if ohlc.JNull? then Threw(TypeError) else Returned(NormalizedMembers(conv, ohlc))
  }

  // ---------------------------------------------------------------- getArrayFromData

  /** A key that names an Alpha Vantage time-series container. */
  predicate IsSeriesKey(k: string) {
    Contains(AsciiLower(k), "time series")
  }

  /** The position of the first series key among the entries. */
  function FindSeriesKey(es: seq<(string, J)>): (r: Option<nat>)
    ensures r.None? <==> forall j :: 0 <= j < |es| ==> !IsSeriesKey(es[j].0)
    ensures r.Some? ==> r.value < |es| && IsSeriesKey(es[r.value].0)
                          && forall j :: 0 <= j < r.value ==> !IsSeriesKey(es[j].0)
  {
    if es == [] then None
    else if IsSeriesKey(es[0].0) then Some(0)
    else
      var r := FindSeriesKey(es[1..]);
      assert forall j :: 1 <= j < |es| ==> es[j] == es[1..][j - 1];
      if r.Some? then Some(r.value + 1) else None
  }

  /** The container the series key names, when `data` has one. */
  function SeriesContainer(data: J): Option<J> {
    var sk := FindSeriesKey(Entries(data));
    if Truthy(data) && sk.Some? then Prop(data, Entries(data)[sk.value].0) else None
  }

  /** The first member value that is an array. */
  function FirstArrayValue(es: seq<(string, J)>): (r: Option<seq<J>>)
    ensures r.None? <==> forall j :: 0 <= j < |es| ==> !es[j].1.JArr?
    ensures r.Some? ==> exists j :: 0 <= j < |es| && es[j].1 == JArr(r.value)
                          && forall i :: 0 <= i < j ==> !es[i].1.JArr?
  {
    if es == [] then None
    else if es[0].1.JArr? then Some(es[0].1.items)
    else
      var r := FirstArrayValue(es[1..]);
      assert forall j :: 1 <= j < |es| ==> es[j] == es[1..][j - 1];
      r
  }

  /** One row of a time-series container turned into a record with its date as `time`. */
  function SeriesRow(conv: Conv, time: string, ohlc: J): (r: Thrown<J>)
    ensures r.Threw? <==> ohlc.JNull?
    ensures r.Returned? ==> r.value == JObj([("time", JStr(time))] + NormalizedMembers(conv, ohlc))
  {
    var n := NormalizeOhlc(conv, ohlc);
    if n.Threw? then Threw(n.error) else Returned(JObj([("time", JStr(time))] + n.value))
  }

  /** All rows of a container, in entry order; the first null row throws. */
  function SeriesRows(conv: Conv, es: seq<(string, J)>): (r: Thrown<seq<J>>)
    ensures r.Threw? <==> exists i :: 0 <= i < |es| && es[i].1.JNull?
    ensures r.Returned? ==> |r.value| == |es|
    ensures r.Returned? ==> forall i :: 0 <= i < |es| ==>
              r.value[i] == JObj([("time", JStr(es[i].0))] + NormalizedMembers(conv, es[i].1))
  {
    if es == [] then Returned([])
    else
      var head := SeriesRow(conv, es[0].0, es[0].1);
      if head.Threw? then Threw(head.error)
      else
        var tail := SeriesRows(conv, es[1..]);
        assert forall i :: 1 <= i < |es| ==> es[i] == es[1..][i - 1];
        if tail.Threw? then Threw(tail.error) else Returned([head.value] + tail.value)
  }

  predicate IsArray(v: Option<J>) {
    v.Some? && v.value.JArr?
  }

  /** `getArrayFromData(data)`; `None` is the `null` result. */
  function GetArrayFromData(conv: Conv, data: J): Thrown<Option<seq<J>>> {
    if !Truthy(data) then Returned(None)
    else if data.JArr? then Returned(Some(data.items))
    else if IsArray(Prop(data, "bestMatches")) then Returned(Some(Prop(data, "bestMatches").value.items))
    else if Present(SeriesContainer(data)) then
      var rows := SeriesRows(conv, Entries(SeriesContainer(data).value));
      if rows.Threw? then Threw(rows.error) else Returned(Some(rows.value))
    else if IsArray(Prop(data, "result")) then Returned(Some(Prop(data, "result").value.items))
    else Returned(FirstArrayValue(Entries(data)))
  }

  /** A member found by lookup is one of the entries. */
  lemma LookupArrayIsEntry(data: J, key: string)
    requires !data.JArr? && IsArray(Prop(data, key))
    ensures exists j :: 0 <= j < |Entries(data)| && Entries(data)[j].1.JArr?
  {
    match data
    case JObj(ms) =>
      var i :| 0 <= i < |ms| && ms[i] == (key, Lookup(ms, key).value);
      assert Entries(data)[i].1.JArr?;
    case JStr(s) =>
    case _ =>
  }

  /**
   * The detector finds nothing exactly when the value is falsy, or is not an
   * array, holds no array-valued member, and has no truthy time-series container.
   */
  lemma ArrayFromDataNull(conv: Conv, data: J)
    ensures GetArrayFromData(conv, data) == Returned(None) <==>
              !Truthy(data)
              || (!data.JArr? && !Present(SeriesContainer(data))
                  && forall j :: 0 <= j < |Entries(data)| ==> !Entries(data)[j].1.JArr?)
  {
    if Truthy(data) && !data.JArr? {
      if IsArray(Prop(data, "bestMatches")) {
        LookupArrayIsEntry(data, "bestMatches");
      }
      if IsArray(Prop(data, "result")) {
        LookupArrayIsEntry(data, "result");
      }
    }
  }

  /** The detector throws only in the time-series step, on a null row. */
  lemma ArrayFromDataThrows(conv: Conv, data: J)
    ensures GetArrayFromData(conv, data).Threw? <==>
              Truthy(data) && !data.JArr? && !IsArray(Prop(data, "bestMatches"))
              && Present(SeriesContainer(data))
              && exists i :: 0 <= i < |Entries(SeriesContainer(data).value)| && Entries(SeriesContainer(data).value)[i].1.JNull?
  {
  }

  // ---------------------------------------------------------------- toTimeSeries

  datatype Point = Point(time: string, value: Num)

  /** The candle field a y-path selects. */
  datatype Field = OpenField | HighField | LowField | VolumeField | CloseField

  /** Checks "open", then "high", then "low", then "volume" or exactly "v"; otherwise close. */
  function SelectField(yPath: string): (f: Field)
    ensures var k := AsciiLower(yPath);
      && (f == OpenField <==> Contains(k, "open"))
      && (f == HighField <==> !Contains(k, "open") && Contains(k, "high"))
      && (f == LowField <==> !Contains(k, "open") && !Contains(k, "high") && Contains(k, "low"))
      && (f == VolumeField <==>
            (!Contains(k, "open") && !Contains(k, "high") && !Contains(k, "low") && (Contains(k, "volume") || k == "v")))
  {
    var k := AsciiLower(yPath);
    if Contains(k, "open") then OpenField
    else if Contains(k, "high") then HighField
    else if Contains(k, "low") then LowField
    else if Contains(k, "volume") || k == "v" then VolumeField
    else CloseField
  }

  /** The numbers of one candle row; `volume` may be undefined. */
  datatype Row = Row(open: Num, high: Num, low: Num, close: Num, volume: Option<Num>)

  /** `Number(pick(row, yPath))`: an undefined volume reads as NaN. */
  function Pick(row: Row, f: Field): Num {
    match f
    case OpenField => row.open
    case HighField => row.high
    case LowField => row.low
    case VolumeField => if row.volume.Some? then row.volume.value else NaN
    case CloseField => row.close
  }

  function Times1000(n: Num): Num {
    if n.Fin? then Fin(n.r * 1000.0) else n
  }

  /** `new Date(ms).toISOString()`; an invalid date throws. */
  function IsoTime(conv: Conv, ms: Num): Option<string> {
    if ms.Fin? then conv.isoString(ms.r) else None
  }

  /** `s.slice(0, n)` */
  function Prefix(s: string, n: nat): (r: string)
    ensures |r| <= n && r <= s
  {
    if |s| <= n then s else s[..n]
  }

  /** The points of `ps` that `keep` accepts, in order. */
  function Filter(ps: seq<Point>, keep: Point -> bool): (r: seq<Point>)
    ensures |r| <= |ps|
    ensures forall k :: 0 <= k < |r| ==> keep(r[k])
    ensures forall p :: multiset(r)[p] == if keep(p) then multiset(ps)[p] else 0
  {
    if ps == [] then []
    else
      var rest := Filter(ps[1..], keep);
      assert ps == [ps[0]] + ps[1..];
      if keep(ps[0]) then [ps[0]] + rest else rest
  }

  /** A single point is kept exactly when `keep` accepts it. */
  lemma FilterSingleton(p: Point, keep: Point -> bool)
    ensures Filter([p], keep) == if keep(p) then [p] else []
  {
    assert [p][1..] == [];
  }

  /** Filtering works piecewise on a concatenation, so the kept points stay in order. */
  lemma {:induction false} FilterConcat(a: seq<Point>, b: seq<Point>, keep: Point -> bool)
    ensures Filter(a + b, keep) == Filter(a, keep) + Filter(b, keep)
  {
    if a == [] {
      assert a + b == b;
    } else {
      assert (a + b)[0] == a[0] && (a + b)[1..] == a[1..] + b;
      FilterConcat(a[1..], b, keep);
    }
  }

  /** `data.t` and `data.c` are both arrays: the Finnhub candle shape. */
  predicate IsCandleArrays(data: J) {
    Truthy(data) && IsArray(Prop(data, "t")) && IsArray(Prop(data, "c"))
  }

  /** An object with members o, h, l and c: the Finnhub quote shape. */
  predicate IsQuoteObject(data: J) {
    Truthy(data) && data.JObj?
    && HasKey(data.members, "o") && HasKey(data.members, "h")
    && HasKey(data.members, "l") && HasKey(data.members, "c")
  }

  /** `data.x || []` */
  function OrEmpty(v: Option<J>): J {
    if Present(v) then v.value else JArr([])
  }

  /** The row of candle index `i`, read from the parallel containers. */
  function CandleRowAt(conv: Conv, o: J, h: J, l: J, c: J, v: J, i: nat): Row {
    Row(ToNumber(conv, Index(o, i)), ToNumber(conv, Index(h, i)), ToNumber(conv, Index(l, i)),
        ToNumber(conv, Index(c, i)),
        if Nullish(Index(v, i)) then None else Some(ToNumber(conv, Index(v, i))))
  }

  /** The unfiltered points of the candle arrays from index `i` on; a bad timestamp throws. */
  function CandlePoints(conv: Conv, ts: seq<J>, o: J, h: J, l: J, c: J, v: J, f: Field, i: nat): (r: Thrown<seq<Point>>)
    requires i <= |ts|
    ensures r.Returned? ==> |r.value| == |ts| - i
    decreases |ts| - i
  {
    if i == |ts| then Returned([])
    else
      var iso := IsoTime(conv, Times1000(ToNumber(conv, Some(ts[i]))));
      if iso.None? then Threw(RangeError)
      else
        var p := Point(Prefix(iso.value, 10), Pick(CandleRowAt(conv, o, h, l, c, v, i), f));
        var rest := CandlePoints(conv, ts, o, h, l, c, v, f, i + 1);
        if rest.Threw? then rest else Returned([p] + rest.value)
  }

  predicate KeepTimedFinite(p: Point) { p.time != "" && p.value.Fin? }
  predicate KeepFinite(p: Point) { p.value.Fin? }
  predicate KeepNumber(p: Point) { !p.value.NaN? }
  predicate KeepTimedNumber(p: Point) { p.time != "" && !p.value.NaN? }

  /** The Finnhub candle branch. */
  function CandleSeries(conv: Conv, data: J, yPath: string): (r: Thrown<seq<Point>>)
    requires IsCandleArrays(data)
    ensures r.Returned? ==> |r.value| <= |Prop(data, "t").value.items|
    ensures r.Returned? ==> forall k :: 0 <= k < |r.value| ==> r.value[k].time != "" && r.value[k].value.Fin?
  {
    var ts := Prop(data, "t").value.items;
    var all := CandlePoints(conv, ts, OrEmpty(Prop(data, "o")), OrEmpty(Prop(data, "h")),
                            OrEmpty(Prop(data, "l")), OrEmpty(Prop(data, "c")),
                            OrEmpty(Prop(data, "v")), SelectField(yPath), 0);
    if all.Threw? then all else Returned(Filter(all.value, KeepTimedFinite))
  }

  /** The Finnhub quote branch: one point at the quote's time, or at `nowMs` when it has none. */
  function QuoteSeries(conv: Conv, data: J, yPath: string, nowMs: int): (r: Thrown<seq<Point>>)
    requires IsQuoteObject(data)
    ensures r.Returned? ==> |r.value| <= 1 && forall k :: 0 <= k < |r.value| ==> r.value[k].value.Fin?
  {
    var tn := ToNumber(conv, Prop(data, "t"));
    var ms := if tn.Fin? then Times1000(tn) else Fin(nowMs as real);
    var iso := IsoTime(conv, ms);
    if iso.None? then Threw(RangeError)
    else
      var vol := if Nullish(Prop(data, "v")) then NaN else ToNumber(conv, Prop(data, "v"));
      var row := Row(ToNumber(conv, Prop(data, "o")), ToNumber(conv, Prop(data, "h")),
                     ToNumber(conv, Prop(data, "l")), ToNumber(conv, Prop(data, "c")), Some(vol));
      Returned(Filter([Point(iso.value, Pick(row, SelectField(yPath)))], KeepFinite))
  }

  /** The unfiltered points of a time-series container; a null row throws. */
  function SeriesPoints(conv: Conv, es: seq<(string, J)>, yPath: string): (r: Thrown<seq<Point>>)
    ensures r.Returned? ==> |r.value| == |es|
  {
    if es == [] then Returned([])
    else
      var n := NormalizeOhlc(conv, es[0].1);
      if n.Threw? then Threw(n.error)
      else
        var y := Coalesce(GetByPath(conv, JObj(n.value), yPath), GetByPath(conv, es[0].1, yPath));
        var rest := SeriesPoints(conv, es[1..], yPath);
        if rest.Threw? then rest else Returned([Point(es[0].0, ToNumber(conv, y))] + rest.value)
  }

  /** The Alpha Vantage branch; `Object.entries` of a missing or null container throws. */
  function AlphaSeries(conv: Conv, data: J, yPath: string): (r: Thrown<seq<Point>>)
    ensures Nullish(SeriesContainer(data)) ==> r == Threw(TypeError)
    ensures r.Returned? ==> |r.value| <= |Entries(SeriesContainer(data).value)|
    ensures r.Returned? ==> forall k :: 0 <= k < |r.value| ==> !r.value[k].value.NaN?
  {
    var obj := SeriesContainer(data);
    if Nullish(obj) then Threw(TypeError)
    else
      var all := SeriesPoints(conv, Entries(obj.value), yPath);
      if all.Threw? then all else Returned(Filter(all.value, KeepNumber))
  }

  /** The generic branch: each detected record mapped through the two paths. */
  function RecordPoints(conv: Conv, rows: seq<J>, xPath: string, yPath: string): (r: seq<Point>)
    ensures |r| == |rows|
  {
    seq(|rows|, i requires 0 <= i < |rows| =>
      Point(OptToJsString(conv, GetByPath(conv, rows[i], xPath)), ToNumber(conv, GetByPath(conv, rows[i], yPath))))
  }

  function GenericSeries(conv: Conv, data: J, xPath: string, yPath: string): (r: Thrown<seq<Point>>)
    ensures GetArrayFromData(conv, data).Returned? <==> r.Returned?
    ensures GetArrayFromData(conv, data) == Returned(None) ==> r == Returned([])
    ensures r.Returned? ==> forall k :: 0 <= k < |r.value| ==> r.value[k].time != "" && !r.value[k].value.NaN?
  {
    var arr := GetArrayFromData(conv, data);
    if arr.Threw? then Threw(arr.error)
    else if arr.value.None? then Returned([])
    else Returned(Filter(RecordPoints(conv, arr.value.value, xPath, yPath), KeepTimedNumber))
  }

  predicate HasSeriesKey(data: J) {
    Truthy(data) && FindSeriesKey(Entries(data)).Some?
  }

  /**
   * `toTimeSeries(data, xPath, yPath)`; `nowMs` is the clock reading used for a
   * quote without time. Every returned point has a number value, and the two
   * Finnhub shapes keep only finite ones.
   */
  function ToTimeSeries(conv: Conv, data: J, xPath: string, yPath: string, nowMs: int): (r: Thrown<seq<Point>>)
    ensures r.Returned? ==> forall k :: 0 <= k < |r.value| ==> !r.value[k].value.NaN?
    ensures r.Returned? && (IsCandleArrays(data) || IsQuoteObject(data)) ==>
              forall k :: 0 <= k < |r.value| ==> r.value[k].value.Fin?
  {
    if IsCandleArrays(data) then CandleSeries(conv, data, yPath)
    else if IsQuoteObject(data) then QuoteSeries(conv, data, yPath, nowMs)
    else if HasSeriesKey(data) then AlphaSeries(conv, data, yPath)
    else GenericSeries(conv, data, xPath, yPath)
  }

  /** With no recognised shape and no records, the series is empty; that branch never throws. */
  lemma GenericSeriesNeverThrows(conv: Conv, data: J, xPath: string, yPath: string, nowMs: int)
    requires !IsCandleArrays(data) && !IsQuoteObject(data) && !HasSeriesKey(data)
    ensures ToTimeSeries(conv, data, xPath, yPath, nowMs).Returned?
    ensures GetArrayFromData(conv, data) == Returned(None) ==>
              ToTimeSeries(conv, data, xPath, yPath, nowMs) == Returned([])
  {
    ArrayFromDataThrows(conv, data);
  }
}
