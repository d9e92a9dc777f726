/**
 * The JavaScript values that the dashboard's data layer walks over, and the
 * few language rules it relies on: truthiness, property access, `Object.entries`,
 * `Number(x)`, `String(x)`, `toLowerCase`, `includes` and `split`.
 *
 * A `J` is a value that a parsed JSON document can hold, plus the numbers NaN and
 * ±Infinity that the code's own conversions produce. `undefined` is not a `J`: a
 * property read that may miss is an `Option<J>` and `None` is `undefined`.
 * The members of an object are listed in the object's own-property enumeration
 * order (the order `Object.keys` reports); keys of one object are distinct.
 *
 * Host conversions that would need IEEE-754 parsing, calendar arithmetic or
 * number formatting are not reimplemented: they are the fields of a `Conv`
 * value that every operation receives as a parameter.
 */
module JsValues {

  datatype Option<+T> = None | Some(value: T)

  /** The exception kinds the modelled code can raise. */
  datatype JsError = TypeError | RangeError

  /** A computation that returns a value or throws. */
  datatype Thrown<+T> = Returned(value: T) | Threw(error: JsError)

  /** A JavaScript number: finite (kept exactly), an infinity, or NaN. */
  datatype Num = Fin(r: real) | PosInf | NegInf | NaN

  datatype J =
    | JNull
    | JBool(b: bool)
    | JNum(n: Num)
    | JStr(s: string)
    | JArr(items: seq<J>)
    | JObj(members: seq<(string, J)>)

  /** Host conversions, left uninterpreted. */
  datatype Conv = Conv(
    number: string -> Num,              // Number(s), and unary + on a string
    parseFloat: string -> Num,          // Number.parseFloat(s)
    finiteToString: real -> string,     // String(x) for a finite number x
    dateParse: string -> Option<int>,   // Date.parse(s); None where it yields NaN
    isoString: real -> Option<string>,  // new Date(ms).toISOString(); None where it throws RangeError
    jsonParse: string -> Option<J>      // JSON.parse(text); None where it throws SyntaxError
  )

  // ---------------------------------------------------------------- truthiness

  /** `!!v`: false exactly for null, false, 0, NaN and the empty string. */
  predicate Truthy(v: J) {
    match v
    case JNull => false
    case JBool(b) => b
    case JNum(n) => n != Fin(0.0) && n != NaN
    case JStr(s) => s != []
    case _ => true
  }

  /** Truthiness of a value that may be undefined. */
  predicate Present(v: Option<J>) {
    v.Some? && Truthy(v.value)
  }

  /** `v == null`: undefined or null. */
  predicate Nullish(v: Option<J>) {
    v.None? || v.value.JNull?
  }

  /** `a ?? b` */
  function Coalesce(a: Option<J>, b: Option<J>): (r: Option<J>)
    ensures !Nullish(a) ==> r == a
    ensures Nullish(a) ==> r == b
  {
    if Nullish(a) then b else a
  }

  // ---------------------------------------------------------------- strings

  /** `s.includes(sub)`: `sub` occurs in `s` at some position. */
  predicate Contains(s: string, sub: string)
    decreases |s|
  {
    sub <= s || (s != [] && Contains(s[1..], sub))
  }

  function LowerChar(c: char): char {
    if 'A' <= c <= 'Z' then (c as int + 32) as char else c
  }

  /**
   * `s.toLowerCase()` restricted to the ASCII letters. Every test the code applies
   * to a lower-cased string (equality with "finnhub" or "alphavantage", a search
   * for "time series", "open", "high", "low", "volume", or equality with "v")
   * involves only ASCII letters and the space, and no other character lower-cases
   * to a run of those, so the two agree on every such test.
   */
  function AsciiLower(s: string): (r: string)
    ensures |r| == |s|
    ensures forall i :: 0 <= i < |s| ==> r[i] == LowerChar(s[i])
  {
    seq(|s|, i requires 0 <= i < |s| => LowerChar(s[i]))
  }

  /** `s.split(sep)` for a one-character separator: never empty. */
  function Split(s: string, sep: char): (parts: seq<string>)
    ensures |parts| >= 1
  {
    if s == [] then [""]
    else if s[0] == sep then [""] + Split(s[1..], sep)
    else
      var rest := Split(s[1..], sep);
      [[s[0]] + rest[0]] + rest[1..]
  }

  /** A string without the separator splits into itself alone. */
  lemma {:induction false} SplitWithoutSeparator(s: string, sep: char)
    requires sep !in s
    ensures Split(s, sep) == [s]
  {
    if s != [] {
      assert sep !in s[1..];
      SplitWithoutSeparator(s[1..], sep);
      assert [s[0]] + s[1..] == s;
    }
  }

  /** One step of `Split`: a leading character either ends the first part or joins it. */
  lemma SplitCons(c: char, t: string, sep: char)
    ensures Split([c] + t, sep) ==
      if c == sep then [""] + Split(t, sep) else [[c] + Split(t, sep)[0]] + Split(t, sep)[1..]
  {
    assert ([c] + t)[0] == c && ([c] + t)[1..] == t;
  }

  /** Splitting at a separator concatenates the parts of both sides. */
  lemma {:induction false} SplitAtSeparator(p: string, sep: char, q: string)
    ensures Split(p + [sep] + q, sep) == Split(p, sep) + Split(q, sep)
  {
    if p == [] {
      assert p + [sep] + q == [sep] + q;
      SplitCons(sep, q, sep);
    } else {
      SplitAtSeparator(p[1..], sep, q);
      SplitAtSeparatorStep(p[0], p[1..], sep, q);
      assert [p[0]] + p[1..] == p;
    }
  }

  /** The inductive step of `SplitAtSeparator`: one more leading character. */
  lemma SplitAtSeparatorStep(c: char, t: string, sep: char, q: string)
    requires Split(t + [sep] + q, sep) == Split(t, sep) + Split(q, sep)
    ensures Split([c] + t + [sep] + q, sep) == Split([c] + t, sep) + Split(q, sep)
  {
    var u := t + [sep] + q;
    assert [c] + t + [sep] + q == [c] + u;
    SplitCons(c, u, sep);
    SplitCons(c, t, sep);
    var left, right := Split(t, sep), Split(q, sep);
    if c == sep {
      assert [""] + (left + right) == ([""] + left) + right;
    } else {
      ExtendFirstPart([c], left, right);
    }
  }

  /** Prefixing the first of some parts commutes with appending more parts. */
  lemma ExtendFirstPart(x: string, left: seq<string>, right: seq<string>)
    requires left != []
    ensures [x + (left + right)[0]] + (left + right)[1..] == ([x + left[0]] + left[1..]) + right
  {
    assert (left + right)[0] == left[0];
    assert (left + right)[1..] == left[1..] + right;
  }

  function DigitChar(d: nat): char
    requires d < 10
  {
    ('0' as int + d) as char
  }

  predicate IsDigit(c: char) {
    '0' <= c <= '9'
  }

  /** The decimal numeral of `n`, as `String(n)` writes a non-negative integer. */
  function NatToString(n: nat): (s: string)
    ensures s != []
    ensures forall i :: 0 <= i < |s| ==> IsDigit(s[i])
    ensures s[0] == '0' ==> n == 0 && |s| == 1
  {
    if n < 10 then [DigitChar(n)] else NatToString(n / 10) + [DigitChar(n % 10)]
  }

  /** `String(n)` for an integer, with a leading '-' when negative. */
  function IntToString(n: int): (s: string)
    ensures s != []
  {
    if n < 0 then "-" + NatToString(-n) else NatToString(n)
  }

  function DigitValue(c: char): nat
    requires IsDigit(c)
  {
    c as int - '0' as int
  }

  function DigitsValue(s: string): nat
    requires forall i :: 0 <= i < |s| ==> IsDigit(s[i])
  {
    if s == [] then 0 else DigitsValue(s[..|s| - 1]) * 10 + DigitValue(s[|s| - 1])
  }

  /**
   * The array index a property key denotes: a decimal numeral without a
   * leading zero (except "0" itself).
   */
  function IndexKey(key: string): Option<nat> {
    if key != [] && (forall i :: 0 <= i < |key| ==> IsDigit(key[i])) && (key[0] != '0' || |key| == 1)
    then Some(DigitsValue(key))
    else None
  }

  /** Reading back the numeral of an index gives the index. */
  lemma {:induction false} IndexKeyOfNatToString(n: nat)
    ensures IndexKey(NatToString(n)) == Some(n)
  {
    DigitsValueOfNatToString(n);
  }

  lemma {:induction false} DigitsValueOfNatToString(n: nat)
    ensures DigitsValue(NatToString(n)) == n
  {
    var s := NatToString(n);
    if n >= 10 {
      DigitsValueOfNatToString(n / 10);
      assert s[..|s| - 1] == NatToString(n / 10);
    }
  }

  // ---------------------------------------------------------------- properties

  /** The value of the first member named `key`, or undefined. */
  function Lookup(members: seq<(string, J)>, key: string): (r: Option<J>)
    ensures r.None? <==> forall i :: 0 <= i < |members| ==> members[i].0 != key
    ensures r.Some? ==> exists i :: 0 <= i < |members| && members[i] == (key, r.value)
  {
    if members == [] then None
    else if members[0].0 == key then Some(members[0].1)
    else
      var r := Lookup(members[1..], key);
      assert r.Some? ==> exists i :: 0 < i < |members| && members[i] == (key, r.value) by {
        if r.Some? {
          var i :| 0 <= i < |members[1..]| && members[1..][i] == (key, r.value);
          assert members[i + 1] == (key, r.value);
        }
      }
      r
  }

  predicate HasKey(members: seq<(string, J)>, key: string) {
    exists i :: 0 <= i < |members| && members[i].0 == key
  }

  /**
   * `v[key]` on a value that is not null: an object's own member, an array's or
   * a string's element or length. Inherited prototype members are not modelled.
   */
  function Prop(v: J, key: string): (r: Option<J>)
    ensures v.JObj? ==> r == Lookup(v.members, key)
    ensures v.JNull? || v.JBool? || v.JNum? ==> r.None?
  {
    match v
    case JObj(ms) => Lookup(ms, key)
    case JArr(a) =>
      if key == "length" then Some(JNum(Fin(|a| as real)))
      else if IndexKey(key).Some? && IndexKey(key).value < |a| then Some(a[IndexKey(key).value])
      else None
    case JStr(s) =>
      if key == "length" then Some(JNum(Fin(|s| as real)))
      else if IndexKey(key).Some? && IndexKey(key).value < |s| then Some(JStr([s[IndexKey(key).value]]))
      else None
    case _ => None
  }

  /** `v[i]` for an integer `i`. */
  function Index(v: J, i: nat): (r: Option<J>)
    ensures v.JArr? ==> (r.Some? <==> i < |v.items|)
    ensures v.JArr? && i < |v.items| ==> r == Some(v.items[i])
  {
    match v
    case JArr(a) => if i < |a| then Some(a[i]) else None
    case JStr(s) => if i < |s| then Some(JStr([s[i]])) else None
    case JObj(ms) => Lookup(ms, NatToString(i))
    case _ => None
  }

  /** Indexing with an integer is reading the property named by its numeral. */
  lemma IndexIsProp(v: J, i: nat)
    ensures Index(v, i) == Prop(v, NatToString(i))
  {
    IndexKeyOfNatToString(i);
  }

  /** `Object.entries(v)` for a value that is not null. */
  function Entries(v: J): (es: seq<(string, J)>)
    ensures v.JObj? ==> es == v.members
    ensures v.JArr? ==> |es| == |v.items|
    ensures v.JStr? ==> |es| == |v.s|
    ensures v.JNull? || v.JBool? || v.JNum? ==> es == []
  {
    match v
    case JObj(ms) => ms
    case JArr(a) => seq(|a|, i requires 0 <= i < |a| => (NatToString(i), a[i]))
    case JStr(s) => seq(|s|, i requires 0 <= i < |s| => (NatToString(i), JStr([s[i]])))
    case _ => []
  }

  // ---------------------------------------------------------------- conversions

  /** `String(x)` for a number. */
  function NumToString(conv: Conv, n: Num): string {
    match n
    case Fin(r) => conv.finiteToString(r)
    case PosInf => "Infinity"
    case NegInf => "-Infinity"
    case NaN => "NaN"
  }

  /** `String(v)`; an array is its elements joined by ",", with null shown as "". */
  function ToJsString(conv: Conv, v: J): string {
    match v
    case JNull => "null"
    case JBool(b) => if b then "true" else "false"
    case JNum(n) => NumToString(conv, n)
    case JStr(s) => s
    case JArr(a) => JoinElements(conv, a)
    case JObj(_) => "[object Object]"
  }

  function JoinElements(conv: Conv, a: seq<J>): string {
    if a == [] then ""
    else
      (if a[0].JNull? then "" else ToJsString(conv, a[0]))
      + (if |a| == 1 then "" else "," + JoinElements(conv, a[1..]))
  }

  /** `String(v)` for a value that may be undefined. */
  function OptToJsString(conv: Conv, v: Option<J>): string {
    if v.None? then "undefined" else ToJsString(conv, v.value)
  }

  /**
   * `Number(v)`: undefined and plain objects give NaN, null gives 0, a boolean 0
   * or 1, a string is parsed by the host, and an array is converted through its
   * string form.
   */
  function ToNumber(conv: Conv, v: Option<J>): (n: Num)
    ensures v.None? ==> n == NaN
    ensures v.Some? && v.value.JNum? ==> n == v.value.n
  {
    match v
    case None => NaN
    case Some(x) =>
      match x
      case JNull => Fin(0.0)
      case JBool(b) => if b then Fin(1.0) else Fin(0.0)
      case JNum(n) => n
      case JStr(s) => conv.number(s)
      case JArr(_) => conv.number(ToJsString(conv, x))
      case JObj(_) => NaN
  }
}
