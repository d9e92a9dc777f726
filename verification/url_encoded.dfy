/**
 * The application/x-www-form-urlencoded serializer of the WHATWG URL Standard
 * (section 5.2), which `URLSearchParams.toString()` applies to its list of
 * name-value pairs: each name and value is UTF-8 encoded, ASCII alphanumerics and
 * `*`, `-`, `.`, `_` are kept, a space becomes `+`, every other byte becomes `%XX`
 * with upper-case hex digits, and the pairs are written `name=value` joined by `&`.
 *
 * A decoder is defined beside it and proved to be its left inverse, so the
 * serialized text determines the list of pairs it came from.
 */
module UrlEncoded {
  import opened JsValues

  /** Characters the serializer leaves as they are. */
  predicate Unreserved(c: char) {
    ('a' <= c <= 'z') || ('A' <= c <= 'Z') || ('0' <= c <= '9') || c == '*' || c == '-' || c == '.' || c == '_'
  }

  predicate IsByte(b: int) {
    0 <= b < 256
  }

  // ---------------------------------------------------------------- UTF-8

  /** The UTF-8 encoding of one Unicode scalar value. */
  function Utf8(c: char): (bs: seq<int>)
    ensures 1 <= |bs| <= 4
    ensures forall k :: 0 <= k < |bs| ==> IsByte(bs[k])
    ensures c as int < 0x80 <==> bs == [c as int]
  {
    var n := c as int;
    if n < 0x80 then [n]
    else if n < 0x800 then [0xC0 + n / 64, 0x80 + n % 64]
    else if n < 0x10000 then [0xE0 + n / 4096, 0x80 + (n / 64) % 64, 0x80 + n % 64]
    else [0xF0 + n / 262144, 0x80 + (n / 4096) % 64, 0x80 + (n / 64) % 64, 0x80 + n % 64]
  }

  /** The UTF-8 encoding of a string. */
  function Utf8Encode(s: string): (bs: seq<int>)
    ensures forall k :: 0 <= k < |bs| ==> IsByte(bs[k])
  {
    if s == [] then [] else Utf8(s[0]) + Utf8Encode(s[1..])
  }

  /** How many bytes the sequence led by `b` has, or 0 when `b` cannot lead one. */
  function LeadLength(b: int): nat {
    if 0 <= b < 0x80 then 1
    else if 0xC0 <= b < 0xE0 then 2
    else if 0xE0 <= b < 0xF0 then 3
    else if 0xF0 <= b < 0xF8 then 4
    else 0
  }

  predicate Continuation(b: int) {
    0x80 <= b < 0xC0
  }

  /** The character a scalar value names, when it names one. */
  function ScalarChar(n: int): (r: Option<char>)
    ensures r.Some? ==> r.value as int == n
  {
    if (0 <= n < 0xD800) || (0xE000 <= n < 0x110000) then Some(n as char) else None
  }

  /** Decodes one complete byte sequence whose length its lead byte announces. */
  function DecodeScalar(bs: seq<int>): Option<char>
    requires 1 <= |bs| <= 4 && |bs| == LeadLength(bs[0])
  {
    if |bs| == 1 then ScalarChar(bs[0])
    else if exists k :: 1 <= k < |bs| && !Continuation(bs[k]) then None
    else if |bs| == 2 then ScalarChar((bs[0] - 0xC0) * 64 + (bs[1] - 0x80))
    else if |bs| == 3 then ScalarChar((bs[0] - 0xE0) * 4096 + (bs[1] - 0x80) * 64 + (bs[2] - 0x80))
    else ScalarChar((bs[0] - 0xF0) * 262144 + (bs[1] - 0x80) * 4096 + (bs[2] - 0x80) * 64 + (bs[3] - 0x80))
  }

  function PrependChar(c: char, r: Option<string>): Option<string> {
    if r.None? then None else Some([c] + r.value)
  }

  /** Decodes UTF-8; fails on a byte sequence that is not one. */
  function Utf8Decode(bs: seq<int>): Option<string>
  {
    if bs == [] then Some([])
    else
      var n := LeadLength(bs[0]);
      if n == 0 || |bs| < n then None
      else
        var c := DecodeScalar(bs[..n]);
        if c.None? then None else PrependChar(c.value, Utf8Decode(bs[n..]))
  }

  /** Writing a scalar value in base 64 and reading its digits back gives it again. */
  lemma Base64Digits(n: int)
    requires n >= 0
    ensures n == (n / 64) * 64 + n % 64
    ensures n / 64 == (n / 4096) * 64 + (n / 64) % 64
    ensures n / 4096 == (n / 262144) * 64 + (n / 4096) % 64
  {
  }

  /** The bytes of one character form one sequence that decodes to it. */
  lemma DecodeScalarOfUtf8(c: char)
    ensures LeadLength(Utf8(c)[0]) == |Utf8(c)|
    ensures DecodeScalar(Utf8(c)) == Some(c)
  {
    var n := c as int;
    Base64Digits(n);
    var bs := Utf8(c);
    if n < 0x80 {
    } else if n < 0x800 {
      assert (bs[0] - 0xC0) * 64 + (bs[1] - 0x80) == n;
    } else if n < 0x10000 {
      assert (bs[0] - 0xE0) * 4096 + (bs[1] - 0x80) * 64 + (bs[2] - 0x80) == n;
    } else {
      assert (bs[0] - 0xF0) * 262144 + (bs[1] - 0x80) * 4096 + (bs[2] - 0x80) * 64 + (bs[3] - 0x80) == n;
    }
  }

  /** The bytes of one character decode back to it, whatever follows. */
  lemma Utf8DecodeChar(c: char, rest: seq<int>)
    ensures Utf8Decode(Utf8(c) + rest) == PrependChar(c, Utf8Decode(rest))
  {
    var bs := Utf8(c);
    var all := bs + rest;
    DecodeScalarOfUtf8(c);
    assert all[0] == bs[0];
    assert all[..|bs|] == bs && all[|bs|..] == rest;
  }

  /** UTF-8 decoding undoes UTF-8 encoding. */
  lemma {:induction false} Utf8RoundTrip(s: string)
    ensures Utf8Decode(Utf8Encode(s)) == Some(s)
  {
    if s != [] {
      Utf8RoundTrip(s[1..]);
      Utf8DecodeChar(s[0], Utf8Encode(s[1..]));
      assert [s[0]] + s[1..] == s;
    }
  }

  // ---------------------------------------------------------------- percent-encoding

  /** The upper-case hexadecimal digit of `d`. */
  function HexDigit(d: int): (c: char)
    requires 0 <= d < 16
    ensures ('0' <= c <= '9') || ('A' <= c <= 'F')
  {
    if d < 10 then ('0' as int + d) as char else ('A' as int + d - 10) as char
  }

  /** The value of a hexadecimal digit of either case. */
  function HexValue(c: char): Option<int> {
    if '0' <= c <= '9' then Some(c as int - '0' as int)
    else if 'A' <= c <= 'F' then Some(c as int - 'A' as int + 10)
    else if 'a' <= c <= 'f' then Some(c as int - 'a' as int + 10)
    else None
  }

  lemma HexValueOfDigit(d: int)
    requires 0 <= d < 16
    ensures HexValue(HexDigit(d)) == Some(d)
  {
  }

  /** `%XX` for each byte. */
  function PercentBytes(bs: seq<int>): (r: string)
    requires forall k :: 0 <= k < |bs| ==> IsByte(bs[k])
    ensures |r| == 3 * |bs|
  {
    if bs == [] then []
    else
      var b := bs[0];
      assert IsByte(b);
      ['%', HexDigit(b / 16), HexDigit(b % 16)] + PercentBytes(bs[1..])
  }

  /** A character the serializer may write: it never writes `=`, `&` or `|`. */
  predicate Encoded(c: char) {
    Unreserved(c) || c == '+' || c == '%'
  }

  /** The text one character is serialized to. */
  function EncodeChar(c: char): (r: string)
    ensures r != []
    ensures forall k :: 0 <= k < |r| ==> Encoded(r[k])
  {
    if Unreserved(c) then [c]
    else if c == ' ' then "+"
    else
      var r := PercentBytes(Utf8(c));
      PercentEncodedChars(Utf8(c));
      assert forall k :: 0 <= k < |r| ==> Encoded(r[k]);
      r
  }

  /** Percent-encoded text consists of `%` and upper-case hexadecimal digits. */
  lemma {:induction false} PercentEncodedChars(bs: seq<int>)
    requires forall k :: 0 <= k < |bs| ==> IsByte(bs[k])
    ensures forall k :: 0 <= k < |PercentBytes(bs)| ==>
      PercentBytes(bs)[k] == '%' || ('0' <= PercentBytes(bs)[k] <= '9') || ('A' <= PercentBytes(bs)[k] <= 'F')
  {
    if bs != [] {
      PercentEncodedChars(bs[1..]);
      var b := bs[0];
      assert IsByte(b);
      var r := PercentBytes(bs);
      var tail := PercentBytes(bs[1..]);
      assert r == ['%', HexDigit(b / 16), HexDigit(b % 16)] + tail;
      assert forall k :: 3 <= k < |r| ==> r[k] == tail[k - 3];
    }
  }

  /** The serialization of a name or a value. */
  function Encode(s: string): (r: string)
    ensures forall k :: 0 <= k < |r| ==> Encoded(r[k])
  {
    if s == [] then []
    else
      var head, tail := EncodeChar(s[0]), Encode(s[1..]);
      assert forall k :: |head| <= k < |head| + |tail| ==> (head + tail)[k] == tail[k - |head|];
      head + tail
  }

  function PrependBytes(bs: seq<int>, r: Option<seq<int>>): Option<seq<int>> {
    if r.None? then None else Some(bs + r.value)
  }

  /** The bytes serialized text stands for; fails on text the serializer cannot write. */
  function FormBytes(s: string): Option<seq<int>> {
    if s == [] then Some([])
    else if s[0] == '+' then PrependBytes([0x20], FormBytes(s[1..]))
    else if s[0] == '%' then
      if |s| < 3 || HexValue(s[1]).None? || HexValue(s[2]).None? then None
      else PrependBytes([HexValue(s[1]).value * 16 + HexValue(s[2]).value], FormBytes(s[3..]))
    else if Unreserved(s[0]) then PrependBytes([s[0] as int], FormBytes(s[1..]))
    else None
  }

  lemma PrependBytesAssoc(a: seq<int>, b: seq<int>, r: Option<seq<int>>)
    ensures PrependBytes(a, PrependBytes(b, r)) == PrependBytes(a + b, r)
  {
    if r.Some? {
      assert a + (b + r.value) == (a + b) + r.value;
    }
  }

  /** One `%XX` group reads back as its byte. */
  lemma FormBytesPercentByte(b: int, t: string)
    requires IsByte(b)
    ensures FormBytes(['%', HexDigit(b / 16), HexDigit(b % 16)] + t) == PrependBytes([b], FormBytes(t))
  {
    var s := ['%', HexDigit(b / 16), HexDigit(b % 16)] + t;
    HexValueOfDigit(b / 16);
    HexValueOfDigit(b % 16);
    assert s[0] == '%' && s[1] == HexDigit(b / 16) && s[2] == HexDigit(b % 16) && s[3..] == t;
  }

  lemma {:induction false} FormBytesPercent(bs: seq<int>, rest: string)
    requires forall k :: 0 <= k < |bs| ==> IsByte(bs[k])
    ensures FormBytes(PercentBytes(bs) + rest) == PrependBytes(bs, FormBytes(rest))
  {
    if bs == [] {
      assert PercentBytes(bs) + rest == rest;
      assert FormBytes(rest).Some? ==> [] + FormBytes(rest).value == FormBytes(rest).value;
    } else {
      var b := bs[0];
      assert IsByte(b);
      var t := PercentBytes(bs[1..]) + rest;
      assert PercentBytes(bs) + rest == ['%', HexDigit(b / 16), HexDigit(b % 16)] + t;
      FormBytesPercentByte(b, t);
      FormBytesPercent(bs[1..], rest);
      PrependBytesAssoc([b], bs[1..], FormBytes(rest));
      assert [b] + bs[1..] == bs;
    }
  }

  lemma FormBytesChar(c: char, rest: string)
    ensures FormBytes(EncodeChar(c) + rest) == PrependBytes(Utf8(c), FormBytes(rest))
  {
    if Unreserved(c) {
      assert ([c] + rest)[1..] == rest;
    } else if c == ' ' {
      assert ("+" + rest)[1..] == rest;
    } else {
      FormBytesPercent(Utf8(c), rest);
    }
  }

  /** The bytes of serialized text are the UTF-8 encoding of what was serialized. */
  lemma {:induction false} FormBytesOfEncode(s: string)
    ensures FormBytes(Encode(s)) == Some(Utf8Encode(s))
  {
    if s != [] {
      FormBytesOfEncode(s[1..]);
      FormBytesChar(s[0], Encode(s[1..]));
    }
  }

  /** Decodes serialized text. */
  function Decode(s: string): Option<string> {
    var bs := FormBytes(s);
    if bs.None? then None else Utf8Decode(bs.value)
  }

  /** Decoding undoes the serialization of a name or a value. */
  lemma DecodeEncode(s: string)
    ensures Decode(Encode(s)) == Some(s)
  {
    FormBytesOfEncode(s);
    Utf8RoundTrip(s);
  }

  // ---------------------------------------------------------------- name-value lists

  function SerializePair(p: (string, string)): string {
    Encode(p.0) + "=" + Encode(p.1)
  }

  /** `new URLSearchParams(pairs).toString()` */
  function Serialize(pairs: seq<(string, string)>): string {
    if pairs == [] then ""
    else if |pairs| == 1 then SerializePair(pairs[0])
    else SerializePair(pairs[0]) + "&" + Serialize(pairs[1..])
  }

  /** Serialized text never contains `|`. */
  lemma {:induction false} SerializeHasNoBar(pairs: seq<(string, string)>)
    ensures '|' !in Serialize(pairs)
  {
    if pairs != [] {
      var p := pairs[0];
      assert '|' !in Encode(p.0) && '|' !in Encode(p.1);
      if |pairs| > 1 {
        SerializeHasNoBar(pairs[1..]);
      }
    }
  }

  function ParsePair(s: string): Option<(string, string)> {
    var parts := Split(s, '=');
    if |parts| != 2 then None
    else
      var name, value := Decode(parts[0]), Decode(parts[1]);
      if name.None? || value.None? then None else Some((name.value, value.value))
  }

  function ParsePairs(items: seq<string>): Option<seq<(string, string)>> {
    if items == [] then Some([])
    else
      var p, rest := ParsePair(items[0]), ParsePairs(items[1..]);
      if p.None? || rest.None? then None else Some([p.value] + rest.value)
  }

  /** Reads serialized text back into its list of pairs. */
  function Parse(s: string): Option<seq<(string, string)>> {
    if s == [] then Some([]) else ParsePairs(Split(s, '&'))
  }

  lemma ParseSerializedPair(p: (string, string))
    ensures '&' !in SerializePair(p)
    ensures ParsePair(SerializePair(p)) == Some(p)
  {
    var a, b := Encode(p.0), Encode(p.1);
    assert '=' !in a && '=' !in b && '&' !in a && '&' !in b;
    SplitAtSeparator(a, '=', b);
    SplitWithoutSeparator(a, '=');
    SplitWithoutSeparator(b, '=');
    DecodeEncode(p.0);
    DecodeEncode(p.1);
  }

  /** The pieces between `&` are the serialized pairs. */
  lemma {:induction false} SplitSerialized(pairs: seq<(string, string)>)
    requires pairs != []
    ensures var items := Split(Serialize(pairs), '&');
      |items| == |pairs| && forall k :: 0 <= k < |pairs| ==> items[k] == SerializePair(pairs[k])
  {
    var h := SerializePair(pairs[0]);
    ParseSerializedPair(pairs[0]);
    SplitWithoutSeparator(h, '&');
    if |pairs| > 1 {
      var t := Serialize(pairs[1..]);
      SplitSerialized(pairs[1..]);
      assert Serialize(pairs) == h + ['&'] + t;
      SplitAtSeparator(h, '&', t);
      var items := Split(Serialize(pairs), '&');
      var rest := Split(t, '&');
      assert items == [h] + rest;
      forall k | 0 <= k < |pairs| ensures items[k] == SerializePair(pairs[k]) {
        if k > 0 {
          assert items[k] == rest[k - 1] && pairs[k] == pairs[1..][k - 1];
        }
      }
    }
  }

  lemma {:induction false} ParsePairsOfSerialized(items: seq<string>, pairs: seq<(string, string)>)
    requires |items| == |pairs| && forall k :: 0 <= k < |pairs| ==> items[k] == SerializePair(pairs[k])
    ensures ParsePairs(items) == Some(pairs)
  {
    if pairs != [] {
      ParseSerializedPair(pairs[0]);
      ParsePairsOfSerialized(items[1..], pairs[1..]);
      assert [pairs[0]] + pairs[1..] == pairs;
    }
  }

  /** Parsing undoes serialization: the serialized text determines the pairs, in order. */
  lemma ParseSerialize(pairs: seq<(string, string)>)
    ensures Parse(Serialize(pairs)) == Some(pairs)
  {
    if pairs != [] {
      ParseSerializedPair(pairs[0]);
      assert Serialize(pairs) != [];
      SplitSerialized(pairs);
      ParsePairsOfSerialized(Split(Serialize(pairs), '&'), pairs);
    }
  }

  /** Different lists of pairs serialize differently. */
  lemma SerializeInjective(a: seq<(string, string)>, b: seq<(string, string)>)
    requires Serialize(a) == Serialize(b)
    ensures a == b
  {
    ParseSerialize(a);
    ParseSerialize(b);
  }
}
