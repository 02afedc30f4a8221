/** GateServer's percent encoding (section 2.1 of RFC 3986, with + for space) and query parsing. */
module UrlCodec {
  import opened Bytes

  const PERCENT: byte := 37
  const PLUS: byte := 43
  const SPACE: byte := 32
  const AMPERSAND: byte := 38
  const EQUALS: byte := 61
  const QUESTION: byte := 63

  function ToHex(x: byte): byte { (if x > 9 then x as int + 55 else x as int + 48) % 256 }

  /** None where the source asserts. */
  function FromHex(x: byte): Option<byte> {
    if 65 <= x <= 90 then Some(x - 55)
    else if 97 <= x <= 122 then Some(x - 87)
    else if 48 <= x <= 57 then Some(x - 48)
    else None
  }

  /** Letters, digits and - _ . ~ stand for themselves. */
  predicate Unreserved(x: byte) {
    48 <= x <= 57 || 65 <= x <= 90 || 97 <= x <= 122 || x == 45 || x == 95 || x == 46 || x == 126
  }

  function EncodeByte(x: byte): (r: seq<byte>)
    ensures r != []
  {
    if Unreserved(x) then [x]
    else if x == SPACE then [PLUS]
    else [PERCENT, ToHex(x / 16), ToHex(x % 16)]
  }

  function UrlEncoded(s: seq<byte>): seq<byte> {
    if s == [] then [] else EncodeByte(s[0]) + UrlEncoded(s[1..])
  }

  /** None if a % has fewer than two characters behind it, or others than letters and digits. */
  function UrlDecoded(s: seq<byte>): Option<seq<byte>> {
    if s == [] then Some([])
    else if s[0] == PERCENT then
      if |s| < 3 then None
      else Join(FromHex(s[1]), FromHex(s[2]), UrlDecoded(s[3..]))
    else Prepend(if s[0] == PLUS then SPACE else s[0], UrlDecoded(s[1..]))
  }

  function Prepend(x: byte, rest: Option<seq<byte>>): Option<seq<byte>> {
    if rest.Some? then Some([x] + rest.value) else None
  }

  function Join(high: Option<byte>, low: Option<byte>, rest: Option<seq<byte>>): Option<seq<byte>> {
    if high.Some? && low.Some? then Prepend((high.value as int * 16 + low.value as int) % 256, rest) else None
  }

  lemma HexRoundTrip(x: byte)
    ensures FromHex(ToHex(x / 16)) == Some(x / 16) && FromHex(ToHex(x % 16)) == Some(x % 16)
    ensures ToHex(x / 16) != AMPERSAND && ToHex(x / 16) != EQUALS
    ensures ToHex(x % 16) != AMPERSAND && ToHex(x % 16) != EQUALS
  {
  }

  /** The character is this digit, in either case. */
  predicate HexDigit(c: byte, d: int) {
    0 <= d < 16 && (c as char == "0123456789ABCDEF"[d] || c as char == "0123456789abcdef"[d])
  }

  predicate LetterOrDigit(c: byte) {
    'A' <= c as char <= 'Z' || 'a' <= c as char <= 'z' || '0' <= c as char <= '9'
  }

  lemma DigitValue(c: byte, d: int)
    requires HexDigit(c, d)
    ensures FromHex(c) == Some(d)
  {
  }

  lemma DigitWritten(d: byte)
    requires d < 16
    ensures ToHex(d) == "0123456789ABCDEF"[d] as int
  {
  }

  /** A percent sign with two digits, in either case each, is the byte that they write. */
  lemma PercentDecodes(h: byte, l: byte, d: int, e: int, rest: seq<byte>)
    requires HexDigit(h, d) && HexDigit(l, e)
    ensures UrlDecoded([37, h, l] + rest) == Prepend(16 * d + e, UrlDecoded(rest))
  {
    var s := [37, h, l] + rest;
    assert s[3..] == rest && s[1] == h && s[2] == l;
    DigitValue(h, d);
    DigitValue(l, e);
  }

  /** What is written for a byte: itself, a plus sign, or a percent sign and its digits in upper case. */
  lemma EncodedByte(x: byte)
    ensures UrlEncoded([x]) ==
      if LetterOrDigit(x) || x as char in "-_.~" then [x]
      else if x as char == ' ' then ['+' as int]
      else ['%' as int, "0123456789ABCDEF"[x / 16] as int, "0123456789ABCDEF"[x % 16] as int]
  {
    assert [x][1..] == [] && EncodeByte(x) + [] == EncodeByte(x);
    DigitWritten(x / 16);
    DigitWritten(x % 16);
  }

  /** Every percent sign has two letters or digits behind it. */
  ghost predicate WellFormed(s: seq<byte>) {
    forall i | 0 <= i < |s| && s[i] as char == '%' ::
      i + 2 < |s| && LetterOrDigit(s[i + 1]) && LetterOrDigit(s[i + 2])
  }

  lemma WellFormedTail(s: seq<byte>, n: nat)
    requires n <= |s| && forall i | 0 <= i < n && s[i] as char == '%' ::
               i + 2 < |s| && LetterOrDigit(s[i + 1]) && LetterOrDigit(s[i + 2])
    ensures WellFormed(s) <==> WellFormed(s[n..])
  {
    var t := s[n..];
    if WellFormed(t) {
      forall i | 0 <= i < |s| && s[i] as char == '%'
        ensures i + 2 < |s| && LetterOrDigit(s[i + 1]) && LetterOrDigit(s[i + 2])
      {
        if i >= n { assert t[i - n] as char == '%' && t[i - n + 1] == s[i + 1] && t[i - n + 2] == s[i + 2]; }
      }
    }
    if WellFormed(s) {
      forall i | 0 <= i < |t| && t[i] as char == '%'
        ensures i + 2 < |t| && LetterOrDigit(t[i + 1]) && LetterOrDigit(t[i + 2])
      {
        assert s[i + n] as char == '%';
      }
    }
  }

  /** The decoder's assertions hold exactly on well-formed texts. */
  lemma {:induction false} DecodesIff(s: seq<byte>)
    ensures UrlDecoded(s).Some? <==> WellFormed(s)
  {
    if s == [] {
    } else if s[0] == PERCENT {
      if |s| >= 3 && LetterOrDigit(s[1]) && LetterOrDigit(s[2]) {
        WellFormedTail(s, 3);
        DecodesIff(s[3..]);
      } else {
        assert s[0] as char == '%';
      }
    } else {
      WellFormedTail(s, 1);
      DecodesIff(s[1..]);
    }
  }

  lemma DecodeByte(x: byte, rest: seq<byte>)
    ensures UrlDecoded(EncodeByte(x) + rest) == Prepend(x, UrlDecoded(rest))
  {
    var e := EncodeByte(x) + rest;
    assert e[|EncodeByte(x)|..] == rest;
    HexRoundTrip(x);
  }

  /** Decoding undoes encoding, for every byte string. */
  lemma {:induction false} RoundTrip(s: seq<byte>)
    ensures UrlDecoded(UrlEncoded(s)) == Some(s)
  {
    if s == [] {
    } else {
      assert s == [s[0]] + s[1..];
      DecodeByte(s[0], UrlEncoded(s[1..]));
      RoundTrip(s[1..]);
    }
  }

  method UrlEncode(s: seq<byte>) returns (r: seq<byte>)
    ensures r == UrlEncoded(s)
  {
    r := [];
    var i := 0;
    while i < |s|
      invariant 0 <= i <= |s| && UrlEncoded(s) == r + UrlEncoded(s[i..])
    {
      var x := s[i];
      AppendAssociative(r, EncodeByte(x), UrlEncoded(s[i + 1..]));
      assert s[i..][1..] == s[i + 1..];
      if Unreserved(x) {
        r := r + [x];
      } else if x == SPACE {
        r := r + [PLUS];
      } else {
        r := r + [PERCENT, ToHex(x / 16), ToHex(x % 16)];
      }
      i := i + 1;
    }
    assert s[i..] == [];
  }

  function PrependAll(r: seq<byte>, rest: Option<seq<byte>>): Option<seq<byte>> {
    if rest.Some? then Some(r + rest.value) else None
  }

  /** None where an assertion of the source fails. */
  method UrlDecode(s: seq<byte>) returns (o: Option<seq<byte>>)
    ensures o == UrlDecoded(s)
  {
    var r: seq<byte> := [];
    var i := 0;
    PrependEnds(s, UrlDecoded(s));
    assert s[0..] == s;
    while i < |s|
      invariant 0 <= i <= |s| && UrlDecoded(s) == PrependAll(r, UrlDecoded(s[i..]))
    {
      var rest := s[i..];
      if s[i] == PLUS {
        assert rest[1..] == s[i + 1..];
        PrependMore(r, SPACE, UrlDecoded(s[i + 1..]));
        r := r + [SPACE];
      } else if s[i] == PERCENT {
        if !(i + 2 < |s|) { return None; }
        assert rest[3..] == s[i + 3..] && rest[1] == s[i + 1] && rest[2] == s[i + 2];
        var high, low := FromHex(s[i + 1]), FromHex(s[i + 2]);
        if high.None? || low.None? { return None; }
        var x: byte := (high.value as int * 16 + low.value as int) % 256;
        PrependMore(r, x, UrlDecoded(s[i + 3..]));
        r := r + [x];
        i := i + 2;
      } else {
        assert rest[1..] == s[i + 1..];
        PrependMore(r, s[i], UrlDecoded(s[i + 1..]));
        r := r + [s[i]];
      }
      i := i + 1;
    }
    assert s[i..] == [];
    PrependEnds(r, None);
    return Some(r);
  }

  lemma PrependEnds(r: seq<byte>, rest: Option<seq<byte>>)
    ensures PrependAll([], rest) == rest && PrependAll(r, Some([])) == Some(r)
  {
    if rest.Some? { assert [] + rest.value == rest.value; }
    assert r + [] == r;
  }

  lemma PrependMore(r: seq<byte>, x: byte, rest: Option<seq<byte>>)
    ensures PrependAll(r, Prepend(x, rest)) == PrependAll(r + [x], rest)
  {
    if rest.Some? { assert r + ([x] + rest.value) == (r + [x]) + rest.value; }
  }

  // ---------------------------------------------------------------- query parameters

  type Params = map<seq<byte>, seq<byte>>

  datatype Pair = Pair(key: seq<byte>, value: seq<byte>)

  /** The first position of x, or |s|. */
  function Find(s: seq<byte>, x: byte): (k: nat)
    ensures k <= |s| && (k < |s| ==> s[k] == x)
    ensures forall i | 0 <= i < k :: s[i] != x
  {
    if s == [] || s[0] == x then 0 else Find(s[1..], x) + 1
  }

  /** One key=value; a part without = is skipped, a later value replaces an earlier one. */
  function AddPair(part: seq<byte>, params: Params): Option<Params> {
    var e := Find(part, EQUALS);
    if e == |part| then Some(params)
    else
      var key, value := UrlDecoded(part[..e]), UrlDecoded(part[e + 1..]);
      if key.Some? && value.Some? then Some(params[key.value := value.value]) else None
  }

  function ParseQuery(q: seq<byte>, params: Params): Option<Params>
    decreases |q|
  {
    var a := Find(q, AMPERSAND);
    if a < |q| then
      var more := AddPair(q[..a], params);
      if more.Some? then ParseQuery(q[a + 1..], more.value) else None
    else if q == [] then Some(params)
    else AddPair(q, params)
  }

  class HttpConnection {
    var getUrl: seq<byte>
    var getParams: Params

    constructor ()
      ensures getUrl == [] && getParams == map[]
    {
      getUrl, getParams := [], map[];
    }

    /** ok: no assertion of the decoder failed. */
    method PreParseGetParam(target: seq<byte>) returns (ok: bool)
      modifies this
      ensures var m := Find(target, QUESTION);
        && getUrl == target[..m]
        && var parsed := if m == |target| then Some(old(getParams)) else ParseQuery(target[m + 1..], old(getParams));
           ok == parsed.Some? && (ok ==> getParams == parsed.value)
    {
      var m := Find(target, QUESTION);
      if m == |target| {
        getUrl := target;
        return true;
      }
      getUrl := target[..m];
      var q := target[m + 1..];
      ghost var parsed := ParseQuery(q, getParams);
      var a := Find(q, AMPERSAND);
      while a < |q|
        invariant a == Find(q, AMPERSAND) && getUrl == target[..m]
        invariant ParseQuery(q, getParams) == parsed
        decreases |q|
      {
        var added := Add(q[..a]);
        if !added { return false; }
        q := q[a + 1..];
        a := Find(q, AMPERSAND);
      }
      if q != [] {
        var added := Add(q);
        if !added { return false; }
      }
      return true;
    }

    method Add(part: seq<byte>) returns (ok: bool)
      modifies this`getParams
      ensures ok == AddPair(part, old(getParams)).Some?
      ensures getParams == if ok then AddPair(part, old(getParams)).value else old(getParams)
    {
      var e := Find(part, EQUALS);
      if e == |part| { return true; }
      var key := UrlDecode(part[..e]);
      var value := UrlDecode(part[e + 1..]);
      if key.None? || value.None? { return false; }
      getParams := getParams[key.value := value.value];
      return true;
    }
  }

  /** What stands between two & of a query: an encoded pair, or any text without =, as a flag. */
  datatype Part = Field(pair: Pair) | Flag(text: seq<byte>)

  predicate PartOk(part: Part) { part.Flag? ==> AMPERSAND !in part.text && EQUALS !in part.text }

  predicate PartsOk(parts: seq<Part>) { forall i | 0 <= i < |parts| :: PartOk(parts[i]) }

  /** A query as a client writes it. */
  function QueryOf(parts: seq<Part>): seq<byte> {
    if parts == [] then []
    else if |parts| == 1 then TextOf(parts[0])
    else TextOf(parts[0]) + ['&' as int] + QueryOf(parts[1..])
  }

  function TextOf(part: Part): seq<byte> {
    match part
    case Field(pair) => UrlEncoded(pair.key) + ['=' as int] + UrlEncoded(pair.value)
    case Flag(text) => text
  }

  function Put(part: Part, params: Params): Params {
    if part.Field? then params[part.pair.key := part.pair.value] else params
  }

  function Collected(parts: seq<Part>, params: Params): Params {
    if parts == [] then params else Collected(parts[1..], Put(parts[0], params))
  }

  predicate Plain(s: seq<byte>) { forall i | 0 <= i < |s| :: s[i] != AMPERSAND && s[i] != EQUALS }

  lemma {:induction false} EncodedIsPlain(s: seq<byte>)
    ensures Plain(UrlEncoded(s))
  {
    if s == [] {
    } else {
      EncodedIsPlain(s[1..]);
      HexRoundTrip(s[0]);
    }
  }

  lemma {:induction false} FindAppend(a: seq<byte>, x: byte, b: seq<byte>)
    requires x !in a
    ensures Find(a + [x] + b, x) == |a|
  {
    if a == [] {
    } else {
      assert (a + [x] + b)[1..] == a[1..] + [x] + b;
      FindAppend(a[1..], x, b);
    }
  }

  lemma {:induction false} FindNone(s: seq<byte>, x: byte)
    requires x !in s
    ensures Find(s, x) == |s|
  {
    if s == [] {
    } else {
      FindNone(s[1..], x);
    }
  }

  lemma FieldAdds(pair: Pair, params: Params)
    ensures AddPair(TextOf(Field(pair)), params) == Some(params[pair.key := pair.value])
    ensures AMPERSAND !in TextOf(Field(pair))
  {
    var k, v, t := UrlEncoded(pair.key), UrlEncoded(pair.value), TextOf(Field(pair));
    EncodedIsPlain(pair.key);
    EncodedIsPlain(pair.value);
    FindAppend(k, EQUALS, v);
    RoundTrip(pair.key);
    RoundTrip(pair.value);
    assert t[..|k|] == k && t[|k| + 1..] == v;
  }

  lemma PartAdds(part: Part, params: Params)
    requires PartOk(part)
    ensures AddPair(TextOf(part), params) == Some(Put(part, params)) && AMPERSAND !in TextOf(part)
  {
    if part.Field? { FieldAdds(part.pair, params); } else { FindNone(part.text, EQUALS); }
  }

  /** Parsing recovers every list of pairs, whatever flags stand between them; of two with one key, the last. */
  lemma {:induction false} QueryRoundTrip(parts: seq<Part>, params: Params)
    requires PartsOk(parts)
    ensures ParseQuery(QueryOf(parts), params) == Some(Collected(parts, params))
    decreases |parts|
  {
    if parts != [] {
      var text, more := TextOf(parts[0]), Put(parts[0], params);
      PartAdds(parts[0], params);
      if |parts| == 1 {
        LastPart(parts[0], params);
        assert parts[1..] == [];
      } else {
        var rest := QueryOf(parts[1..]);
        var q := text + [AMPERSAND] + rest;
        FindAppend(text, AMPERSAND, rest);
        assert q[..|text|] == text && q[|text| + 1..] == rest;
        QueryRoundTrip(parts[1..], more);
      }
    }
  }

  lemma LastPart(part: Part, params: Params)
    requires PartOk(part)
    ensures ParseQuery(TextOf(part), params) == Some(Put(part, params))
  {
    PartAdds(part, params);
    FindNone(TextOf(part), AMPERSAND);
  }

  predicate Has(part: Part, key: seq<byte>) { part.Field? && part.pair.key == key }

  /** What the list means: each key has the value of its last pair. */
  lemma {:induction false} CollectedLast(parts: seq<Part>, params: Params, i: nat)
    requires i < |parts| && parts[i].Field?
    requires forall j | i < j < |parts| :: !Has(parts[j], parts[i].pair.key)
    ensures var c := Collected(parts, params);
      parts[i].pair.key in c && c[parts[i].pair.key] == parts[i].pair.value
    decreases |parts|
  {
    if i > 0 {
      CollectedLast(parts[1..], Put(parts[0], params), i - 1);
    } else {
      CollectedOther(parts[1..], Put(parts[0], params), parts[0].pair.key);
    }
  }

  lemma {:induction false} CollectedOther(parts: seq<Part>, params: Params, key: seq<byte>)
    requires forall j | 0 <= j < |parts| :: !Has(parts[j], key)
    ensures key in Collected(parts, params) <==> key in params
    ensures key in params ==> Collected(parts, params)[key] == params[key]
    decreases |parts|
  {
    if parts == [] {
    } else {
      assert !Has(parts[0], key);
      CollectedOther(parts[1..], Put(parts[0], params), key);
    }
  }

  /** A whole request target: the path, and the parameters. */
  lemma {:induction false} TargetRoundTrip(path: seq<byte>, parts: seq<Part>)
    requires '?' as int !in path && PartsOk(parts)
    ensures var target := path + ['?' as int] + QueryOf(parts);
      var m := Find(target, QUESTION);
      target[..m] == path && m < |target| && ParseQuery(target[m + 1..], map[]) == Some(Collected(parts, map[]))
  {
    var target := path + [QUESTION] + QueryOf(parts);
    FindAppend(path, QUESTION, QueryOf(parts));
    assert target[..|path|] == path && target[|path| + 1..] == QueryOf(parts);
    QueryRoundTrip(parts, map[]);
  }
}
