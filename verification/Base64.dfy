/**
  `decode_base64`: pads its input, accepts the URL alphabet, decodes every group of four
  characters to three bytes ('=' counts as digit 0) and truncates by the number of
  characters that are not '='. Its inverse is the encoding of section 4 of RFC 4648.
*/
module Base64 {
  import opened Bytes

  type digit = x: int | 0 <= x < 64

  // ---------------------------------------------------------------- section 4 of RFC 4648

  function DigitChar(d: digit): char {
    if d < 26 then (d + 65) as char
    else if d < 52 then (d + 71) as char
    else if d < 62 then (d - 4) as char
    else if d == 62 then '+' else '/'
  }

  function EncodeGroup(a: byte, b: byte, c: byte): (s: string)
    ensures |s| == 4
  {
    [DigitChar(a / 4), DigitChar(a % 4 * 16 + b / 16), DigitChar(b % 16 * 4 + c / 64), DigitChar(c % 64)]
  }

  function Encode(bytes: seq<byte>): string {
    if |bytes| == 0 then ""
    else if |bytes| == 1 then EncodeGroup(bytes[0], 0, 0)[..2] + "=="
    else if |bytes| == 2 then EncodeGroup(bytes[0], bytes[1], 0)[..3] + "="
    else EncodeGroup(bytes[0], bytes[1], bytes[2]) + Encode(bytes[3..])
  }

  /** The alphabet of section 5. */
  function UrlChar(c: char): char {
    if c == '+' then '-' else if c == '/' then '_' else c
  }

  function Url(s: string): string { seq(|s|, i requires 0 <= i < |s| => UrlChar(s[i])) }

  /** Without the padding. */
  function Strip(s: string): string {
    if |s| > 0 && s[|s| - 1] == '=' then Strip(s[..|s| - 1]) else s
  }

  // ---------------------------------------------------------------- what decode_base64 computes

  /** The lookup table of `binary_from_base64`; any other character throws. */
  function CharDigit(c: char): Option<digit> {
    if 'A' <= c <= 'Z' then Some(c as int - 65)
    else if 'a' <= c <= 'z' then Some(c as int - 71)
    else if '0' <= c <= '9' then Some(c as int + 4)
    else if c == '+' then Some(62)
    else if c == '/' then Some(63)
    else if c == '=' then Some(0)
    else None
  }

  function DecodeGroup(p: digit, q: digit, r: digit, s: digit): seq<byte> {
    [p * 4 + q / 16, q % 16 * 16 + r / 4, r % 4 * 64 + s]
  }

  function QuadDigits(s: string): Option<seq<byte>>
    requires |s| == 4
  {
    match (CharDigit(s[0]), CharDigit(s[1]), CharDigit(s[2]), CharDigit(s[3]))
    case (Some(p), Some(q), Some(r), Some(t)) => Some(DecodeGroup(p, q, r, t))
    case _ => None
  }

  /** All groups, including the bytes that '=' digits produce. */
  function Groups(s: string): Option<seq<byte>> {
    if |s| < 4 then Some([])
    else match (QuadDigits(s[..4]), Groups(s[4..]))
      case (Some(head), Some(tail)) => Some(head + tail)
      case _ => None
  }

  function PadCount(n: nat): nat { (4 - n % 4) % 4 }

  function Pad(s: string): string { s + seq(PadCount(|s|), _ => '=') }

  function StandardChar(c: char): char {
    if c == '-' then '+' else if c == '_' then '/' else c
  }

  function Standard(s: string): string { seq(|s|, i requires 0 <= i < |s| => StandardChar(s[i])) }

  function ValidChars(s: string): nat {
    if s == "" then 0 else (if s[0] != '=' then 1 else 0) + ValidChars(s[1..])
  }

  /** `std::string::resize`. */
  function Resize(out: seq<byte>, n: nat): seq<byte> {
    if n <= |out| then out[..n] else out + seq(n - |out|, _ => 0)
  }

  function Decode(s: string): Option<seq<byte>> {
    if s == "" then Some([]) else
    var tmp := Standard(Pad(s));
    match Groups(tmp)
    case Some(out) => Some(Resize(out, ValidChars(tmp) * 3 / 4))
    case None => None
  }

  lemma {:induction false} ValidCharsSplit(a: string, b: string)
    ensures ValidChars(a + b) == ValidChars(a) + ValidChars(b)
  {
    if a == "" {
      assert a + b == b;
    } else {
      assert (a + b)[1..] == a[1..] + b;
      ValidCharsSplit(a[1..], b);
    }
  }

  function Joined(a: Option<seq<byte>>, b: Option<seq<byte>>): Option<seq<byte>> {
    if a.Some? && b.Some? then Some(a.value + b.value) else None
  }

  lemma {:induction false} GroupsSnoc(s: string, n: nat, quad: string)
    requires |s| == 4 * n && |quad| == 4
    ensures Groups(s + quad) == Joined(Groups(s), QuadDigits(quad))
  {
    if n == 0 {
      assert s + quad == quad && quad[..4] == quad && quad[4..] == "";
      if QuadDigits(quad).Some? { assert QuadDigits(quad).value + [] == [] + QuadDigits(quad).value; }
    } else {
      assert (s + quad)[..4] == s[..4] && (s + quad)[4..] == s[4..] + quad;
      GroupsSnoc(s[4..], n - 1, quad);
      if QuadDigits(s[..4]).Some? && Groups(s[4..]).Some? && QuadDigits(quad).Some? {
        var h, m, t := QuadDigits(s[..4]).value, Groups(s[4..]).value, QuadDigits(quad).value;
        assert h + (m + t) == (h + m) + t;
      }
    }
  }

  /** `std::replace` on the whole buffer. */
  method ReplaceAll(tmp: array<char>, from: char, to: char)
    modifies tmp
    ensures forall k | 0 <= k < tmp.Length :: tmp[k] == if old(tmp[k]) == from then to else old(tmp[k])
  {
    var i := 0;
    while i < tmp.Length
      invariant 0 <= i <= tmp.Length
      invariant forall k | 0 <= k < tmp.Length ::
        tmp[k] == if k < i && old(tmp[k]) == from then to else old(tmp[k])
    {
      if tmp[i] == from { tmp[i] := to; }
      i := i + 1;
    }
  }

  /** The `transform_width` iterator over the buffer; None when a character is invalid. */
  method DecodeGroups(tmp: array<char>) returns (r: Option<seq<byte>>)
    requires tmp.Length % 4 == 0
    ensures r == Groups(tmp[..])
  {
    var out: seq<byte> := [];
    var n := tmp.Length / 4;
    var g := 0;
    while g < n
      invariant 0 <= g <= n && tmp.Length == 4 * n
      invariant Groups(tmp[..4 * g]) == Some(out)
    {
      var i := 4 * g;
      var quad := QuadDigits(tmp[i..i + 4]);
      GroupsSnoc(tmp[..i], g, tmp[i..i + 4]);
      assert tmp[..i] + tmp[i..i + 4] == tmp[..i + 4];
      if quad.None? {
        assert tmp[..][..i + 4] == tmp[..i + 4];
        NoneStays(tmp[..], n, g + 1);
        return None;
      }
      out := out + quad.value;
      g := g + 1;
    }
    assert tmp[..4 * n] == tmp[..];
    return Some(out);
  }

  /** `std::count_if` of the characters that are not '='. */
  method CountValid(tmp: array<char>) returns (valid: nat)
    ensures valid == ValidChars(tmp[..])
  {
    valid := 0;
    var i := 0;
    while i < tmp.Length
      invariant 0 <= i <= tmp.Length
      invariant valid == ValidChars(tmp[..i])
    {
      ValidCharsSplit(tmp[..i], [tmp[i]]);
      assert tmp[..i] + [tmp[i]] == tmp[..i + 1];
      if tmp[i] != '=' { valid := valid + 1; }
      i := i + 1;
    }
    assert tmp[..i] == tmp[..];
  }

  /** The function as written: `tmp` is padded and rewritten in place, then decoded and truncated. */
  method DecodeBase64(val: string) returns (r: Option<seq<byte>>)
    ensures r == Decode(val)
  {
    if |val| == 0 { return Some([]); }
    var tmp := new char[|val| + PadCount(|val|)](i => if 0 <= i < |val| then val[i] else '=');
    assert tmp[..] == Pad(val);
    ReplaceAll(tmp, '-', '+');
    ReplaceAll(tmp, '_', '/');
    assert tmp[..] == Standard(Pad(val));
    var out := DecodeGroups(tmp);
    if out.None? { return None; }
    var valid := CountValid(tmp);
    return Some(Resize(out.value, valid * 3 / 4));
  }

  /** An invalid character in a prefix makes the whole string invalid. */
  lemma {:induction false} NoneStays(s: string, n: nat, g: nat)
    requires |s| == 4 * n && g <= n && Groups(s[..4 * g]) == None
    ensures Groups(s) == None
    decreases n - g
  {
    if g == n {
      assert s[..4 * g] == s;
    } else {
      var i := 4 * g;
      GroupsSnoc(s[..i], g, s[i..i + 4]);
      assert s[..i] + s[i..i + 4] == s[..i + 4];
      NoneStays(s, n, g + 1);
    }
  }

  // ---------------------------------------------------------------- round trip

  lemma CharDigitInverse(d: digit)
    ensures CharDigit(DigitChar(d)) == Some(d)
    ensures DigitChar(d) !in "=-_"
  {
  }

  lemma SplitBytes(a: byte, b: byte, c: byte)
    ensures 0 <= a / 4 < 64 && 0 <= a % 4 * 16 + b / 16 < 64 && 0 <= b % 16 * 4 + c / 64 < 64 && 0 <= c % 64 < 64
    ensures DecodeGroup(a / 4, a % 4 * 16 + b / 16, b % 16 * 4 + c / 64, c % 64) == [a, b, c]
  {
    assert (a % 4 * 16 + b / 16) / 16 == a % 4 && (a % 4 * 16 + b / 16) % 16 == b / 16;
    assert (b % 16 * 4 + c / 64) / 4 == b % 16 && (b % 16 * 4 + c / 64) % 4 == c / 64;
  }

  lemma GroupInverse(a: byte, b: byte, c: byte)
    ensures QuadDigits(EncodeGroup(a, b, c)) == Some([a, b, c])
    ensures forall k | 0 <= k < 4 :: EncodeGroup(a, b, c)[k] != '='
  {
    SplitBytes(a, b, c);
    CharDigitInverse(a / 4);
    CharDigitInverse(a % 4 * 16 + b / 16);
    CharDigitInverse(b % 16 * 4 + c / 64);
    CharDigitInverse(c % 64);
  }

  lemma {:induction false} ValidCharsAll(s: string)
    requires forall k | 0 <= k < |s| :: s[k] != '='
    ensures ValidChars(s) == |s|
  {
    if s == "" {
    } else {
      ValidCharsAll(s[1..]);
    }
  }

  /** A group whose last characters are 'A', that is 0, decodes alike with '=' in their place. */
  lemma PaddedGroup(full: string, n: nat, bytes: seq<byte>)
    requires |full| == 4 && 1 <= n <= 2 && QuadDigits(full) == Some(bytes)
    requires (forall k | 0 <= k < 4 :: full[k] != '=') && full[3] == 'A' && (n == 1 ==> full[2] == 'A')
    ensures var s := full[..n + 1] + (if n == 1 then "==" else "=");
      Groups(s) == Some(bytes) && ValidChars(s) == n + 1
  {
    var end := if n == 1 then "==" else "=";
    var s := full[..n + 1] + end;
    assert QuadDigits(s) == QuadDigits(full);
    assert s[..4] == s && s[4..] == "";
    assert bytes + [] == bytes;
    ValidCharsSplit(full[..n + 1], end);
    ValidCharsAll(full[..n + 1]);
    assert end[1..] == (if n == 1 then "=" else "") && (n == 1 ==> end[1..][1..] == "");
  }

  lemma FrontGroup(quad: string, rest: string, bytes: seq<byte>)
    requires |quad| == 4 && QuadDigits(quad) == Some(bytes) && Groups(rest).Some?
    requires forall k | 0 <= k < 4 :: quad[k] != '='
    ensures Groups(quad + rest) == Some(bytes + Groups(rest).value)
    ensures ValidChars(quad + rest) == 4 + ValidChars(rest)
  {
    assert (quad + rest)[..4] == quad && (quad + rest)[4..] == rest;
    ValidCharsSplit(quad, rest);
    ValidCharsAll(quad);
  }

  lemma EncodeSplit(bytes: seq<byte>) returns (quad: string)
    requires |bytes| >= 3
    ensures |quad| == 4 && Encode(bytes) == quad + Encode(bytes[3..])
    ensures QuadDigits(quad) == Some(bytes[..3]) && forall k | 0 <= k < 4 :: quad[k] != '='
  {
    quad := EncodeGroup(bytes[0], bytes[1], bytes[2]);
    GroupInverse(bytes[0], bytes[1], bytes[2]);
    assert bytes[..3] == [bytes[0], bytes[1], bytes[2]];
  }

  lemma EncodeFront(bytes: seq<byte>)
    requires |bytes| >= 3 && Groups(Encode(bytes[3..])).Some?
    ensures Groups(Encode(bytes)) == Some(bytes[..3] + Groups(Encode(bytes[3..])).value)
    ensures ValidChars(Encode(bytes)) == 4 + ValidChars(Encode(bytes[3..]))
  {
    var quad := EncodeSplit(bytes);
    FrontGroup(quad, Encode(bytes[3..]), bytes[..3]);
  }

  /** The number of groups that n bytes take. */
  function Thirds(n: nat): nat { if n == 0 then 0 else if n < 3 then 1 else 1 + Thirds(n - 3) }

  /** The decoded groups start with the bytes, and the count of valid characters gives their number. */
  lemma {:induction false} GroupsEncode(bytes: seq<byte>)
    ensures Groups(Encode(bytes)).Some? && bytes <= Groups(Encode(bytes)).value
    ensures ValidChars(Encode(bytes)) == |bytes| + Thirds(|bytes|)
  {
    if |bytes| == 1 {
      GroupInverse(bytes[0], 0, 0);
      PaddedGroup(EncodeGroup(bytes[0], 0, 0), 1, [bytes[0], 0, 0]);
    } else if |bytes| == 2 {
      GroupInverse(bytes[0], bytes[1], 0);
      PaddedGroup(EncodeGroup(bytes[0], bytes[1], 0), 2, [bytes[0], bytes[1], 0]);
    } else if |bytes| >= 3 {
      var rest := bytes[3..];
      GroupsEncode(rest);
      assert bytes == bytes[..3] + rest;
      EncodeFront(bytes);
    }
  }

  lemma {:induction false} TruncationArithmetic(n: nat)
    ensures (n + Thirds(n)) * 3 / 4 == n
  {
    if n < 3 {
    } else {
      TruncationArithmetic(n - 3);
    }
  }

  /** How a sender may write the encoding: either alphabet, with or without the padding. */
  predicate Written(v: string, bytes: seq<byte>) {
    || v == Encode(bytes) || v == Url(Encode(bytes))
    || v == Strip(Encode(bytes)) || v == Url(Strip(Encode(bytes)))
  }

  lemma {:induction false} EncodeChars(bytes: seq<byte>)
    ensures '-' !in Encode(bytes) && '_' !in Encode(bytes)
  {
    if |bytes| > 0 {
      forall d: digit { CharDigitInverse(d); }
    }
    if |bytes| >= 3 { EncodeChars(bytes[3..]); }
  }

  /** The number of '=' after the encoding of n bytes. */
  function PadLength(n: nat): (k: nat)
    ensures k < 3
  {
    if n == 0 then 0 else if n < 3 then 3 - n else PadLength(n - 3)
  }

  predicate EndsInPadding(s: string, k: nat) {
    && k <= |s|
    && (forall i | |s| - k <= i < |s| :: s[i] == '=')
    && (|s| > k ==> s[|s| - k - 1] != '=')
  }

  /** Where the padding of an encoding starts. */
  lemma {:induction false} EncodePadding(bytes: seq<byte>)
    ensures EndsInPadding(Encode(bytes), PadLength(|bytes|))
  {
    if |bytes| == 1 {
      GroupInverse(bytes[0], 0, 0);
    } else if |bytes| == 2 {
      GroupInverse(bytes[0], bytes[1], 0);
    } else if |bytes| >= 3 {
      EncodePadding(bytes[3..]);
      var quad := EncodeSplit(bytes);
      PaddingOf(quad, Encode(bytes[3..]), PadLength(|bytes|));
    }
  }

  lemma PaddingOf(quad: string, rest: string, k: nat)
    requires |quad| == 4 && quad[3] != '=' && EndsInPadding(rest, k)
    ensures EndsInPadding(quad + rest, k)
  {
  }

  lemma {:induction false} StripTail(s: string, k: nat)
    requires k <= |s| && (forall i | |s| - k <= i < |s| :: s[i] == '=')
    requires |s| > k ==> s[|s| - k - 1] != '='
    ensures Strip(s) == s[..|s| - k]
  {
    if k == 0 {
      assert s[..|s|] == s;
    } else {
      var t := s[..|s| - 1];
      StripTail(t, k - 1);
      assert t[..|t| - (k - 1)] == s[..|s| - k];
    }
  }

  /** The four forms become the same buffer, provided only the padding was stripped. */
  lemma StandardPad(s: string, k: nat, v: string)
    requires |s| % 4 == 0 && k < 4 && EndsInPadding(s, k) && '-' !in s && '_' !in s
    requires v == s || v == Url(s) || v == s[..|s| - k] || v == Url(s[..|s| - k])
    ensures Standard(Pad(v)) == s
  {
    assert |Pad(v)| == |s|;
    forall i | 0 <= i < |s| ensures Standard(Pad(v))[i] == s[i] {
      assert s[i] in s;
    }
  }

  /** What decoding needs to know about a buffer `s` that encodes the bytes with `k` characters of padding. */
  ghost predicate Encodes(s: string, k: nat, bytes: seq<byte>) {
    && |s| % 4 == 0 && k < 4 && EndsInPadding(s, k) && '-' !in s && '_' !in s && Strip(s) == s[..|s| - k]
    && Groups(s).Some? && bytes <= Groups(s).value && ValidChars(s) * 3 / 4 == |bytes|
  }

  lemma EncodeEncodes(bytes: seq<byte>)
    ensures Encodes(Encode(bytes), PadLength(|bytes|), bytes)
  {
    GroupsEncode(bytes);
    EncodeChars(bytes);
    EncodePadding(bytes);
    EncodeLength(bytes);
    CollectEncodes(Encode(bytes), PadLength(|bytes|), bytes);
  }

  lemma CollectEncodes(s: string, k: nat, bytes: seq<byte>)
    requires |s| % 4 == 0 && k < 4 && EndsInPadding(s, k) && '-' !in s && '_' !in s
    requires Groups(s).Some? && bytes <= Groups(s).value && ValidChars(s) == |bytes| + Thirds(|bytes|)
    ensures Encodes(s, k, bytes)
  {
    TruncationArithmetic(|bytes|);
    StripTail(s, k);
  }

  lemma DecodeForm(s: string, k: nat, v: string, bytes: seq<byte>)
    requires Encodes(s, k, bytes) && (v == "" ==> s == "")
    requires v == s || v == Url(s) || v == Strip(s) || v == Url(Strip(s))
    ensures Decode(v) == Some(bytes)
  {
    StandardPad(s, k, v);
    assert Groups(s).value[..|bytes|] == bytes;
  }

  /**
    `decode_base64` undoes the encoding for every byte string, in every form a sender may
    write it.
  */
  lemma RoundTrip(v: string, bytes: seq<byte>)
    requires Written(v, bytes)
    ensures Decode(v) == Some(bytes)
  {
    EncodeEncodes(bytes);
    EncodeLength(bytes);
    assert v == "" ==> Encode(bytes) == "";
    DecodeForm(Encode(bytes), PadLength(|bytes|), v, bytes);
  }

  lemma Quads(n: nat)
    ensures (n + 2) / 3 * 4 % 4 == 0
    ensures n >= 3 ==> (n + 2) / 3 * 4 == 4 + (n - 3 + 2) / 3 * 4
    ensures n < 3 ==> (n + 2) / 3 * 4 == if n == 0 then 0 else 4
  {
  }

  lemma {:induction false} EncodeLength(bytes: seq<byte>)
    ensures |Encode(bytes)| == (|bytes| + 2) / 3 * 4 && |Encode(bytes)| % 4 == 0
  {
    if |bytes| < 3 {
      Quads(|bytes|);
    } else {
      EncodeLength(bytes[3..]);
      Quads(|bytes|);
      assert |Encode(bytes)| == 4 + |Encode(bytes[3..])|;
    }
  }

  /** A 32768-byte chunk leaves 21843 bytes of the 16-bit frame length for the other fields. */
  lemma ChunkLength(chunk: seq<byte>)
    requires |chunk| == 32768
    ensures |Encode(chunk)| == 43692 && 65535 - |Encode(chunk)| == 21843
  {
    EncodeLength(chunk);
    assert (|chunk| + 2) / 3 == 10923;
  }

  // ---------------------------------------------------------------- by the tables of RFC 4648

  predicate LetterOrDigit(c: char) { 'A' <= c <= 'Z' || 'a' <= c <= 'z' || '0' <= c <= '9' }

  /** Table 1. */
  lemma Alphabet(d: digit)
    ensures d < 26 ==> DigitChar(d) as int == 'A' as int + d
    ensures 26 <= d < 52 ==> DigitChar(d) as int == 'a' as int + (d - 26)
    ensures 52 <= d < 62 ==> DigitChar(d) as int == '0' as int + (d - 52)
    ensures DigitChar(62) == '+' && DigitChar(63) == '/'
  {
  }

  /** The decoder reads the digits of that table, and '=' as a 0; anything else is an error. */
  lemma CharDigitIs(c: char, d: digit)
    ensures CharDigit(c) == Some(d) <==> c == DigitChar(d) || (c == '=' && d == 0)
    ensures CharDigit(c).None? <==> !LetterOrDigit(c) && c !in "+/="
  {
  }

  /** Four digits and three bytes are the same 24 bits. */
  lemma GroupBits(p: digit, q: digit, r: digit, t: digit)
    ensures var g := DecodeGroup(p, q, r, t);
      |g| == 3 && (g[0] as int * 256 + g[1] as int) * 256 + g[2] as int == ((p * 64 + q) * 64 + r) * 64 + t
  {
    assert q == q / 16 * 16 + q % 16 && r == r / 4 * 4 + r % 4;
  }

  /** Three of the test vectors of section 10. */
  lemma TestVectors()
    ensures Encode(['f' as int]) == "Zg==" && Encode(['f' as int, 'o' as int]) == "Zm8="
    ensures Encode(['f' as int, 'o' as int, 'o' as int]) == "Zm9v"
  {
    assert Encode([]) == "";
  }

  // ---------------------------------------------------------------- what decodes at all

  /** A character of either alphabet, or padding. */
  predicate Readable(c: char) { LetterOrDigit(c) || c in "+/-_=" }

  predicate AllDigits(s: string) { forall i | 0 <= i < |s| :: CharDigit(s[i]).Some? }

  lemma {:induction false} GroupsIff(s: string, n: nat)
    requires |s| == 4 * n
    ensures Groups(s).Some? <==> AllDigits(s)
    ensures Groups(s).Some? ==> |Groups(s).value| == 3 * n
  {
    if n > 0 {
      GroupsIff(s[4..], n - 1);
      assert s[..4] + s[4..] == s;
      DigitsSplit(s[..4], s[4..]);
      QuadIff(s[..4]);
    }
  }

  lemma DigitsSplit(a: string, b: string)
    ensures AllDigits(a + b) <==> AllDigits(a) && AllDigits(b)
  {
    if AllDigits(a + b) {
      forall i | 0 <= i < |a| ensures CharDigit(a[i]).Some? { assert (a + b)[i] == a[i]; }
      forall i | 0 <= i < |b| ensures CharDigit(b[i]).Some? { assert (a + b)[|a| + i] == b[i]; }
    }
  }

  lemma QuadIff(s: string)
    requires |s| == 4
    ensures QuadDigits(s).Some? <==> AllDigits(s)
    ensures QuadDigits(s).Some? ==> |QuadDigits(s).value| == 3
  {
    if AllDigits(s) {
      assert CharDigit(s[0]).Some? && CharDigit(s[1]).Some? && CharDigit(s[2]).Some? && CharDigit(s[3]).Some?;
    }
  }

  lemma ReadableIff(c: char)
    ensures CharDigit(StandardChar(c)).Some? <==> Readable(c)
  {
    CharDigitIs(StandardChar(c), 0);
  }

  lemma PaddedDigits(s: string)
    ensures AllDigits(Standard(Pad(s))) <==> forall i | 0 <= i < |s| :: Readable(s[i])
  {
    var t := Standard(Pad(s));
    forall i | 0 <= i < |s| ensures CharDigit(t[i]).Some? <==> Readable(s[i]) {
      ReadableIff(s[i]);
      assert t[i] == StandardChar(s[i]);
    }
    forall i | |s| <= i < |t| ensures CharDigit(t[i]).Some? {
      assert t[i] == '=';
    }
  }

  lemma {:induction false} StandardKeepsValid(s: string)
    ensures ValidChars(Standard(s)) == ValidChars(s)
  {
    if s == "" {
    } else {
      assert Standard(s)[1..] == Standard(s[1..]);
      StandardKeepsValid(s[1..]);
    }
  }

  lemma {:induction false} PaddingIsNotValid(n: nat)
    ensures ValidChars(seq(n, _ => '=')) == 0
  {
    if n > 0 {
      assert seq(n, _ => '=')[1..] == seq(n - 1, _ => '=');
      PaddingIsNotValid(n - 1);
    }
  }

  lemma {:induction false} ValidCharsBound(s: string)
    ensures ValidChars(s) <= |s|
  {
    if s == "" {
    } else {
      ValidCharsBound(s[1..]);
    }
  }

  /**
    Any text of readable characters decodes, and no other: to three bytes for every four characters
    that are not padding, wherever the padding stands.
  */
  lemma DecodesIff(s: string)
    ensures Decode(s).Some? <==> forall i | 0 <= i < |s| :: Readable(s[i])
    ensures Decode(s).Some? ==> |Decode(s).value| == ValidChars(s) * 3 / 4
  {
    if s != "" {
      var t, n := Standard(Pad(s)), (|s| + PadCount(|s|)) / 4;
      assert |t| == 4 * n;
      GroupsIff(t, n);
      PaddedDigits(s);
      StandardKeepsValid(Pad(s));
      ValidCharsSplit(s, seq(PadCount(|s|), _ => '='));
      PaddingIsNotValid(PadCount(|s|));
      ValidCharsBound(t);
    }
  }
}
