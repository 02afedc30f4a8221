/**
  The wire format both directions share: two bytes of message id, two bytes of body length,
  most significant byte first, then the body.
*/
module Frames {
  import opened Bytes

  const HEAD_TOTAL_LEN: nat := 4

  type word = x: int | 0 <= x < 65536

  datatype Message = Message(id: word, body: seq<byte>)

  /** A body whose length the 16-bit field can hold. */
  predicate Fits(m: Message) { |m.body| < 65536 }

  function Word(n: word): (s: seq<byte>)
    ensures |s| == 2
  {
    [n / 256, n % 256]
  }

  function ReadWord(s: seq<byte>, at: nat): word
    requires at + 2 <= |s|
  {
    s[at] as int * 256 + s[at + 1] as int
  }

  function Head(id: word, len: word): (s: seq<byte>)
    ensures |s| == 4
  {
    Word(id) + Word(len)
  }

  /** `slot_send_data`: the length is cast to 16 bits, the body is appended whole. */
  function Encode(m: Message): seq<byte> { Head(m.id, |m.body| % 65536) + m.body }

  function Stream(ms: seq<Message>): seq<byte> {
    if ms == [] then [] else Encode(ms[0]) + Stream(ms[1..])
  }

  lemma ReadWordInverse(n: word)
    ensures ReadWord(Word(n), 0) == n
  {
  }

  /** Both words of a frame are in network byte order, and the body follows. */
  lemma NetworkOrder(m: Message)
    requires Fits(m)
    ensures var s := Encode(m);
      && |s| == 4 + |m.body| && s[4..] == m.body
      && s[0] as int * 256 + s[1] as int == m.id && s[2] as int * 256 + s[3] as int == |m.body|
  {
  }

  /** A header determines the id and the length. */
  lemma HeadReads(id: word, len: word, rest: seq<byte>)
    ensures ReadWord(Head(id, len) + rest, 0) == id && ReadWord(Head(id, len) + rest, 2) == len
  {
    var s := Head(id, len) + rest;
    assert s[0] == Word(id)[0] && s[1] == Word(id)[1] && s[2] == Word(len)[0] && s[3] == Word(len)[1];
    ReadWordInverse(id);
    ReadWordInverse(len);
  }

  lemma HeadOfRead(s: seq<byte>)
    requires |s| == 4
    ensures Head(ReadWord(s, 0), ReadWord(s, 2)) == s
  {
  }

  lemma {:induction false} StreamSnoc(ms: seq<Message>, m: Message)
    ensures Stream(ms + [m]) == Stream(ms) + Encode(m)
  {
    if ms == [] {
      assert ms + [m] == [m] && [m][1..] == [];
      assert Encode(m) + [] == Encode(m) && [] + Encode(m) == Encode(m);
    } else {
      assert (ms + [m])[1..] == ms[1..] + [m];
      StreamSnoc(ms[1..], m);
      assert Encode(ms[0]) + (Stream(ms[1..]) + Encode(m)) == (Encode(ms[0]) + Stream(ms[1..])) + Encode(m);
    }
  }

  lemma {:induction false} StreamAppend(a: seq<Message>, b: seq<Message>)
    ensures Stream(a + b) == Stream(a) + Stream(b)
  {
    if a == [] {
      assert a + b == b;
    } else {
      assert (a + b)[1..] == a[1..] + b;
      StreamAppend(a[1..], b);
      assert Encode(a[0]) + (Stream(a[1..]) + Stream(b)) == (Encode(a[0]) + Stream(a[1..])) + Stream(b);
    }
  }

  /** Equal byte strings that start with frames start with the same frame. */
  lemma FirstFrame(m: Message, n: Message, x: seq<byte>, y: seq<byte>)
    requires Fits(m) && Fits(n) && Encode(m) + x == Encode(n) + y
    ensures m == n && x == y
  {
    HeadReads(m.id, |m.body|, m.body + x);
    HeadReads(n.id, |n.body|, n.body + y);
    assert Encode(m) + x == Head(m.id, |m.body|) + (m.body + x);
    assert Encode(n) + y == Head(n.id, |n.body|) + (n.body + y);
    assert m.body + x == (Encode(m) + x)[4..] == n.body + y;
    assert m.body == (m.body + x)[..|m.body|] == n.body;
    assert x == (m.body + x)[|m.body|..] == y;
  }

  /** Frames are self-delimiting: a list of whole frames at the start of a stream is a prefix of it. */
  lemma {:induction false} StreamPrefix(a: seq<Message>, b: seq<Message>, rest: seq<byte>)
    requires forall m | m in a + b :: Fits(m)
    requires Stream(a) + rest == Stream(b)
    ensures a <= b && rest == Stream(b[|a|..])
  {
    if a == [] {
      assert [] + rest == rest && b[0..] == b;
    } else {
      var x := Stream(a[1..]) + rest;
      assert Stream(a) + rest == Encode(a[0]) + x && |Encode(a[0]) + x| >= 4;
      if b != [] {
        assert a[0] in a + b && b[0] in a + b;
        FirstFrame(a[0], b[0], x, Stream(b[1..]));
        assert forall m | m in a[1..] + b[1..] :: m in a + b;
        StreamPrefix(a[1..], b[1..], rest);
        assert b[1..][|a| - 1..] == b[|a|..];
      }
    }
  }

  /** A non-empty stream starts with the header of its first message. */
  lemma StreamHead(ms: seq<Message>, rest: seq<byte>)
    requires ms != [] && Fits(ms[0])
    ensures |Stream(ms)| >= 4
    ensures ReadWord(Stream(ms) + rest, 0) == ms[0].id && ReadWord(Stream(ms) + rest, 2) == |ms[0].body|
  {
    var head, body, later := Head(ms[0].id, |ms[0].body|), ms[0].body, Stream(ms[1..]);
    Regroup(head, body, later, rest);
    AppendAssociative(head + body, later, rest);
    HeadReads(ms[0].id, |body|, (body + later) + rest);
  }

  function Concat(chunks: seq<seq<byte>>): seq<byte> {
    if chunks == [] then [] else chunks[0] + Concat(chunks[1..])
  }

  /** Composes two steps that keep "bytes before + bytes read == bytes out + bytes after". */
  lemma Chain(p: seq<byte>, c: seq<byte>, q: seq<byte>, a: seq<byte>, d: seq<byte>, b: seq<byte>, e: seq<byte>)
    requires p + c == a + q && q + d == b + e
    ensures p + (c + d) == (a + b) + e
  {
    calc {
      p + (c + d);
      (p + c) + d;
      a + (q + d);
      (a + b) + e;
    }
  }
}
