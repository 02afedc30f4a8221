/**
  The receiving half of `Session`: `AsyncReadHead`, `AsyncReadBody` and the `AsyncReadLen`
  chain, one completion of `async_read_some` at a time.
*/
module ServerReceiver {
  import opened Bytes
  import opened Frames

  /** `MAX_LENGTH`, the size of `_data`. */
  const MAX_LENGTH: nat := 2097152

  /** What reaches `PustMsg`: the id read as a 16-bit signed number. */
  datatype Posted = Posted(id: int, body: seq<byte>)

  /** The `short` with the same 16 bits. */
  function Short(n: word): (r: int)
    ensures -32768 <= r < 32768 && (r - n) % 65536 == 0
  {
    if n < 32768 then n else n - 65536
  }

  /** The same body under the same 16 bits of id. */
  predicate Means(m: Message, p: Posted) {
    -32768 <= p.id < 32768 && (p.id - m.id) % 65536 == 0 && p.body == m.body
  }

  function Delivered(m: Message): (p: Posted)
    ensures Means(m, p)
  {
    Posted(Short(m.id), m.body)
  }

  function AllDelivered(ms: seq<Message>): (ps: seq<Posted>)
    ensures |ps| == |ms| && forall i | 0 <= i < |ms| :: Means(ms[i], ps[i])
  {
    seq(|ms|, i requires 0 <= i < |ms| => Delivered(ms[i]))
  }

  /** The read in progress: `total` bytes of a header or of the body of `id`, of which `got` arrived. */
  datatype Recv = Recv(inBody: bool, id: word, total: nat, got: seq<byte>)

  const START := Recv(false, 0, HEAD_TOTAL_LEN, [])

  predicate Ok(r: Recv) {
    && |r.got| <= r.total < 65536
    && (!r.inBody ==> r.id == 0 && r.total == 4 && |r.got| < 4)
    && (r.inBody && r.total > 0 ==> |r.got| < r.total)
  }

  /** `async_read_some` fills 1 to `total - read_len` bytes; a read of no bytes completes at once. */
  predicate Completion(r: Recv, chunk: seq<byte>) {
    |chunk| <= r.total - |r.got| && (|r.got| < r.total ==> |chunk| > 0)
  }

  /** One byte at a time, all that is missing at once, and, for an empty body, nothing: all of these may arrive. */
  lemma Completions(r: Recv, chunk: seq<byte>)
    requires Ok(r)
    ensures |chunk| == r.total - |r.got| ==> Completion(r, chunk)
    ensures |chunk| == 1 && |r.got| < r.total ==> Completion(r, chunk)
    ensures Completion(r, []) <==> |r.got| == r.total
    ensures Completion(r, chunk) ==> |r.got| + |chunk| <= r.total
  {
  }

  /** One completion: the next read and the message that was posted, if any. */
  function OnRead(r: Recv, chunk: seq<byte>): (o: (Recv, seq<Message>))
    requires Ok(r) && Completion(r, chunk)
    ensures Ok(o.0)
  {
    var got := r.got + chunk;
    if |got| < r.total then (r.(got := got), [])
    else if !r.inBody then (Recv(true, ReadWord(got, 0), ReadWord(got, 2), []), [])
    else (START, [Message(r.id, got)])
  }

  /** The bytes of the frame that is not complete yet. */
  function Partial(r: Recv): seq<byte>
    requires Ok(r)
  {
    if r.inBody then Head(r.id, r.total) + r.got else r.got
  }

  predicate Legal(r: Recv, chunks: seq<seq<byte>>)
    requires Ok(r)
    decreases |chunks|
  {
    chunks == [] || (Completion(r, chunks[0]) && Legal(OnRead(r, chunks[0]).0, chunks[1..]))
  }

  function Feed(r: Recv, chunks: seq<seq<byte>>): (Recv, seq<Message>)
    requires Ok(r) && Legal(r, chunks)
    decreases |chunks|
  {
    if chunks == [] then (r, []) else
    var (r', ms) := OnRead(r, chunks[0]);
    var (end, rest) := Feed(r', chunks[1..]);
    (end, ms + rest)
  }

  /** Nothing is lost, repeated or reordered: bytes before plus bytes read are frames posted plus bytes pending. */
  lemma OnReadBytes(r: Recv, chunk: seq<byte>)
    requires Ok(r) && Completion(r, chunk)
    ensures Ok(OnRead(r, chunk).0) && (forall m | m in OnRead(r, chunk).1 :: Fits(m))
    ensures Partial(r) + chunk == Stream(OnRead(r, chunk).1) + Partial(OnRead(r, chunk).0)
  {
    var got := r.got + chunk;
    var (r', ms) := OnRead(r, chunk);
    if |got| < r.total {
      assert Partial(r) + chunk == Partial(r');
    } else if !r.inBody {
      HeadOfRead(got);
      assert Partial(r') == got;
    } else {
      var m := Message(r.id, got);
      assert Stream([m]) == Encode(m) + Stream([]) == Head(r.id, r.total) + got;
      assert Partial(r) + chunk == Head(r.id, r.total) + got;
    }
  }

  lemma {:induction false} FeedBytes(r: Recv, chunks: seq<seq<byte>>)
    requires Ok(r) && Legal(r, chunks)
    ensures Ok(Feed(r, chunks).0) && (forall m | m in Feed(r, chunks).1 :: Fits(m))
    ensures Partial(r) + Concat(chunks) == Stream(Feed(r, chunks).1) + Partial(Feed(r, chunks).0)
    decreases |chunks|
  {
    if chunks == [] {
      assert Partial(r) + [] == [] + Partial(r);
    } else {
      var (r', ms) := OnRead(r, chunks[0]);
      OnReadBytes(r, chunks[0]);
      FeedBytes(r', chunks[1..]);
      var (end, rest) := Feed(r', chunks[1..]);
      StreamAppend(ms, rest);
      Chain(Partial(r), chunks[0], Partial(r'), Stream(ms), Concat(chunks[1..]), Stream(rest), Partial(end));
    }
  }

  /** While the socket waits for more bytes, the pending bytes are less than a frame. */
  lemma PartialIsNoFrame(r: Recv, m: Message, y: seq<byte>)
    requires Ok(r) && |r.got| < r.total && Fits(m)
    ensures Partial(r) != Encode(m) + y
  {
    HeadReads(r.id, r.total, r.got);
    HeadReads(m.id, |m.body|, m.body + y);
    assert Encode(m) + y == Head(m.id, |m.body|) + (m.body + y);
  }

  /**
    Fragmentation independence: whatever the read sizes, what has been posted is always a prefix
    of the messages sent, and it is all of them once every byte has arrived and the socket waits.
  */
  lemma AnyFragmentation(ms: seq<Message>, chunks: seq<seq<byte>>, rest: seq<byte>)
    requires forall m | m in ms :: Fits(m)
    requires Legal(START, chunks) && Concat(chunks) + rest == Stream(ms)
    ensures var (r, posted) := Feed(START, chunks);
      posted <= ms && (rest == [] && |r.got| < r.total ==> posted == ms && r == START)
  {
    FeedBytes(START, chunks);
    var (r, posted) := Feed(START, chunks);
    assert Partial(START) + Concat(chunks) == Concat(chunks);
    AppendAssociative(Stream(posted), Partial(r), rest);
    StreamPrefix(posted, ms, Partial(r) + rest);
    if rest == [] && |r.got| < r.total {
      assert Partial(r) + rest == Partial(r);
      WaitingMeansDone(r, ms[|posted|..]);
      assert posted == ms[..|posted|];
    }
  }

  /**
    A longer body is sent behind a length cast to 16 bits, so the bound on the bodies is exact: once
    every byte has arrived and the socket waits, what has been posted is what was sent if and only
    if no body is longer.
  */
  lemma PostedIffFits(ms: seq<Message>, chunks: seq<seq<byte>>)
    requires Legal(START, chunks) && Concat(chunks) == Stream(ms)
    requires |Feed(START, chunks).0.got| < Feed(START, chunks).0.total
    ensures Feed(START, chunks).1 == ms <==> forall m | m in ms :: Fits(m)
  {
    FeedBytes(START, chunks);
    if forall m | m in ms :: Fits(m) {
      assert Concat(chunks) + [] == Stream(ms);
      AnyFragmentation(ms, chunks, []);
    }
  }

  /** A body of 65536 bytes: however it is cut, the first thing posted is an empty message. */
  lemma LongBody(m: Message, chunks: seq<seq<byte>>)
    requires |m.body| == 65536 && Legal(START, chunks) && Concat(chunks) == Stream([m])
    ensures var posted := Feed(START, chunks).1; posted != [] ==> posted[0] == Message(m.id, [])
  {
    var (r, posted) := Feed(START, chunks);
    FeedBytes(START, chunks);
    if posted != [] {
      var empty := Message(m.id, []);
      assert Stream([m]) == Encode(m) + Stream([]) == Encode(m);
      assert Encode(empty) == Head(m.id, 0) + [] == Head(m.id, 0);
      assert Encode(m) == Encode(empty) + m.body;
      AppendAssociative(Encode(posted[0]), Stream(posted[1..]), Partial(r));
      assert Partial(START) + Concat(chunks) == Concat(chunks);
      FirstFrame(posted[0], empty, Stream(posted[1..]) + Partial(r), m.body);
    }
  }

  lemma LegalAppend(r: Recv, a: seq<seq<byte>>, b: seq<seq<byte>>)
    requires Ok(r) && Legal(r, a) && Ok(Feed(r, a).0) && Legal(Feed(r, a).0, b)
    ensures Legal(r, a + b) && Feed(r, a + b) == (Feed(Feed(r, a).0, b).0, Feed(r, a).1 + Feed(Feed(r, a).0, b).1)
    decreases |a|
  {
    if a == [] {
      assert a + b == b && [] + Feed(r, b).1 == Feed(r, b).1;
    } else {
      assert (a + b)[1..] == a[1..] + b;
      var (r', ms) := OnRead(r, a[0]);
      LegalAppend(r', a[1..], b);
      AppendAssociative(ms, Feed(r', a[1..]).1, Feed(Feed(r', a[1..]).0, b).1);
    }
  }

  /** Every stream of messages that fit can be read, header by header and body by body. */
  lemma {:induction false} WholeReads(ms: seq<Message>) returns (chunks: seq<seq<byte>>)
    requires forall m | m in ms :: Fits(m)
    ensures Legal(START, chunks) && Concat(chunks) == Stream(ms) && Feed(START, chunks) == (START, ms)
  {
    if ms == [] {
      chunks := [];
    } else {
      var m := ms[0];
      assert m in ms && forall x | x in ms[1..] :: x in ms;
      var rest := WholeReads(ms[1..]);
      var two := [Head(m.id, |m.body|), m.body];
      OneMessage(m, two);
      LegalAppend(START, two, rest);
      chunks := two + rest;
      TwoInFront(m, two, rest);
      assert [m] + ms[1..] == ms;
    }
  }

  lemma TwoInFront(m: Message, two: seq<seq<byte>>, rest: seq<seq<byte>>)
    requires Fits(m) && two == [Head(m.id, |m.body|), m.body]
    ensures Concat(two + rest) == Encode(m) + Concat(rest)
  {
    assert (two + rest)[1..] == [m.body] + rest && ([m.body] + rest)[1..] == rest;
    AppendAssociative(Head(m.id, |m.body|), m.body, Concat(rest));
  }

  lemma OneMessage(m: Message, two: seq<seq<byte>>)
    requires Fits(m) && two == [Head(m.id, |m.body|), m.body]
    ensures Legal(START, two) && Feed(START, two) == (START, [m])
  {
    var head := Head(m.id, |m.body|);
    HeadReads(m.id, |m.body|, []);
    assert head + [] == head && [] + head == head && [] + m.body == m.body;
    var r := Recv(true, m.id, |m.body|, []);
    assert OnRead(START, head) == (r, []);
    assert two[1..] == [m.body] && [m.body][1..] == [];
    assert OnRead(r, m.body) == (START, [m]);
    assert Feed(START, []) == (START, []);
    assert Feed(r, [m.body]) == (START, [m] + []);
    assert [] + ([m] + []) == [m];
  }

  lemma WaitingMeansDone(r: Recv, tail: seq<Message>)
    requires Ok(r) && |r.got| < r.total && (forall m | m in tail :: Fits(m)) && Partial(r) == Stream(tail)
    ensures tail == [] && r == START
  {
    if tail != [] { PartialIsNoFrame(r, tail[0], Stream(tail[1..])); }
  }

  // ---------------------------------------------------------------- the object

  class Session {
    const data: array<byte>
    var readLen: nat
    var totalLen: nat
    var inBody: bool
    var msgId: word
    var closed: bool
    var posted: seq<Posted>   // handed to LogicSystem::PustMsg

    ghost predicate Valid()
      reads this, data
    {
      data.Length == MAX_LENGTH && readLen <= data.Length && Ok(View())
    }

    /** The read in progress. */
    ghost function View(): Recv
      reads this, data
      requires readLen <= data.Length
    {
      Recv(inBody, msgId, totalLen, data[..readLen])
    }

    constructor ()
      ensures Valid() && fresh(data) && View() == START && posted == [] && !closed && data.Length == 2097152
    {
      data := new byte[MAX_LENGTH](_ => 0);
      readLen, totalLen, inBody, msgId, closed, posted := 0, HEAD_TOTAL_LEN, false, 0, false, [];
    }

    /** `AsyncReadFull`: clear the buffer and start a read of `total` bytes. */
    method AsyncReadFull(total: nat)
      requires data.Length == MAX_LENGTH
      modifies this`readLen, this`totalLen, data
      ensures readLen == 0 && totalLen == total && forall i | 0 <= i < data.Length :: data[i] == 0
    {
      forall i | 0 <= i < data.Length { data[i] := 0; }
      readLen, totalLen := 0, total;
    }

    /** The bytes that have arrived lie behind those before. */
    method Fill(chunk: seq<byte>)
      requires readLen + |chunk| <= data.Length
      modifies this`readLen, data
      ensures readLen == old(readLen) + |chunk| && data[..readLen] == old(data[..readLen]) + chunk
    {
      forall i | 0 <= i < |chunk| { data[readLen + i] := chunk[i]; }
      readLen := readLen + |chunk|;
    }

    /**
      One successful completion of `async_read_some`; `registered` is what `CheckVaild` says.
      Every index into `_data` is in range, and an incomplete read gets strictly shorter.
    */
    method OnReadSome(chunk: seq<byte>, registered: bool)
      requires Valid() && !closed && Completion(View(), chunk)
      modifies this, data
      ensures closed <==> |old(View()).got| + |chunk| >= old(totalLen) && !registered
      ensures !closed ==> Valid()
      ensures !closed ==> View() == OnRead(old(View()), chunk).0
      ensures posted == if closed then old(posted) else old(posted) + AllDelivered(OnRead(old(View()), chunk).1)
      ensures !closed && totalLen == old(totalLen) && readLen > 0 ==> totalLen - readLen < old(totalLen - readLen)
    {
      ghost var r := View();
      Fill(chunk);
      if readLen < totalLen { return; }
      if !registered {
        closed := true;
        return;
      }
      if inBody { BodyDone(); } else { HeadDone(); }
    }

    /** The completion handler of `AsyncReadHead`. Neither length check against MAX_LENGTH can fail. */
    method HeadDone()
      requires data.Length == MAX_LENGTH && totalLen == readLen == 4
      modifies this`inBody, this`msgId, this`readLen, this`totalLen, data
      ensures inBody && readLen == 0
      ensures msgId == ReadWord(old(data[..4]), 0) && totalLen == ReadWord(old(data[..4]), 2)
    {
      var len := data[2] as int * 256 + data[3] as int;
      msgId, inBody := data[0] as int * 256 + data[1] as int, true;
      AsyncReadFull(len);
    }

    /** The completion handler of `AsyncReadBody`: copy to the node, post it, listen for a header. */
    method BodyDone()
      requires data.Length == MAX_LENGTH && totalLen == readLen < 65536
      modifies this`posted, this`inBody, this`msgId, this`readLen, this`totalLen, data
      ensures !inBody && readLen == 0 && totalLen == HEAD_TOTAL_LEN && msgId == 0
      ensures posted == old(posted) + [Posted(Short(old(msgId)), old(data[..totalLen]))]
    {
      posted := posted + [Posted(Short(msgId), data[..totalLen])];
      msgId, inBody := 0, false;
      AsyncReadFull(HEAD_TOTAL_LEN);
    }
  }
}
