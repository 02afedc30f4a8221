/**
  The client's `readyRead` slot as written. Headers are read through a `QDataStream` opened once
  a call on `_buffer`; removing bytes from `_buffer` does not rewind its cursor, so every header
  after the first in one call is read four bytes too far, eight bytes too far, and so on.
*/
module ClientReceiver {
  import opened Bytes
  import opened Frames

  /** `_buffer`, `_b_recv_pending`, `_message_id`, `_message_len`. */
  datatype Client = Client(buffer: seq<byte>, pending: bool, id: word, len: word)

  const START := Client([], false, 0, 0)

  /** `stream >> value` with the cursor at `at`: 0 if two bytes are not there. */
  function StreamWord(s: seq<byte>, at: nat): word {
    if at + 2 <= |s| then ReadWord(s, at) else 0
  }

  /** `QDataStream` reads the most significant byte first, and nothing where two bytes have not arrived. */
  lemma StreamWordIs(s: seq<byte>, at: nat)
    ensures StreamWord(s, at) == if at + 2 <= |s| then s[at] as int * 256 + s[at + 1] as int else 0
  {
  }

  /** Where that leaves the cursor; a short read takes what there is. */
  function CursorAfter(s: seq<byte>, at: nat): nat {
    if at + 2 <= |s| then at + 2 else if at <= |s| then |s| else at
  }

  function HeaderCursor(s: seq<byte>, at: nat): nat { CursorAfter(s, CursorAfter(s, at)) }

  /** The client after it decoded a header through a cursor at `at` and removed four bytes. */
  function DecodeHeader(c: Client, at: nat): Client
    requires |c.buffer| >= 4
  {
    Client(c.buffer[4..], true, StreamWord(c.buffer, at), StreamWord(c.buffer, CursorAfter(c.buffer, at)))
  }

  /** The client without the message whose body is complete. */
  function TakeBody(c: Client): Client
    requires c.len <= |c.buffer|
  {
    c.(buffer := c.buffer[c.len..], pending := false)
  }

  /**
    One call of the slot from a given cursor on: the new state, what `handleMsg` got, and whether
    each header was what a cursor at the front would have read.
  */
  datatype Outcome = Outcome(client: Client, out: seq<Message>, aligned: bool)

  function Loop(c: Client, cursor: nat): Outcome
    decreases |c.buffer|, if c.pending then 1 else 0
  {
    if c.pending then
      if |c.buffer| < c.len then Outcome(c, [], true)
      else
        var r := Loop(TakeBody(c), cursor);
        r.(out := [Message(c.id, c.buffer[..c.len])] + r.out)
    else if |c.buffer| < 4 then Outcome(c, [], true)
    else
      var r := Loop(DecodeHeader(c, cursor), HeaderCursor(c.buffer, cursor));
      r.(aligned := r.aligned && DecodeHeader(c, cursor) == DecodeHeader(c, 0))
  }

  function Append(c: Client, data: seq<byte>): Client { c.(buffer := c.buffer + data) }

  function Call(c: Client, data: seq<byte>): Outcome { Loop(Append(c, data), 0) }

  /** A sequence of calls; `aligned` if all of them were. */
  function Feed(c: Client, chunks: seq<seq<byte>>): Outcome
    decreases |chunks|
  {
    if chunks == [] then Outcome(c, [], true)
    else
      var r := Call(c, chunks[0]);
      var rest := Feed(r.client, chunks[1..]);
      Outcome(rest.client, r.out + rest.out, r.aligned && rest.aligned)
  }

  // ---------------------------------------------------------------- bytes not yet handed on

  function Pending(c: Client): seq<byte> {
    if c.pending then Head(c.id, c.len) + c.buffer else c.buffer
  }

  /** Messages handed on, bytes pending and bytes still to come make up the stream. */
  ghost predicate Sync(done: seq<Message>, c: Client, rest: seq<byte>, ms: seq<Message>) {
    (forall m | m in done :: Fits(m)) && Stream(done) + (Pending(c) + rest) == Stream(ms)
  }

  /** The client can no longer hand on exactly `ms`. */
  predicate Wrong(done: seq<Message>, c: Client, ms: seq<Message>) {
    || !(done <= ms)
    || (c.pending && |done| < |ms| && (c.id != ms[|done|].id || c.len != |ms[|done|].body|))
  }

  lemma {:induction false} WrongStays(done: seq<Message>, c: Client, cursor: nat, ms: seq<Message>)
    requires Wrong(done, c, ms)
    ensures Wrong(done + Loop(c, cursor).out, Loop(c, cursor).client, ms)
    decreases |c.buffer|, if c.pending then 1 else 0
  {
    if c.pending {
      if c.len <= |c.buffer| {
        var m := Message(c.id, c.buffer[..c.len]);
        assert !(done + [m] <= ms);
        WrongStays(done + [m], TakeBody(c), cursor, ms);
        AppendAssociative(done, [m], Loop(TakeBody(c), cursor).out);
      } else {
        assert done + [] == done;
      }
    } else {
      assert !(done + Loop(c, cursor).out <= ms);
    }
  }

  /** What a header read at the front must be, given what is left of the stream. */
  lemma HeaderAtFront(done: seq<Message>, c: Client, rest: seq<byte>, ms: seq<Message>)
    requires (forall m | m in ms :: Fits(m)) && Sync(done, c, rest, ms)
    requires !c.pending && |c.buffer| >= 4
    ensures done <= ms && |done| < |ms|
    ensures ReadWord(c.buffer, 0) == ms[|done|].id && ReadWord(c.buffer, 2) == |ms[|done|].body|
  {
    StreamPrefix(done, ms, c.buffer + rest);
    var tail := ms[|done|..];
    assert c.buffer + rest == Stream(tail);
    assert tail != [] && tail[0] in ms;
    StreamHead(tail, []);
    assert Stream(tail) + [] == c.buffer + rest;
  }

  lemma HeaderKeepsSync(done: seq<Message>, c: Client, rest: seq<byte>, ms: seq<Message>)
    requires Sync(done, c, rest, ms) && !c.pending && |c.buffer| >= 4
    ensures Sync(done, DecodeHeader(c, 0), rest, ms)
  {
    HeadOfRead(c.buffer[..4]);
    assert c.buffer == c.buffer[..4] + c.buffer[4..];
    assert Pending(DecodeHeader(c, 0)) == Pending(c);
  }

  lemma BodyKeepsSync(done: seq<Message>, c: Client, rest: seq<byte>, ms: seq<Message>)
    requires Sync(done, c, rest, ms) && c.pending && c.len <= |c.buffer|
    ensures Sync(done + [Message(c.id, c.buffer[..c.len])], TakeBody(c), rest, ms)
  {
    var m := Message(c.id, c.buffer[..c.len]);
    StreamSnoc(done, m);
    BodyFirst(c);
    Regroup(Stream(done), Encode(m), Pending(TakeBody(c)), rest);
  }

  lemma BodyFirst(c: Client)
    requires c.pending && c.len <= |c.buffer|
    ensures Pending(c) == Encode(Message(c.id, c.buffer[..c.len])) + Pending(TakeBody(c))
  {
    var body := c.buffer[..c.len];
    assert Encode(Message(c.id, body)) == Head(c.id, c.len) + body;
    AppendAssociative(Head(c.id, c.len), body, c.buffer[c.len..]);
    Rejoin(c.buffer, c.len);
  }

  lemma PendingAppend(c: Client, data: seq<byte>)
    ensures Pending(Append(c, data)) == Pending(c) + data
  {
    AppendAssociative(Head(c.id, c.len), c.buffer, data);
  }

  /** A call either keeps the client in step with the stream or puts it in the wrong for good. */
  lemma {:induction false} LoopSync(done: seq<Message>, c: Client, cursor: nat, rest: seq<byte>, ms: seq<Message>)
    requires (forall m | m in ms :: Fits(m)) && Sync(done, c, rest, ms)
    ensures var r := Loop(c, cursor);
      if r.aligned then Sync(done + r.out, r.client, rest, ms) else Wrong(done + r.out, r.client, ms)
    decreases |c.buffer|, if c.pending then 1 else 0
  {
    var r := Loop(c, cursor);
    assert done + [] == done;
    if c.pending {
      if c.len <= |c.buffer| {
        var m := Message(c.id, c.buffer[..c.len]);
        BodyKeepsSync(done, c, rest, ms);
        LoopSync(done + [m], TakeBody(c), cursor, rest, ms);
        AppendAssociative(done, [m], Loop(TakeBody(c), cursor).out);
      }
    } else if |c.buffer| >= 4 {
      var c', next := DecodeHeader(c, cursor), HeaderCursor(c.buffer, cursor);
      if c' == DecodeHeader(c, 0) {
        HeaderKeepsSync(done, c, rest, ms);
        LoopSync(done, c', next, rest, ms);
      } else {
        HeaderAtFront(done, c, rest, ms);
        WrongStays(done, c', next, ms);
      }
    }
  }

  /** A call stops only when it needs more bytes. */
  lemma {:induction false} LoopStops(c: Client, cursor: nat)
    ensures var end := Loop(c, cursor).client; |end.buffer| < if end.pending then end.len else 4
    decreases |c.buffer|, if c.pending then 1 else 0
  {
    if c.pending {
      if c.len <= |c.buffer| { LoopStops(TakeBody(c), cursor); }
    } else if |c.buffer| >= 4 {
      LoopStops(DecodeHeader(c, cursor), HeaderCursor(c.buffer, cursor));
    }
  }

  predicate Waiting(c: Client) { |c.buffer| < if c.pending then c.len else 4 }

  lemma {:induction false} FeedSync(
      done: seq<Message>, c: Client, chunks: seq<seq<byte>>, rest: seq<byte>, ms: seq<Message>)
    requires (forall m | m in ms :: Fits(m)) && Sync(done, c, Concat(chunks) + rest, ms) && Waiting(c)
    ensures Waiting(Feed(c, chunks).client)
    ensures var r := Feed(c, chunks);
      if r.aligned then Sync(done + r.out, r.client, rest, ms) else Wrong(done + r.out, r.client, ms)
    decreases |chunks|
  {
    if chunks == [] {
      assert [] + rest == rest && done + [] == done;
    } else {
      var data, more := chunks[0], Concat(chunks[1..]) + rest;
      PendingAppend(c, data);
      Regroup(Pending(c), data, Concat(chunks[1..]), rest);
      assert Sync(done, Append(c, data), more, ms);
      var r := Call(c, data);
      LoopSync(done, Append(c, data), 0, more, ms);
      LoopStops(Append(c, data), 0);
      var end := Feed(r.client, chunks[1..]);
      AppendAssociative(done, r.out, end.out);
      if r.aligned {
        FeedSync(done + r.out, r.client, chunks[1..], rest, ms);
      } else {
        WrongFeed(done + r.out, r.client, chunks[1..], ms);
      }
    }
  }

  lemma {:induction false} WrongFeed(done: seq<Message>, c: Client, chunks: seq<seq<byte>>, ms: seq<Message>)
    requires Wrong(done, c, ms) && Waiting(c)
    ensures Waiting(Feed(c, chunks).client) && Wrong(done + Feed(c, chunks).out, Feed(c, chunks).client, ms)
    decreases |chunks|
  {
    if chunks == [] {
      assert done + [] == done;
    } else {
      var r := Call(c, chunks[0]);
      WrongStays(done, Append(c, chunks[0]), 0, ms);
      LoopStops(Append(c, chunks[0]), 0);
      WrongFeed(done + r.out, r.client, chunks[1..], ms);
      AppendAssociative(done, r.out, Feed(r.client, chunks[1..]).out);
    }
  }

  /** While waiting, the pending bytes are less than a frame. */
  lemma NothingPending(c: Client, tail: seq<Message>)
    requires Waiting(c) && (forall m | m in tail :: Fits(m)) && Pending(c) == Stream(tail)
    ensures tail == []
  {
    if tail != [] {
      assert tail[0] in tail;
      StreamHead(tail, []);
      assert Stream(tail) + [] == Pending(c) && |Stream(tail)| >= 4 + |tail[0].body|;
      HeadReads(c.id, c.len, c.buffer);
    }
  }

  /** `handleMsg` gets exactly the messages sent, in order, if and only if no header was misread. */
  lemma DeliveredIffAligned(ms: seq<Message>, chunks: seq<seq<byte>>)
    requires (forall m | m in ms :: Fits(m)) && Concat(chunks) == Stream(ms)
    ensures Feed(START, chunks).out == ms <==> Feed(START, chunks).aligned
  {
    var r := Feed(START, chunks);
    assert Concat(chunks) + [] == Concat(chunks);
    assert [] + (Pending(START) + Concat(chunks)) == Stream(ms);
    FeedSync([], START, chunks, [], ms);
    assert [] + r.out == r.out;
    if r.aligned {
      assert Pending(r.client) + [] == Pending(r.client);
      StreamPrefix(r.out, ms, Pending(r.client));
      NothingPending(r.client, ms[|r.out|..]);
    }
  }

  // ---------------------------------------------------------------- the condition on the inputs

  /** Where the frame of message j starts in the stream. */
  function Start(ms: seq<Message>, j: nat): nat
    requires j <= |ms|
  {
    |Stream(ms[..j])|
  }

  /** The number of headers that end within the first b bytes of the stream. */
  function Heads(ms: seq<Message>, b: nat): (n: nat)
    ensures n <= |ms|
  {
    if ms == [] || b < 4 then 0
    else if b < 4 + |ms[0].body| then 1
    else 1 + Heads(ms[1..], b - 4 - |ms[0].body|)
  }

  /**
    When b bytes have arrived, the two words that lie behind the header of message j by four bytes for
    each message since `first`, or 0 where nothing has arrived, are that header.
  */
  predicate HeaderRight(ms: seq<Message>, j: nat, first: nat, b: nat)
    requires first <= j < |ms| && b <= |Stream(ms)|
  {
    var s, at := Stream(ms)[..b], Start(ms, j) + 4 * (j - first);
    StreamWord(s, at) == ms[j].id && StreamWord(s, at + 2) == |ms[j].body|
  }

  predicate HeadersRight(ms: seq<Message>, from: nat, to: nat, first: nat, b: nat)
    requires first <= from && to <= |ms| && b <= |Stream(ms)|
  {
    forall j | from <= j < to :: HeaderRight(ms, j, first, b)
  }

  /** The headers that end in the bytes from b to b' are so, the first of them read in place. */
  predicate CallRight(ms: seq<Message>, b: nat, b': nat)
    requires b <= b' <= |Stream(ms)|
  {
    HeadersRight(ms, Heads(ms, b), Heads(ms, b'), Heads(ms, b), b')
  }

  function Sum(lens: seq<nat>): nat { if lens == [] then 0 else lens[0] + Sum(lens[1..]) }

  /** The same for calls that bring these numbers of bytes, b having arrived before. */
  predicate ReadsRight(ms: seq<Message>, b: nat, lens: seq<nat>)
    requires b + Sum(lens) <= |Stream(ms)|
    decreases |lens|
  {
    lens == [] || (CallRight(ms, b, b + lens[0]) && ReadsRight(ms, b + lens[0], lens[1..]))
  }

  /** At most one header ends in the bytes of each call. */
  predicate OneHeaderEach(ms: seq<Message>, b: nat, lens: seq<nat>)
    decreases |lens|
  {
    lens == [] || (Heads(ms, b + lens[0]) <= Heads(ms, b) + 1 && OneHeaderEach(ms, b + lens[0], lens[1..]))
  }

  function Lengths(chunks: seq<seq<byte>>): seq<nat> {
    if chunks == [] then [] else [|chunks[0]|] + Lengths(chunks[1..])
  }

  lemma {:induction false} LengthsSum(chunks: seq<seq<byte>>)
    ensures Sum(Lengths(chunks)) == |Concat(chunks)|
  {
    if chunks == [] {
    } else {
      LengthsSum(chunks[1..]);
    }
  }

  // ---------------------------------------------------------------- positions in the stream

  lemma {:induction false} Frame(ms: seq<Message>, j: nat)
    requires j < |ms| && Fits(ms[j])
    ensures Start(ms, j + 1) == Start(ms, j) + 4 + |ms[j].body| <= |Stream(ms)|
    ensures Stream(ms)[Start(ms, j)..] == Stream(ms[j..])
    ensures ReadWord(Stream(ms), Start(ms, j)) == ms[j].id && ReadWord(Stream(ms), Start(ms, j) + 2) == |ms[j].body|
  {
    var front, tail := ms[..j], ms[j..];
    assert ms == front + tail && ms[..j + 1] == front + [ms[j]];
    StreamAppend(front, tail);
    StreamSnoc(front, ms[j]);
    StreamHead(tail, []);
    assert Stream(tail) + [] == Stream(tail);
    assert tail == [ms[j]] + tail[1..];
    assert |Stream(tail)| >= |Encode(ms[j])|;
    WordBehind(Stream(front), Stream(tail), 0);
    WordBehind(Stream(front), Stream(tail), 2);
  }

  lemma WordBehind(a: seq<byte>, b: seq<byte>, at: nat)
    requires at + 2 <= |b|
    ensures ReadWord(a + b, |a| + at) == ReadWord(b, at) && (a + b)[|a|..] == b
  {
  }

  lemma {:induction false} HeadsMeans(ms: seq<Message>, b: nat, j: nat)
    requires j < |ms|
    ensures j < Heads(ms, b) <==> Start(ms, j) + 4 <= b
  {
    assert Start(ms, 0) == 0 by { assert ms[..0] == []; }
    if j == 0 {
    } else {
      assert ms[..j][1..] == ms[1..][..j - 1] && ms[..j][0] == ms[0];
      assert Start(ms, j) == 4 + |ms[0].body| + Start(ms[1..], j - 1);
      if b >= 4 + |ms[0].body| { HeadsMeans(ms[1..], b - 4 - |ms[0].body|, j - 1); }
    }
  }

  /** How many headers the client has decoded, when d messages have been handed on. */
  function Decoded(d: nat, c: Client): nat { if c.pending then d + 1 else d }

  /** The client stands in the stream: d messages handed on, b bytes arrived. */
  predicate InStep(ms: seq<Message>, d: nat, c: Client, b: nat) {
    && Decoded(d, c) <= |ms| && b <= |Stream(ms)|
    && (c.pending ==> c.id == ms[d].id && c.len == |ms[d].body|)
    && var at := Start(ms, d) + if c.pending then 4 else 0;
       at <= b && c.buffer == Stream(ms)[at..b]
  }

  /** Both cursors read the same: they are equal, or neither finds two bytes. */
  predicate Alike(s: seq<byte>, x: nat, y: nat) { x == y || (x + 2 > |s| && y + 2 > |s|) }

  lemma AlikeHeader(c: Client, x: nat, y: nat)
    requires Alike(c.buffer, x, y) && |c.buffer| >= 4
    ensures StreamWord(c.buffer, x) == StreamWord(c.buffer, y)
    ensures StreamWord(c.buffer, CursorAfter(c.buffer, x)) == StreamWord(c.buffer, y + 2)
    ensures Alike(c.buffer[4..], HeaderCursor(c.buffer, x), y + 4)
  {
  }

  /** Waiting for more bytes, the client has decoded every header that has arrived. */
  lemma WaitingDecoded(ms: seq<Message>, d: nat, c: Client, b: nat)
    requires (forall m | m in ms :: Fits(m)) && InStep(ms, d, c, b) && Waiting(c)
    ensures Decoded(d, c) == Heads(ms, b)
  {
    var n := Decoded(d, c);
    if c.pending { Frame(ms, d); }
    if n < |ms| { HeadsMeans(ms, b, n); }
    if n > 0 {
      HeadsMeans(ms, b, n - 1);
      Frame(ms, n - 1);
    }
  }

  lemma BodyInStep(ms: seq<Message>, d: nat, c: Client, b: nat)
    requires (forall m | m in ms :: Fits(m)) && InStep(ms, d, c, b) && c.pending && c.len <= |c.buffer|
    ensures InStep(ms, d + 1, TakeBody(c), b)
  {
    Frame(ms, d);
  }

  lemma HeaderInStep(ms: seq<Message>, d: nat, c: Client, b: nat)
    requires (forall m | m in ms :: Fits(m)) && InStep(ms, d, c, b) && !c.pending && |c.buffer| >= 4
    ensures d < |ms| && d < Heads(ms, b) && InStep(ms, d, DecodeHeader(c, 0), b)
  {
    assert ms[..|ms|] == ms;
    Frame(ms, d);
    HeadsMeans(ms, b, d);
    var at := Start(ms, d);
    assert c.buffer[4..] == Stream(ms)[at + 4..b];
  }

  /** A header is read in place exactly where the words of the stream say so. */
  lemma HeaderPosition(ms: seq<Message>, d: nat, first: nat, c: Client, cursor: nat, b: nat)
    requires (forall m | m in ms :: Fits(m)) && InStep(ms, d, c, b) && !c.pending && |c.buffer| >= 4
    requires first <= d < |ms| && Alike(c.buffer, cursor, 4 * (d - first))
    ensures DecodeHeader(c, cursor) == DecodeHeader(c, 0) <==> HeaderRight(ms, d, first, b)
  {
    AlikeHeader(c, cursor, 4 * (d - first));
    HeaderFront(ms, d, c, b);
    BufferWord(Stream(ms)[..b], Start(ms, d), 4 * (d - first));
    BufferWord(Stream(ms)[..b], Start(ms, d), 4 * (d - first) + 2);
  }

  lemma HeaderFront(ms: seq<Message>, d: nat, c: Client, b: nat)
    requires (forall m | m in ms :: Fits(m)) && InStep(ms, d, c, b) && !c.pending && |c.buffer| >= 4 && d < |ms|
    ensures Start(ms, d) <= b && c.buffer == Stream(ms)[..b][Start(ms, d)..]
    ensures StreamWord(c.buffer, 0) == ms[d].id && StreamWord(c.buffer, 2) == |ms[d].body|
  {
    var at, s := Start(ms, d), Stream(ms)[..b];
    Frame(ms, d);
    assert c.buffer == s[at..];
    BufferWord(s, at, 0);
    BufferWord(s, at, 2);
    assert ReadWord(s, at) == ReadWord(Stream(ms), at) && ReadWord(s, at + 2) == ReadWord(Stream(ms), at + 2);
  }

  lemma BufferWord(s: seq<byte>, at: nat, x: nat)
    requires at <= |s|
    ensures StreamWord(s[at..], x) == StreamWord(s, at + x)
  {
  }

  lemma FirstRight(ms: seq<Message>, from: nat, to: nat, first: nat, b: nat)
    requires first <= from < to <= |ms| && b <= |Stream(ms)|
    ensures HeadersRight(ms, from, to, first, b)
       <==> HeaderRight(ms, from, first, b) && HeadersRight(ms, from + 1, to, first, b)
  {
  }

  /** What decoding the header of message d through the cursor comes to. */
  lemma HeaderDecoded(ms: seq<Message>, d: nat, first: nat, c: Client, cursor: nat, b: nat)
    requires (forall m | m in ms :: Fits(m)) && InStep(ms, d, c, b) && first <= d
    requires !c.pending && |c.buffer| >= 4 && Alike(c.buffer, cursor, 4 * (d - first))
    ensures InStep(ms, d, DecodeHeader(c, 0), b) && d < |ms|
    ensures Alike(DecodeHeader(c, 0).buffer, HeaderCursor(c.buffer, cursor), 4 * (d + 1 - first))
    ensures HeadersRight(ms, d, Heads(ms, b), first, b)
       <==> DecodeHeader(c, cursor) == DecodeHeader(c, 0) && HeadersRight(ms, d + 1, Heads(ms, b), first, b)
  {
    HeaderInStep(ms, d, c, b);
    FirstRight(ms, d, Heads(ms, b), first, b);
    HeaderPosition(ms, d, first, c, cursor, b);
    AlikeHeader(c, cursor, 4 * (d - first));
  }

  /** One call: aligned if and only if the headers it covers are right, and then still in step. */
  lemma {:induction false} LoopPositions(ms: seq<Message>, d: nat, first: nat, c: Client, cursor: nat, b: nat)
    returns (d': nat)
    requires (forall m | m in ms :: Fits(m)) && InStep(ms, d, c, b) && first <= Decoded(d, c)
    requires Alike(c.buffer, cursor, 4 * (Decoded(d, c) - first))
    ensures Loop(c, cursor).aligned <==> HeadersRight(ms, Decoded(d, c), Heads(ms, b), first, b)
    ensures Loop(c, cursor).aligned ==> InStep(ms, d', Loop(c, cursor).client, b)
    decreases |c.buffer|, if c.pending then 1 else 0
  {
    d' := d;
    if Waiting(c) {
      WaitingDecoded(ms, d, c, b);
    } else if c.pending {
      BodyInStep(ms, d, c, b);
      d' := LoopPositions(ms, d + 1, first, TakeBody(c), cursor, b);
    } else {
      HeaderDecoded(ms, d, first, c, cursor, b);
      if DecodeHeader(c, cursor) == DecodeHeader(c, 0) {
        d' := LoopPositions(ms, d, first, DecodeHeader(c, 0), HeaderCursor(c.buffer, cursor), b);
      }
    }
  }

  lemma AppendInStep(ms: seq<Message>, d: nat, c: Client, b: nat, data: seq<byte>)
    requires InStep(ms, d, c, b) && b + |data| <= |Stream(ms)| && data == Stream(ms)[b..b + |data|]
    ensures InStep(ms, d, Append(c, data), b + |data|)
  {
    Adjoin(Stream(ms), Start(ms, d) + if c.pending then 4 else 0, b, b + |data|);
  }

  /** One call from the outside. */
  lemma CallPositions(ms: seq<Message>, d: nat, c: Client, b: nat, data: seq<byte>) returns (d': nat)
    requires (forall m | m in ms :: Fits(m)) && InStep(ms, d, c, b) && Waiting(c)
    requires b + |data| <= |Stream(ms)| && data == Stream(ms)[b..b + |data|]
    ensures Call(c, data).aligned <==> CallRight(ms, b, b + |data|)
    ensures Call(c, data).aligned ==> InStep(ms, d', Call(c, data).client, b + |data|)
  {
    AppendInStep(ms, d, c, b, data);
    WaitingDecoded(ms, d, c, b);
    d' := LoopFromStart(ms, d, Append(c, data), b, b + |data|);
  }

  lemma LoopFromStart(ms: seq<Message>, d: nat, c: Client, b: nat, b': nat) returns (d': nat)
    requires (forall m | m in ms :: Fits(m)) && InStep(ms, d, c, b') && Decoded(d, c) == Heads(ms, b) && b <= b'
    ensures Loop(c, 0).aligned <==> CallRight(ms, b, b')
    ensures Loop(c, 0).aligned ==> InStep(ms, d', Loop(c, 0).client, b')
  {
    d' := LoopPositions(ms, d, Heads(ms, b), c, 0, b');
  }

  lemma CallStops(c: Client, data: seq<byte>)
    ensures Waiting(Call(c, data).client)
  {
    LoopStops(Append(c, data), 0);
  }

  lemma RestOfLengths(chunks: seq<seq<byte>>)
    requires chunks != []
    ensures Lengths(chunks) != [] && Lengths(chunks)[0] == |chunks[0]| && Lengths(chunks)[1..] == Lengths(chunks[1..])
  {
  }

  lemma FirstChunk(ms: seq<Message>, b: nat, chunks: seq<seq<byte>>)
    requires chunks != [] && b <= |Stream(ms)| && Concat(chunks) == Stream(ms)[b..]
    ensures var b' := b + |chunks[0]|;
      b' <= |Stream(ms)| && chunks[0] == Stream(ms)[b..b'] && Concat(chunks[1..]) == Stream(ms)[b'..]
  {
    var data := chunks[0];
    assert data == Concat(chunks)[..|data|] && Concat(chunks[1..]) == Concat(chunks)[|data|..];
  }

  lemma {:induction false} FeedPositions(ms: seq<Message>, d: nat, c: Client, b: nat, chunks: seq<seq<byte>>)
    requires (forall m | m in ms :: Fits(m)) && InStep(ms, d, c, b) && Waiting(c)
    requires Concat(chunks) == Stream(ms)[b..]
    ensures b + Sum(Lengths(chunks)) <= |Stream(ms)|
    ensures Feed(c, chunks).aligned <==> ReadsRight(ms, b, Lengths(chunks))
    decreases |chunks|
  {
    LengthsSum(chunks);
    if chunks == [] {
    } else {
      var data, b' := chunks[0], b + |chunks[0]|;
      FirstChunk(ms, b, chunks);
      var d' := CallPositions(ms, d, c, b, data);
      CallStops(c, data);
      RestOfLengths(chunks);
      LengthsSum(chunks[1..]);
      if Call(c, data).aligned {
        FeedPositions(ms, d', Call(c, data).client, b', chunks[1..]);
      }
    }
  }

  /**
    For every list of messages and every fragmentation of their frames into `readyRead` calls:
    `handleMsg` gets exactly the messages sent, in order, if and only if in each call the words that
    the cursor comes to are the headers, which only the messages and the lengths of the calls decide.
  */
  lemma DeliveredIff(ms: seq<Message>, chunks: seq<seq<byte>>)
    requires (forall m | m in ms :: Fits(m)) && Concat(chunks) == Stream(ms)
    ensures Sum(Lengths(chunks)) <= |Stream(ms)|
    ensures Feed(START, chunks).out == ms <==> ReadsRight(ms, 0, Lengths(chunks))
  {
    DeliveredIffAligned(ms, chunks);
    assert ms[..0] == [] && Stream(ms)[0..] == Stream(ms) && Stream(ms)[0..0] == [];
    FeedPositions(ms, 0, START, 0, chunks);
  }

  /** A header that is the first one of its call is right. */
  lemma FirstIsRight(ms: seq<Message>, j: nat, b: nat)
    requires j < Heads(ms, b) && b <= |Stream(ms)| && Fits(ms[j])
    ensures HeaderRight(ms, j, j, b)
  {
    HeadsMeans(ms, b, j);
    Frame(ms, j);
  }

  lemma {:induction false} OneHeaderEachIsRight(ms: seq<Message>, b: nat, lens: seq<nat>)
    requires (forall m | m in ms :: Fits(m)) && b + Sum(lens) <= |Stream(ms)| && OneHeaderEach(ms, b, lens)
    ensures ReadsRight(ms, b, lens)
    decreases |lens|
  {
    if lens == [] {
    } else {
      var b' := b + lens[0];
      forall j | Heads(ms, b) <= j < Heads(ms, b') ensures HeaderRight(ms, j, Heads(ms, b), b') {
        FirstIsRight(ms, j, b');
      }
      OneHeaderEachIsRight(ms, b', lens[1..]);
    }
  }

  /**
    In particular it works whenever at most one header ends in the bytes of each call, however bodies
    and headers are cut across calls.
  */
  lemma OneHeaderEachDelivers(ms: seq<Message>, chunks: seq<seq<byte>>)
    requires (forall m | m in ms :: Fits(m)) && Concat(chunks) == Stream(ms)
    requires OneHeaderEach(ms, 0, Lengths(chunks))
    ensures Feed(START, chunks).out == ms
  {
    DeliveredIff(ms, chunks);
    OneHeaderEachIsRight(ms, 0, Lengths(chunks));
  }

  /** The second header read through a cursor at 4 in five bytes: both words are 0. */
  lemma SecondHeader()
    ensures Loop(Client([0, 2, 0, 1, 8], false, 1, 1), 4).out == [Message(0, [])]
  {
    var c := Client([0, 2, 0, 1, 8], false, 1, 1);
    var c' := DecodeHeader(c, 4);
    assert c' == Client([8], true, 0, 0);
    assert TakeBody(c') == Client([8], false, 0, 0);
    assert Loop(TakeBody(c'), 5).out == [];
    assert c'.buffer[..0] == [];
  }

  lemma FirstBody()
    ensures Loop(Client([7, 0, 2, 0, 1, 8], true, 1, 1), 4).out == [Message(1, [7]), Message(0, [])]
  {
    var c := Client([7, 0, 2, 0, 1, 8], true, 1, 1);
    SecondHeader();
    assert c.buffer[..1] == [7] && TakeBody(c) == Client([0, 2, 0, 1, 8], false, 1, 1);
  }

  lemma FirstHeader()
    ensures Loop(Client([0, 1, 0, 1, 7, 0, 2, 0, 1, 8], false, 0, 0), 0).out == [Message(1, [7]), Message(0, [])]
  {
    var c := Client([0, 1, 0, 1, 7, 0, 2, 0, 1, 8], false, 0, 0);
    FirstBody();
    assert DecodeHeader(c, 0) == Client([7, 0, 2, 0, 1, 8], true, 1, 1);
  }

  lemma TwoFrames()
    ensures Stream([Message(1, [7]), Message(2, [8])]) == [0, 1, 0, 1, 7, 0, 2, 0, 1, 8]
  {
    assert Stream([Message(2, [8])]) == [0, 2, 0, 1, 8] + [];
  }

  /** Two small messages that arrive together: the second one is lost. */
  lemma TwoMessagesInOneRead()
    ensures var ms := [Message(1, [7]), Message(2, [8])];
      Stream(ms) == [0, 1, 0, 1, 7, 0, 2, 0, 1, 8] &&
      Feed(START, [Stream(ms)]).out == [Message(1, [7]), Message(0, [])]
  {
    TwoFrames();
    FirstHeader();
    var s := Stream([Message(1, [7]), Message(2, [8])]);
    assert Append(START, s) == Client(s, false, 0, 0);
    OneCall(START, s);
  }

  lemma OneCall(c: Client, data: seq<byte>)
    ensures Feed(c, [data]).out == Call(c, data).out
  {
    assert [data][1..] == [];
    assert Feed(Call(c, data).client, []).out == [];
    assert Call(c, data).out + [] == Call(c, data).out;
  }

  // ---------------------------------------------------------------- the object

  class TcpManager {
    var buffer: seq<byte>
    var recvPending: bool
    var messageId: word
    var messageLen: word
    var handled: seq<Message>   // the calls of handleMsg

    function View(): Client
      reads this
    {
      Client(buffer, recvPending, messageId, messageLen)
    }

    constructor ()
      ensures View() == START && handled == []
    {
      buffer, recvPending, messageId, messageLen, handled := [], false, 0, 0, [];
    }

    method OnReadyRead(data: seq<byte>)
      modifies this
      ensures View() == Call(old(View()), data).client
      ensures handled == old(handled) + Call(old(View()), data).out
    {
      buffer := buffer + data;
      var cursor := 0;
      ghost var whole := Loop(View(), 0);
      while true
        invariant whole.client == Loop(View(), cursor).client
        invariant old(handled) + whole.out == handled + Loop(View(), cursor).out
        decreases |buffer|, if recvPending then 1 else 0
      {
        ghost var before := Loop(View(), cursor);
        if !recvPending {
          if |buffer| < 4 { return; }
          var at := CursorAfter(buffer, cursor);
          messageId, messageLen := StreamWord(buffer, cursor), StreamWord(buffer, at);
          cursor := CursorAfter(buffer, at);
          buffer := buffer[4..];
        }
        if |buffer| < messageLen {
          recvPending := true;
          return;
        }
        recvPending := false;
        var body := buffer[..messageLen];
        buffer := buffer[messageLen..];
        AppendAssociative(handled, [Message(messageId, body)], Loop(View(), cursor).out);
        assert before.out == [Message(messageId, body)] + Loop(View(), cursor).out;
        handled := handled + [Message(messageId, body)];
      }
    }
  }
}
