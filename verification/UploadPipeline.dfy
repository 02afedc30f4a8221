/**
  From the client's file to the storage server: the chunking loop, framing, any fragmentation on
  the way, the spool, and the stream to storage. The JSON text of a message is a parameter.
*/
module UploadPipeline {
  import opened Bytes
  import opened Frames
  import opened Spool
  import opened Storage
  import Base64
  import ServerReceiver

  /** `MAX_FILE_LEN`. */
  const CHUNK: nat := 32768

  const ID_UPLOAD_FILE_REQ: word := 1006

  /** The fields of an upload message that the server uses. */
  datatype Chunk = Chunk(seqNo: int, name: string, trans: int, total: int, data: string)

  /** Conversion to the client's 32-bit `int`. */
  function Int32(n: nat): (r: int)
    ensures -0x8000_0000 <= r < 0x8000_0000 && (n - r) % 0x1_0000_0000 == 0
  {
    var w := n % 0x1_0000_0000;
    if w < 0x8000_0000 then w else w - 0x1_0000_0000
  }

  function Slice(file: seq<byte>, i: nat): seq<byte>
    requires i * CHUNK <= |file|
  {
    file[i * CHUNK..Min((i + 1) * CHUNK, |file|)]
  }

  function ChunkAt(file: seq<byte>, name: string, i: nat): Chunk
    requires i * CHUNK <= |file|
  {
    Chunk(i + 1, name, Int32(|Slice(file, i)| + i * CHUNK), Int32(|file|), Base64.Encode(Slice(file, i)))
  }

  /** The messages for the part of the file from chunk i on. */
  function ChunksFrom(file: seq<byte>, name: string, i: nat): seq<Chunk>
    decreases |file| - i * CHUNK
  {
    if i * CHUNK >= |file| then [] else [ChunkAt(file, name, i)] + ChunksFrom(file, name, i + 1)
  }

  lemma SliceIs(file: seq<byte>, i: nat, pos: nat)
    requires pos == i * CHUNK <= |file|
    ensures Slice(file, i) == file[pos..Min(pos + CHUNK, |file|)]
    ensures Min(pos + CHUNK, |file|) == Min((i + 1) * CHUNK, |file|)
  {
    assert (i + 1) * CHUNK == pos + CHUNK;
  }

  /** After n rounds of the loop. */
  predicate Sent(file: seq<byte>, name: string, n: nat, pos: nat, msgs: seq<Chunk>) {
    pos == Min(n * CHUNK, |file|) && msgs + ChunksFrom(file, name, n) == ChunksFrom(file, name, 0)
  }

  lemma SentOneMore(file: seq<byte>, name: string, n: nat, pos: nat, msgs: seq<Chunk>)
    requires Sent(file, name, n, pos, msgs) && pos < |file|
    ensures var buffer := file[pos..Min(pos + CHUNK, |file|)];
      Sent(file, name, n + 1, pos + |buffer|, msgs + [ReadChunk(buffer, n + 1, name, |file|)])
  {
    SliceIs(file, n, pos);
    AppendAssociative(msgs, [ChunkAt(file, name, n)], ChunksFrom(file, name, n + 1));
  }

  /** The loop that reads the file. */
  method SendChunks(file: seq<byte>, name: string) returns (msgs: seq<Chunk>)
    ensures msgs == ChunksFrom(file, name, 0)
  {
    msgs := [];
    var seqNo, pos := 0, 0;
    assert [] + ChunksFrom(file, name, 0) == ChunksFrom(file, name, 0);
    while pos < |file|
      invariant 0 <= seqNo && 0 <= pos && Sent(file, name, seqNo, pos, msgs)
    {
      SentOneMore(file, name, seqNo, pos, msgs);
      var buffer := file[pos..Min(pos + CHUNK, |file|)];
      seqNo, pos := seqNo + 1, pos + |buffer|;
      msgs := msgs + [ReadChunk(buffer, seqNo, name, |file|)];
    }
    assert msgs + [] == msgs;
  }

  /** The message for what was read, after `seq` has been raised. */
  function ReadChunk(buffer: seq<byte>, seqNo: nat, name: string, total: nat): Chunk
    requires seqNo > 0
  {
    Chunk(seqNo, name, Int32(|buffer| + (seqNo - 1) * CHUNK), Int32(total), Base64.Encode(buffer))
  }

  /** The sizes a client announces are right exactly for files below 2 GiB. */
  lemma AnnouncedSize(file: seq<byte>, name: string, i: nat)
    requires i * CHUNK < |file|
    ensures ChunkAt(file, name, i).total == |file| <==> |file| < 0x8000_0000
    ensures |file| < 0x8000_0000 ==> ChunkAt(file, name, i).trans == Min((i + 1) * CHUNK, |file|)
  {
  }

  /** A file of 2 GiB announces a negative size. */
  lemma TwoGiB(file: seq<byte>, name: string)
    requires |file| == 0x8000_0000
    ensures ChunkAt(file, name, 0).total == -0x8000_0000
  {
  }

  lemma {:induction false} ChunksFromAt(file: seq<byte>, name: string, i: nat, k: nat)
    requires k < |ChunksFrom(file, name, i)|
    ensures (i + k) * CHUNK < |file| && ChunksFrom(file, name, i)[k] == ChunkAt(file, name, i + k)
    ensures k + 1 == |ChunksFrom(file, name, i)| <==> (i + k + 1) * CHUNK >= |file|
    decreases k
  {
    var next := i + 1;
    if k > 0 {
      var rest := ChunksFrom(file, name, next);
      assert ChunksFrom(file, name, i) == [ChunkAt(file, name, i)] + rest;
      ChunksFromAt(file, name, next, k - 1);
    }
  }

  /** The messages of a file, one by one: its parts of 32 KiB in order, counted from 1, with their sizes. */
  lemma ChunksAre(file: seq<byte>, name: string, k: nat)
    requires |file| < 0x8000_0000 && k < |ChunksFrom(file, name, 0)|
    ensures var c := ChunksFrom(file, name, 0)[k];
      && c.seqNo == k + 1 && c.name == name && c.total == |file| && c.trans == Min(32768 * (k + 1), |file|)
      && 32768 * k < |file| && Base64.Decode(c.data) == Some(file[32768 * k..c.trans])
    ensures k + 1 == |ChunksFrom(file, name, 0)| <==> 32768 * (k + 1) >= |file|
  {
    ChunksFromAt(file, name, 0, k);
    AnnouncedSize(file, name, k);
    SliceIs(file, k, 32768 * k);
    Base64.RoundTrip(ChunkAt(file, name, k).data, Slice(file, k));
  }

  // ---------------------------------------------------------------- requests of one upload among others

  function Mine(rs: seq<Request>, key: Key): seq<Request> {
    if rs == [] then []
    else (if KeyOf(rs[0]) == key then [rs[0]] else []) + Mine(rs[1..], key)
  }

  function UploadsOf(us: seq<(Key, Stored)>, key: Key): seq<Stored> {
    if us == [] then []
    else (if us[0].0 == key then [us[0].1] else []) + UploadsOf(us[1..], key)
  }

  lemma UploadsOfFirst(r: Request, u: Option<Stored>, rest: seq<(Key, Stored)>, key: Key)
    ensures UploadsOf((if u.Some? then [(KeyOf(r), u.value)] else []) + rest, key)
         == (if u.Some? && KeyOf(r) == key then [u.value] else []) + UploadsOf(rest, key)
  {
    if u.Some? {
      assert ([(KeyOf(r), u.value)] + rest)[1..] == rest;
    } else {
      assert [] + rest == rest;
    }
  }

  predicate Carries(r: Request, uid: int, c: Chunk) {
    && r.uid == uid && r.name == c.name && r.seqNo == c.seqNo && r.trans == c.trans && r.total == c.total
    && r.data == c.data && r.tokenOk
  }

  predicate AllCarry(mine: seq<Request>, uid: int, cs: seq<Chunk>) {
    |mine| == |cs| && forall j | 0 <= j < |cs| :: Carries(mine[j], uid, cs[j])
  }

  /**
    Once the upload has started, no request is handled more than 600 seconds after its latest
    chunk, as long as chunks of it are still to come.
  */
  predicate Timely(rs: seq<Request>, key: Key, started: bool, last: int)
    decreases |rs|
  {
    rs == [] || Mine(rs, key) == [] ||
    (&& (started ==> rs[0].now - last <= 600)
     && if KeyOf(rs[0]) == key then Timely(rs[1..], key, true, rs[0].now) else Timely(rs[1..], key, started, last))
  }

  /** The upload's entry after i chunks. */
  predicate Collected(m: map<Key, Acc>, key: Key, file: seq<byte>, i: nat, last: int) {
    i > 0 ==> i * CHUNK < |file| && key in m && m[key] == Acc(file[..i * CHUNK], |file|, last)
  }

  lemma OtherRequest(m: map<Key, Acc>, key: Key, file: seq<byte>, i: nat, last: int, r: Request)
    requires Collected(m, key, file, i, last) && KeyOf(r) != key
    requires i > 0 ==> r.now - last <= 600
    ensures Collected(SimpleHandle(m, r).m, key, file, i, last)
  {
  }

  lemma OwnRequest(m: map<Key, Acc>, uid: int, name: string, file: seq<byte>, i: nat, last: int, r: Request)
    requires i * CHUNK < |file| < 0x8000_0000 && Carries(r, uid, ChunkAt(file, name, i))
    requires Collected(m, Key(uid, SafeName(name)), file, i, last)
    ensures var key, h := Key(uid, SafeName(name)), SimpleHandle(m, r);
      if (i + 1) * CHUNK < |file| then h.upload == None && Collected(h.m, key, file, i + 1, r.now)
      else h.upload == Some(Stored(key.name, |file|, file, r.storeOk))
  {
    var key, part := Key(uid, SafeName(name)), Slice(file, i);
    Base64.RoundTrip(r.data, part);
    AnnouncedSize(file, name, i);
    SliceNext(file, i);
    var m1 := SimpleOpen(m, key, r);
    assert m1[key].content == file[..i * CHUNK] && m1[key].total == |file|;
  }

  lemma SliceNext(file: seq<byte>, i: nat)
    requires i * CHUNK < |file|
    ensures file[..i * CHUNK] + Slice(file, i) == file[..Min((i + 1) * CHUNK, |file|)]
    ensures file[..|file|] == file && file[..0] == []
  {
  }

  lemma CarryRest(rs: seq<Request>, key: Key, uid: int, cs: seq<Chunk>)
    requires rs != [] && KeyOf(rs[0]) == key && cs != [] && AllCarry(Mine(rs, key), uid, cs)
    ensures Carries(rs[0], uid, cs[0]) && AllCarry(Mine(rs[1..], key), uid, cs[1..])
    ensures Mine(rs, key) == [rs[0]] + Mine(rs[1..], key)
  {
    assert Mine(rs, key) == [rs[0]] + Mine(rs[1..], key);
    assert forall j | 0 <= j < |cs| - 1 :: cs[1..][j] == cs[j + 1] && Mine(rs[1..], key)[j] == Mine(rs, key)[j + 1];
  }

  lemma ChunksRest(file: seq<byte>, name: string, i: nat, cs: seq<Chunk>)
    requires cs != [] && cs <= ChunksFrom(file, name, i)
    ensures i * CHUNK < |file| && cs[0] == ChunkAt(file, name, i) && cs[1..] <= ChunksFrom(file, name, i + 1)
    ensures cs == ChunksFrom(file, name, i) <==> cs[1..] == ChunksFrom(file, name, i + 1)
    ensures (i + 1) * CHUNK >= |file| <==> ChunksFrom(file, name, i + 1) == []
  {
    assert ChunksFrom(file, name, i)[1..] == ChunksFrom(file, name, i + 1);
  }

  /** Whether the stream to storage that the last of these requests starts succeeds. */
  predicate LastStored(mine: seq<Request>) { mine != [] && mine[|mine| - 1].storeOk }

  lemma LastOfRest(r: Request, mine: seq<Request>)
    ensures LastStored([r] + mine) == if mine == [] then r.storeOk else LastStored(mine)
  {
  }

  /** The uploads of requests that carry cs, a first part of the file's chunks from i on. */
  function Expected(file: seq<byte>, name: string, i: nat, cs: seq<Chunk>, mine: seq<Request>): seq<Stored> {
    if cs != [] && cs == ChunksFrom(file, name, i) then [Stored(SafeName(name), |file|, file, LastStored(mine))] else []
  }

  lemma ExpectedNext(file: seq<byte>, name: string, i: nat, cs: seq<Chunk>, r: Request, mine: seq<Request>)
    requires cs != [] && cs <= ChunksFrom(file, name, i) && |mine| == |cs| - 1
    ensures Expected(file, name, i, cs, [r] + mine)
         == if (i + 1) * CHUNK < |file| then Expected(file, name, i + 1, cs[1..], mine)
            else [Stored(SafeName(name), |file|, file, r.storeOk)]
    ensures (i + 1) * CHUNK >= |file| ==> mine == []
  {
    ChunksRest(file, name, i, cs);
    LastOfRest(r, mine);
  }

  /** Handling cs, a prefix of the remaining chunks: one upload if it is all of them, else none. */
  lemma {:induction false} UploadFrom(m: map<Key, Acc>, rs: seq<Request>, uid: int, name: string, file: seq<byte>,
                                      i: nat, last: int, cs: seq<Chunk>)
    requires var key := Key(uid, SafeName(name));
      AllCarry(Mine(rs, key), uid, cs) && Timely(rs, key, i > 0, last) && Collected(m, key, file, i, last)
    requires |file| < 0x8000_0000 && cs <= ChunksFrom(file, name, i)
    ensures var key := Key(uid, SafeName(name));
      UploadsOf(SimpleRun(m, rs).1, key) == Expected(file, name, i, cs, Mine(rs, key))
    decreases |rs|
  {
    var key := Key(uid, SafeName(name));
    if cs == [] {
      NoRequestNoUpload(m, rs, key);
    } else {
      var r, h := rs[0], SimpleHandle(m, rs[0]);
      FirstUpload(m, rs, key);
      MineFirst(rs, key);
      if KeyOf(r) == key {
        CarryRest(rs, key, uid, cs);
        ChunksRest(file, name, i, cs);
        ExpectedNext(file, name, i, cs, r, Mine(rs[1..], key));
        OwnRequest(m, uid, name, file, i, last, r);
        if (i + 1) * CHUNK < |file| {
          UploadFrom(h.m, rs[1..], uid, name, file, i + 1, r.now, cs[1..]);
        } else {
          NoRequestNoUpload(h.m, rs[1..], key);
        }
      } else {
        OtherRequest(m, key, file, i, last, r);
        UploadFrom(h.m, rs[1..], uid, name, file, i, last, cs);
      }
    }
  }

  lemma MineFirst(rs: seq<Request>, key: Key)
    requires rs != []
    ensures Mine(rs, key) == if KeyOf(rs[0]) == key then [rs[0]] + Mine(rs[1..], key) else Mine(rs[1..], key)
  {
  }

  lemma FirstUpload(m: map<Key, Acc>, rs: seq<Request>, key: Key)
    requires rs != []
    ensures var h := SimpleHandle(m, rs[0]);
      UploadsOf(SimpleRun(m, rs).1, key)
        == (if h.upload.Some? && KeyOf(rs[0]) == key then [h.upload.value] else [])
           + UploadsOf(SimpleRun(h.m, rs[1..]).1, key)
  {
    var h := SimpleHandle(m, rs[0]);
    UploadsOfFirst(rs[0], h.upload, SimpleRun(h.m, rs[1..]).1, key);
  }

  lemma {:induction false} NoRequestNoUpload(m: map<Key, Acc>, rs: seq<Request>, key: Key)
    requires Mine(rs, key) == []
    ensures UploadsOf(SimpleRun(m, rs).1, key) == []
    decreases |rs|
  {
    if rs == [] {
    } else {
      var h := SimpleHandle(m, rs[0]);
      NoRequestNoUpload(h.m, rs[1..], key);
      UploadsOfFirst(rs[0], h.upload, SimpleRun(h.m, rs[1..]).1, key);
    }
  }

  /**
    Any interleaving with other uploads in which no request clashes: if the requests for a key carry a
    prefix of a file's chunks, the storage server gets the whole file in one call when that prefix is
    everything, and nothing before; every chunk is confirmed, the last one if storage and database take it.
  */
  lemma {:induction false} UploadedOnceAtTheEnd(st: State, rs: seq<Request>, uid: int, name: string,
                                                file: seq<byte>, cs: seq<Chunk>)
    requires Good(st) && AllOk(rs) && Clean(st, rs) && |file| < 0x8000_0000
    requires cs <= ChunksFrom(file, name, 0) && AllCarry(Mine(rs, Key(uid, SafeName(name))), uid, cs)
    requires Timely(rs, Key(uid, SafeName(name)), false, 0)
    ensures UploadsOf(Run(st, rs).1, Key(uid, SafeName(name)))
         == Expected(file, name, 0, cs, Mine(rs, Key(uid, SafeName(name))))
    ensures AnswersRight(Answers(st, rs, Key(uid, SafeName(name))), Mine(rs, Key(uid, SafeName(name))), file, 0)
  {
    AnswersFrom(st, rs, uid, name, file, 0, 0, cs);
    RunRefines(st, rs);
    UploadFrom(Abstract(st), rs, uid, name, file, 0, 0, cs);
  }

  /** The answers to the requests of one upload. */
  function Answers(st: State, rs: seq<Request>, key: Key): seq<Error>
    decreases |rs|
  {
    if rs == [] then []
    else
      var h := Handle(st, rs[0]);
      (if KeyOf(rs[0]) == key then [h.error] else []) + Answers(h.st, rs[1..], key)
  }

  /** Success, unless the chunk is the last one and storage or database fail. */
  function AnswerTo(r: Request, last: bool): Error {
    if last && !(r.storeOk && r.songOk) then EtherInvalid else Success
  }

  predicate AnswersRight(answers: seq<Error>, mine: seq<Request>, file: seq<byte>, i: nat) {
    && |answers| == |mine|
    && forall j | 0 <= j < |mine| :: answers[j] == AnswerTo(mine[j], 32768 * (i + j + 1) >= |file|)
  }

  lemma OwnAnswer(st: State, uid: int, name: string, file: seq<byte>, i: nat, last: int, r: Request)
    requires Good(st) && r.disk.DiskOk? && i * CHUNK < |file| < 0x8000_0000
    requires Carries(r, uid, ChunkAt(file, name, i))
    requires Collected(Abstract(st), Key(uid, SafeName(name)), file, i, last)
    ensures Handle(st, r).error == AnswerTo(r, 32768 * (i + 1) >= |file|)
  {
    Base64.RoundTrip(r.data, Slice(file, i));
    AnnouncedSize(file, name, i);
    AnswersIff(st, r);
  }

  lemma AnswersRightFirst(answers: seq<Error>, r: Request, mine: seq<Request>, file: seq<byte>, i: nat)
    requires AnswersRight(answers, mine, file, i + 1)
    ensures AnswersRight([AnswerTo(r, 32768 * (i + 1) >= |file|)] + answers, [r] + mine, file, i)
  {
  }

  lemma {:induction false} AnswersFrom(st: State, rs: seq<Request>, uid: int, name: string, file: seq<byte>,
                                       i: nat, last: int, cs: seq<Chunk>)
    requires Good(st) && AllOk(rs) && Clean(st, rs)
    requires var key := Key(uid, SafeName(name));
      && AllCarry(Mine(rs, key), uid, cs) && Timely(rs, key, i > 0, last)
      && Collected(Abstract(st), key, file, i, last)
    requires |file| < 0x8000_0000 && cs <= ChunksFrom(file, name, i)
    ensures var key := Key(uid, SafeName(name)); AnswersRight(Answers(st, rs, key), Mine(rs, key), file, i)
    decreases |rs|
  {
    var key := Key(uid, SafeName(name));
    if cs == [] {
      NoRequestNoAnswer(st, rs, key);
    } else {
      var r, st' := rs[0], Handle(st, rs[0]).st;
      MineFirst(rs, key);
      HandleRefines(st, r);
      if KeyOf(r) == key {
        CarryRest(rs, key, uid, cs);
        ChunksRest(file, name, i, cs);
        OwnAnswer(st, uid, name, file, i, last, r);
        OwnRequest(Abstract(st), uid, name, file, i, last, r);
        if (i + 1) * CHUNK < |file| {
          AnswersFrom(st', rs[1..], uid, name, file, i + 1, r.now, cs[1..]);
        } else {
          NoRequestNoAnswer(st', rs[1..], key);
        }
        AnswersRightFirst(Answers(st', rs[1..], key), r, Mine(rs[1..], key), file, i);
      } else {
        OtherRequest(Abstract(st), key, file, i, last, r);
        AnswersFrom(st', rs[1..], uid, name, file, i, last, cs);
      }
    }
  }

  lemma {:induction false} NoRequestNoAnswer(st: State, rs: seq<Request>, key: Key)
    requires Mine(rs, key) == []
    ensures Answers(st, rs, key) == []
    decreases |rs|
  {
    if rs == [] {
    } else {
      MineFirst(rs, key);
      NoRequestNoAnswer(Handle(st, rs[0]).st, rs[1..], key);
    }
  }

  // ---------------------------------------------------------------- the whole way

  /** The chunks under this sanitised name that the upload messages among these carry. */
  function ChunksIn(ms: seq<Message>, fromJson: seq<byte> -> Option<Chunk>, safe: string): seq<Chunk> {
    if ms == [] then []
    else
      var c := if ms[0].id == ID_UPLOAD_FILE_REQ then fromJson(ms[0].body) else None;
      (if c.Some? && SafeName(c.value.name) == safe then [c.value] else []) + ChunksIn(ms[1..], fromJson, safe)
  }

  /** The streams that reach storage for these uploads. */
  ghost predicate Carry(streams: seq<Upload>, uploads: seq<Stored>) {
    |streams| == |uploads| && forall i | 0 <= i < |streams| :: Matches(Some(streams[i]), Some(uploads[i]))
  }

  /** A connection's messages, however cut into reads, and the requests that come of one upload. */
  ghost predicate Arrives(ms: seq<Message>, fragments: seq<seq<byte>>, fromJson: seq<byte> -> Option<Chunk>,
                          uid: int, safe: string, rs: seq<Request>) {
    && ServerReceiver.Legal(ServerReceiver.START, fragments) && Concat(fragments) == Stream(ms)
    && var (r, posted) := ServerReceiver.Feed(ServerReceiver.START, fragments);
       |r.got| < r.total && AllCarry(Mine(rs, Key(uid, safe)), uid, ChunksIn(posted, fromJson, safe))
  }

  /**
    The bytes sent are the bytes stored. A connection sends any messages, among which those that upload
    under one name carry the chunks of a non-empty file. However the bytes are cut into reads, and
    however the requests that come of them interleave with other uploads without a clash, one stream
    goes to storage, which announces the file's size and brings the file, if the stream succeeds, and
    else a first part of it.
  */
  lemma {:induction false} BytesSentAreBytesStored(ms: seq<Message>, fragments: seq<seq<byte>>,
                                                   fromJson: seq<byte> -> Option<Chunk>, file: seq<byte>,
                                                   name: string, uid: int, st: State, rs: seq<Request>,
                                                   streams: seq<Upload>)
    requires 0 < |file| < 0x8000_0000 && forall m | m in ms :: Fits(m)
    requires ChunksIn(ms, fromJson, SafeName(name)) == ChunksFrom(file, name, 0)
    requires Arrives(ms, fragments, fromJson, uid, SafeName(name), rs)
    requires Good(st) && AllOk(rs) && Clean(st, rs) && Timely(rs, Key(uid, SafeName(name)), false, 0)
    requires Carry(streams, UploadsOf(Run(st, rs).1, Key(uid, SafeName(name))))
    ensures |streams| == 1 && streams[0].name == SafeName(name) && streams[0].size == |file|
    ensures forall b | b in streams[0].blocks :: 0 < |b| <= 262144
    ensures Concat(streams[0].blocks) <= file
    ensures LastStored(Mine(rs, Key(uid, SafeName(name)))) ==> Concat(streams[0].blocks) == file
  {
    assert Concat(fragments) + [] == Stream(ms);
    ServerReceiver.AnyFragmentation(ms, fragments, []);
    UploadedOnceAtTheEnd(st, rs, uid, name, file, ChunksFrom(file, name, 0));
  }

  function Frame(c: Chunk, toJson: Chunk -> seq<byte>): Message { Message(ID_UPLOAD_FILE_REQ, toJson(c)) }

  function FramesOf(cs: seq<Chunk>, toJson: Chunk -> seq<byte>): (ms: seq<Message>)
    ensures |ms| == |cs| && forall i | 0 <= i < |cs| :: ms[i] == Frame(cs[i], toJson) && ms[i].id == 1006
  {
    if cs == [] then [] else [Frame(cs[0], toJson)] + FramesOf(cs[1..], toJson)
  }

  lemma {:induction false} ChunksInFrames(cs: seq<Chunk>, toJson: Chunk -> seq<byte>,
                                          fromJson: seq<byte> -> Option<Chunk>, safe: string)
    requires forall c | c in cs :: fromJson(toJson(c)) == Some(c) && SafeName(c.name) == safe
    ensures ChunksIn(FramesOf(cs, toJson), fromJson, safe) == cs
  {
    if cs == [] {
    } else {
      assert cs[0] in cs;
      assert FramesOf(cs, toJson)[1..] == FramesOf(cs[1..], toJson);
      ChunksInFrames(cs[1..], toJson, fromJson, safe);
    }
  }

  lemma {:induction false} ChunkNames(file: seq<byte>, name: string, i: nat)
    ensures forall c | c in ChunksFrom(file, name, i) :: c.name == name
    decreases |file| - i * CHUNK
  {
    if i * CHUNK >= |file| {
    } else {
      ChunkNames(file, name, i + 1);
    }
  }

  /**
    In particular for a connection that sends one upload, if its JSON text can be read back and fits,
    and names that the file system takes for the same do not meet.
  */
  lemma {:induction false} OneUploadIsStored(file: seq<byte>, name: string, toJson: Chunk -> seq<byte>,
                                             fromJson: seq<byte> -> Option<Chunk>, fragments: seq<seq<byte>>,
                                             uid: int, st: State, rs: seq<Request>, streams: seq<Upload>)
    requires 0 < |file| < 0x8000_0000
    requires forall c | c in ChunksFrom(file, name, 0) :: |toJson(c)| < 65536 && fromJson(toJson(c)) == Some(c)
    requires Arrives(FramesOf(ChunksFrom(file, name, 0), toJson), fragments, fromJson, uid, SafeName(name), rs)
    requires Good(st) && AllOk(rs) && NamesApart(st.fold, st.spools.Keys + KeysOf(rs))
    requires Timely(rs, Key(uid, SafeName(name)), false, 0) && LastStored(Mine(rs, Key(uid, SafeName(name))))
    requires Carry(streams, UploadsOf(Run(st, rs).1, Key(uid, SafeName(name))))
    ensures |streams| == 1 && streams[0].name == SafeName(name) && streams[0].size == |file|
    ensures Concat(streams[0].blocks) == file
  {
    var cs := ChunksFrom(file, name, 0);
    ChunkNames(file, name, 0);
    ChunksInFrames(cs, toJson, fromJson, SafeName(name));
    var ms := FramesOf(cs, toJson);
    forall m | m in ms ensures Fits(m) {
      var i :| 0 <= i < |ms| && ms[i] == m;
      assert cs[i] in cs;
    }
    ApartIsClean(st, rs);
    BytesSentAreBytesStored(ms, fragments, fromJson, file, name, uid, st, rs, streams);
  }
}
