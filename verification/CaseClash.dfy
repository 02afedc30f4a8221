/**
  Two uploads whose names differ only in case, chunk by chunk: the first breaks off after more than
  8 MiB, the second comes within 600 seconds. They share a temporary file, so storage receives the
  bytes of the first before those of the second.
*/
module CaseClash {
  import opened Bytes
  import opened Spool
  import opened UploadPipeline
  import Base64

  // ---------------------------------------------------------------- the first upload

  lemma CarryTail(rs: seq<Request>, uid: int, cs: seq<Chunk>)
    requires rs != [] && AllCarry(rs, uid, cs)
    ensures cs != [] && Carries(rs[0], uid, cs[0]) && AllCarry(rs[1..], uid, cs[1..])
  {
  }

  lemma FirstOf(file: seq<byte>, name: string, i: nat, cs: seq<Chunk>)
    requires cs != [] && cs <= ChunksFrom(file, name, i)
    ensures i * CHUNK < |file| && cs[0] == ChunkAt(file, name, i) && cs[1..] <= ChunksFrom(file, name, i + 1)
  {
    ChunksRest(file, name, i, cs);
  }

  lemma AllOf(file: seq<byte>, name: string, i: nat)
    requires i * CHUNK < |file|
    ensures ChunksFrom(file, name, i) == [ChunkAt(file, name, i)] + ChunksFrom(file, name, i + 1)
    ensures (i + 1) * CHUNK >= |file| ==> ChunksFrom(file, name, i + 1) == []
  {
  }

  /** The first of the requests that carry all chunks from i on. */
  lemma FirstCarries(rs: seq<Request>, uid: int, file: seq<byte>, name: string, i: nat)
    requires i * CHUNK < |file| && AllCarry(rs, uid, ChunksFrom(file, name, i))
    ensures rs != [] && Carries(rs[0], uid, ChunkAt(file, name, i))
    ensures AllCarry(rs[1..], uid, ChunksFrom(file, name, i + 1))
    ensures (i + 1) * CHUNK >= |file| ==> rs[1..] == []
    ensures (i + 1) * CHUNK < |file| ==> rs[1..] != []
  {
    AllOf(file, name, i);
    CarryTail(rs, uid, ChunksFrom(file, name, i));
    assert ChunksFrom(file, name, i)[1..] == ChunksFrom(file, name, i + 1);
  }

  lemma CarriedKey(r: Request, uid: int, file: seq<byte>, name: string, i: nat)
    requires i * CHUNK <= |file| && Carries(r, uid, ChunkAt(file, name, i))
    ensures KeyOf(r) == Key(uid, SafeName(name))
  {
  }

  lemma Before(i: nat, end: nat, size: nat)
    requires i <= end && end * CHUNK < size
    ensures i * CHUNK < size
  {
    assert i * CHUNK <= end * CHUNK;
  }

  /** One more chunk of a first part: what is left of the requests and of the chunks. */
  lemma CollectOne(m: map<Key, Acc>, rs: seq<Request>, uid: int, name: string, file: seq<byte>,
                   i: nat, last: int, cs: seq<Chunk>)
    returns (m': map<Key, Acc>, rs': seq<Request>, cs': seq<Chunk>)
    requires rs != [] && AllCarry(rs, uid, cs) && cs <= ChunksFrom(file, name, i)
    requires (i + 1) * CHUNK < |file| < 0x8000_0000
    requires Collected(m, Key(uid, SafeName(name)), file, i, last)
    ensures SimpleRun(m, rs) == SimpleRun(m', rs') && Collected(m', Key(uid, SafeName(name)), file, i + 1, rs[0].now)
    ensures AllCarry(rs', uid, cs') && cs' <= ChunksFrom(file, name, i + 1)
    ensures |rs'| == |rs| - 1 && |cs'| == |cs| - 1 && LastNow(rs, last) == LastNow(rs', rs[0].now)
  {
    m', rs', cs' := SimpleHandle(m, rs[0]).m, rs[1..], cs[1..];
    CarryTail(rs, uid, cs);
    FirstOf(file, name, i, cs);
    OwnRequest(m, uid, name, file, i, last, rs[0]);
    SimpleRunFirst(m, rs);
  }

  function LastNow(rs: seq<Request>, last: int): int { if rs == [] then last else rs[|rs| - 1].now }

  /** After a proper first part of the chunks, and nothing else, the entry has them and nothing is uploaded. */
  lemma {:induction false} Collect(m: map<Key, Acc>, rs: seq<Request>, uid: int, name: string, file: seq<byte>,
                                   i: nat, last: int, cs: seq<Chunk>, end: nat)
    returns (m': map<Key, Acc>)
    requires AllCarry(rs, uid, cs) && cs <= ChunksFrom(file, name, i) && end == i + |cs|
    requires end * CHUNK < |file| < 0x8000_0000
    requires Collected(m, Key(uid, SafeName(name)), file, i, last)
    ensures SimpleRun(m, rs) == (m', []) && Collected(m', Key(uid, SafeName(name)), file, end, LastNow(rs, last))
    decreases |rs|
  {
    if rs == [] {
      m' := m;
    } else {
      Before(i + 1, end, |file|);
      var m1, rs1, cs1 := CollectOne(m, rs, uid, name, file, i, last, cs);
      m' := Collect(m1, rs1, uid, name, file, i + 1, rs[0].now, cs1, end);
    }
  }

  lemma SimpleRunFirst(m: map<Key, Acc>, rs: seq<Request>)
    requires rs != [] && SimpleHandle(m, rs[0]).upload == None
    ensures SimpleRun(m, rs) == SimpleRun(SimpleHandle(m, rs[0]).m, rs[1..])
  {
    var rest := SimpleRun(SimpleHandle(m, rs[0]).m, rs[1..]).1;
    assert [] + rest == rest;
  }

  lemma {:induction false} RunKeys(st: State, rs: seq<Request>)
    ensures Run(st, rs).0.fold == st.fold && Run(st, rs).0.spools.Keys <= st.spools.Keys + KeysOf(rs)
    decreases |rs|
  {
    if rs == [] {
    } else {
      KeysStay(st, rs[0]);
      RunKeys(Handle(st, rs[0]).st, rs[1..]);
    }
  }

  lemma {:induction false} CarriedKeys(
      rs: seq<Request>, uid: int, name: string, file: seq<byte>, i: nat, cs: seq<Chunk>)
    requires AllCarry(rs, uid, cs) && cs <= ChunksFrom(file, name, i)
    ensures forall r | r in rs :: KeyOf(r) == Key(uid, SafeName(name))
    decreases |rs|
  {
    if rs == [] {
    } else {
      CarryTail(rs, uid, cs);
      FirstOf(file, name, i, cs);
      CarriedKey(rs[0], uid, file, name, i);
      CarriedKeys(rs[1..], uid, name, file, i + 1, cs[1..]);
    }
  }

  function Empty(fold: char -> char): State { State(map[], map[], fold) }

  /** An upload that broke off: the only entry, with x in its file. */
  predicate BrokenOff(st: State, k: Key, x: seq<byte>, last: int) {
    st.spools.Keys == {k} && st.spools[k].lastActive == last && FileOf(st, k) == x
  }

  lemma {:induction false} FirstPart(
      fold: char -> char, rs: seq<Request>, uid: int, name: string, file: seq<byte>, n: nat)
    requires n * CHUNK < |file| < 0x8000_0000 && n * CHUNK > SPOOL_MEM_THRESHOLD && AllOk(rs)
    requires |ChunksFrom(file, name, 0)| >= n && AllCarry(rs, uid, ChunksFrom(file, name, 0)[..n])
    ensures Run(Empty(fold), rs).1 == [] && Run(Empty(fold), rs).0.fold == fold
    ensures BrokenOff(Run(Empty(fold), rs).0, Key(uid, SafeName(name)), file[..n * CHUNK], rs[|rs| - 1].now)
  {
    var k, cs := Key(uid, SafeName(name)), ChunksFrom(file, name, 0)[..n];
    CarriedKeys(rs, uid, name, file, 0, cs);
    var m := Collect(map[], rs, uid, name, file, 0, 0, cs, n);
    FromEmpty(fold, rs, k);
    OnlyKey(fold, rs, k);
    OnlyEntry(Run(Empty(fold), rs).0, k, Acc(file[..n * CHUNK], |file|, rs[|rs| - 1].now));
  }

  lemma {:induction false} OnlyKey(fold: char -> char, rs: seq<Request>, k: Key)
    requires forall r | r in rs :: KeyOf(r) == k
    ensures Run(Empty(fold), rs).0.fold == fold && Run(Empty(fold), rs).0.spools.Keys <= {k}
  {
    RunKeys(Empty(fold), rs);
  }

  /** Requests of one upload cannot clash. */
  lemma {:induction false} FromEmpty(fold: char -> char, rs: seq<Request>, k: Key)
    requires AllOk(rs) && forall r | r in rs :: KeyOf(r) == k
    ensures var (st, us) := Run(Empty(fold), rs);
      Good(st) && Abstract(st) == SimpleRun(map[], rs).0 && us == SimpleRun(map[], rs).1
  {
    EmptyIsGood(fold);
    ApartIsClean(Empty(fold), rs);
    RunRefines(Empty(fold), rs);
    assert Abstract(Empty(fold)) == map[];
  }

  lemma OnlyEntry(st: State, k: Key, a: Acc)
    requires Good(st) && st.spools.Keys <= {k} && k in Abstract(st) && Abstract(st)[k] == a
    requires |a.content| > SPOOL_MEM_THRESHOLD
    ensures BrokenOff(st, k, a.content, a.lastActive)
  {
    LargeIsSpilled(st, k);
  }

  lemma EmptyIsGood(fold: char -> char)
    ensures Good(Empty(fold))
  {
  }

  lemma LargeIsSpilled(st: State, k: Key)
    requires Good(st) && k in st.spools && |Contents(st, k)| > SPOOL_MEM_THRESHOLD
    ensures FileOf(st, k) == Contents(st, k)
  {
    assert EntryOk(st, k);
    assert FileOf(st, k) + [] == FileOf(st, k) && [] + st.spools[k].mem == st.spools[k].mem;
  }

  // ---------------------------------------------------------------- the second upload

  /** Before it spills its file is that of the other; then its content follows that. */
  predicate Mixed(st: State, l: Key, x: seq<byte>, content: seq<byte>, total: int) {
    && l in st.spools && st.spools[l].total == total
    && if st.spools[l].spilled then st.spools[l].mem == [] && FileOf(st, l) == x + content
       else st.spools[l].mem == content && |content| <= SPOOL_MEM_THRESHOLD && FileOf(st, l) == x
  }

  lemma MixedAdd(st: State, l: Key, x: seq<byte>, content: seq<byte>, total: int, decoded: seq<byte>, now: int)
    requires Mixed(st, l, x, content, total)
    ensures Mixed(Add(st, l, decoded, now), l, x, content + decoded, total)
  {
    AppendAssociative(x, content, decoded);
    assert [] + decoded == decoded;
  }

  lemma MixedBack(st: State, l: Key, x: seq<byte>, content: seq<byte>, total: int)
    requires Mixed(st, l, x, content, total) && |content| > SPOOL_MEM_THRESHOLD
    ensures ReadBack(st, l) == x + content
  {
    assert [] + (x + content) == x + content;
  }

  lemma SweepNothing(st: State, k: Key, now: int)
    requires forall l | l in st.spools :: !Swept(st.spools[l], l, k, now)
    ensures Sweep(st, k, now) == st
  {
    var gone := set l | l in st.spools && Swept(st.spools[l], l, k, now);
    assert gone == {};
    assert st.spools - gone == st.spools && st.disk - {} == st.disk;
  }

  /** What the second upload finds when i chunks of it have been handled. */
  predicate Stands(st: State, k: Key, l: Key, x: seq<byte>, file: seq<byte>, i: nat, now: int) {
    if i == 0 then
      && k != l && FileId(st.fold, k) == FileId(st.fold, l) && st.spools.Keys == {k} && FileOf(st, k) == x
      && now - st.spools[k].lastActive <= SPOOL_STALE_SECONDS
    else
      i * CHUNK <= |file| && Mixed(st, l, x, file[..i * CHUNK], |file|)
  }

  lemma OpenMixed(st: State, k: Key, r: Request, x: seq<byte>, file: seq<byte>, i: nat)
    requires Stands(st, k, KeyOf(r), x, file, i, r.now) && i * CHUNK < |file| && r.seqNo == i + 1 && r.total == |file|
    ensures Mixed(Open(st, KeyOf(r), r), KeyOf(r), x, file[..i * CHUNK], |file|)
  {
    if i == 0 {
      SweepNothing(st, KeyOf(r), r.now);
    }
  }

  lemma MixedRequest(st: State, k: Key, r: Request, uid: int, name: string, x: seq<byte>, file: seq<byte>, i: nat)
    requires i * CHUNK < |file| < 0x8000_0000 && |file| > SPOOL_MEM_THRESHOLD && r.disk.DiskOk?
    requires Carries(r, uid, ChunkAt(file, name, i)) && Stands(st, k, Key(uid, SafeName(name)), x, file, i, r.now)
    ensures var l, h := Key(uid, SafeName(name)), Handle(st, r);
      if (i + 1) * CHUNK < |file| then h.upload == None && Mixed(h.st, l, x, file[..(i + 1) * CHUNK], |file|)
      else h.upload == Some(Stored(l.name, |file|, x + file, r.storeOk))
  {
    var l, part := Key(uid, SafeName(name)), Slice(file, i);
    Base64.RoundTrip(r.data, part);
    AnnouncedSize(file, name, i);
    SliceNext(file, i);
    OpenMixed(st, k, r, x, file, i);
    StoreMixed(Open(st, l, r), l, r, x, file[..i * CHUNK], part, |file|, (i + 1) * CHUNK < |file|);
  }

  lemma StoreMixed(
      st: State, l: Key, r: Request, x: seq<byte>, content: seq<byte>, part: seq<byte>, total: int, more: bool)
    requires Mixed(st, l, x, content, total) && r.disk.DiskOk? && (more <==> r.total != r.trans)
    requires !more ==> |content + part| > SPOOL_MEM_THRESHOLD
    ensures var h := Store(st, l, part, r);
      if more then h.upload == None && Mixed(h.st, l, x, content + part, total)
      else h.upload == Some(Stored(l.name, total, x + (content + part), r.storeOk))
  {
    MixedAdd(st, l, x, content, total, part, r.now);
    if !more { MixedBack(Add(st, l, part, r.now), l, x, content + part, total); }
  }

  /** These requests carry the chunks of the second upload from i on. */
  predicate Follows(
      st: State, k: Key, rs: seq<Request>, uid: int, name: string, x: seq<byte>, file: seq<byte>, i: nat) {
    && i * CHUNK < |file| < 0x8000_0000 && |file| > SPOOL_MEM_THRESHOLD && AllOk(rs)
    && AllCarry(rs, uid, ChunksFrom(file, name, i)) && rs != []
    && Stands(st, k, Key(uid, SafeName(name)), x, file, i, rs[0].now)
  }

  /** The last chunk. */
  lemma MixedLast(st: State, k: Key, rs: seq<Request>, uid: int, name: string, x: seq<byte>, file: seq<byte>, i: nat)
    requires Follows(st, k, rs, uid, name, x, file, i) && (i + 1) * CHUNK >= |file|
    ensures Run(st, rs).1
         == [(Key(uid, SafeName(name)), Stored(SafeName(name), |file|, x + file, LastStored(rs)))]
  {
    FirstCarries(rs, uid, file, name, i);
    CarriedKey(rs[0], uid, file, name, i);
    MixedRequest(st, k, rs[0], uid, name, x, file, i);
    RunFirst(st, rs);
    LastOfTail(rs);
  }

  /** Any other chunk: what is left of the requests. */
  lemma MixedNext(st: State, k: Key, rs: seq<Request>, uid: int, name: string, x: seq<byte>, file: seq<byte>, i: nat)
    returns (st': State, rs': seq<Request>)
    requires Follows(st, k, rs, uid, name, x, file, i) && (i + 1) * CHUNK < |file|
    ensures Follows(st', k, rs', uid, name, x, file, i + 1)
    ensures Run(st, rs).1 == Run(st', rs').1 && |rs'| == |rs| - 1 && LastStored(rs) == LastStored(rs')
  {
    st', rs' := Handle(st, rs[0]).st, rs[1..];
    FirstCarries(rs, uid, file, name, i);
    CarriedKey(rs[0], uid, file, name, i);
    MixedRequest(st, k, rs[0], uid, name, x, file, i);
    RunFirst(st, rs);
    LastOfTail(rs);
  }

  lemma LastOfTail(rs: seq<Request>)
    requires rs != []
    ensures LastStored(rs) == if rs[1..] == [] then rs[0].storeOk else LastStored(rs[1..])
  {
    assert rs == [rs[0]] + rs[1..];
    LastOfRest(rs[0], rs[1..]);
  }

  lemma {:induction false} MixedRun(st: State, k: Key, rs: seq<Request>, uid: int, name: string, x: seq<byte>,
                                    file: seq<byte>, i: nat)
    requires Follows(st, k, rs, uid, name, x, file, i)
    ensures Run(st, rs).1
         == [(Key(uid, SafeName(name)), Stored(SafeName(name), |file|, x + file, LastStored(rs)))]
    decreases |rs|
  {
    var next := i + 1;
    if next * CHUNK >= |file| {
      MixedLast(st, k, rs, uid, name, x, file, i);
    } else {
      var st', rs' := MixedNext(st, k, rs, uid, name, x, file, i);
      assert Follows(st', k, rs', uid, name, x, file, next);
      MixedRun(st', k, rs', uid, name, x, file, next);
    }
  }

  lemma RunFirst(st: State, rs: seq<Request>)
    requires rs != []
    ensures var h := Handle(st, rs[0]);
      && (h.upload == None ==> Run(st, rs).1 == Run(h.st, rs[1..]).1)
      && (h.upload.Some? && rs[1..] == [] ==> Run(st, rs).1 == [(KeyOf(rs[0]), h.upload.value)])
  {
    var h := Handle(st, rs[0]);
    assert [] + Run(h.st, rs[1..]).1 == Run(h.st, rs[1..]).1;
    if rs[1..] == [] && h.upload.Some? {
      assert Run(h.st, []).1 == [];
      assert [(KeyOf(rs[0]), h.upload.value)] + [] == [(KeyOf(rs[0]), h.upload.value)];
    }
  }

  // ---------------------------------------------------------------- both

  lemma {:induction false} RunAppend(st: State, a: seq<Request>, b: seq<Request>)
    ensures Run(st, a + b).1 == Run(st, a).1 + Run(Run(st, a).0, b).1
    decreases |a|
  {
    if a == [] {
      assert a + b == b;
    } else {
      assert (a + b)[1..] == a[1..] + b;
      var h := Handle(st, a[0]);
      RunAppend(h.st, a[1..], b);
      AppendAssociative(if h.upload.Some? then [(KeyOf(a[0]), h.upload.value)] else [], Run(h.st, a[1..]).1,
                        Run(Run(h.st, a[1..]).0, b).1);
    }
  }

  /** For all such names, files and requests. */
  lemma {:induction false} CaseMixesUploads(
      fold: char -> char, uid: int, nameA: string, nameB: string, fileA: seq<byte>, fileB: seq<byte>,
      n: nat, rsA: seq<Request>, rsB: seq<Request>)
    requires SafeName(nameA) != SafeName(nameB)
    requires FileId(fold, Key(uid, SafeName(nameA))) == FileId(fold, Key(uid, SafeName(nameB)))
    requires n * CHUNK < |fileA| < 0x8000_0000 && n * CHUNK > SPOOL_MEM_THRESHOLD
    requires |ChunksFrom(fileA, nameA, 0)| >= n && AllCarry(rsA, uid, ChunksFrom(fileA, nameA, 0)[..n]) && AllOk(rsA)
    requires SPOOL_MEM_THRESHOLD < |fileB| < 0x8000_0000
    requires AllCarry(rsB, uid, ChunksFrom(fileB, nameB, 0)) && AllOk(rsB)
    requires rsB != [] && rsB[0].now - rsA[|rsA| - 1].now <= SPOOL_STALE_SECONDS
    ensures Run(Empty(fold), rsA + rsB).1
         == [(Key(uid, SafeName(nameB)), Stored(SafeName(nameB), |fileB|, fileA[..n * CHUNK] + fileB, LastStored(rsB)))]
  {
    var st := Run(Empty(fold), rsA).0;
    FirstPart(fold, rsA, uid, nameA, fileA, n);
    MixedRun(st, Key(uid, SafeName(nameA)), rsB, uid, nameB, fileA[..n * CHUNK], fileB, 0);
    RunAppend(Empty(fold), rsA, rsB);
  }

  // ---------------------------------------------------------------- one input

  const LOWER: char -> char := c => if 'A' <= c <= 'Z' then c + (32 as char) else c

  lemma SharedFile()
    ensures SafeName("A.mp3") == "A.mp3" && SafeName("a.mp3") == "a.mp3"
    ensures FileId(LOWER, Key(5, "A.mp3")) == FileId(LOWER, Key(5, "a.mp3"))
  {
    assert Folded(LOWER, "A.mp3") == Folded(LOWER, "a.mp3");
  }

  /** The requests that carry these chunks at one moment, all of them granted. */
  function Requests(uid: int, cs: seq<Chunk>, now: int): (rs: seq<Request>)
    ensures AllCarry(rs, uid, cs) && AllOk(rs) && forall r | r in rs :: r.now == now && r.storeOk
  {
    if cs == [] then []
    else
      var c := cs[0];
      [Request(uid, c.data, c.seqNo, c.name, c.total, c.trans, now, true, DiskOk, true, true)]
      + Requests(uid, cs[1..], now)
  }

  lemma {:induction false} ChunkCount(file: seq<byte>, name: string, i: nat, n: nat)
    requires (i + n) * CHUNK < |file|
    ensures |ChunksFrom(file, name, i)| > n
    decreases n
  {
    if n == 0 {
    } else {
      ChunkCount(file, name, i + 1, n - 1);
    }
  }

  /**
    User 5 uploads A.mp3, of which 257 chunks of 32 KiB arrive, and a.mp3 five minutes later, on a file
    system that ignores case.
  */
  lemma {:induction false} CaseMixesInput(fileA: seq<byte>, fileB: seq<byte>)
    requires 257 * CHUNK < |fileA| < 0x8000_0000 && SPOOL_MEM_THRESHOLD < |fileB| < 0x8000_0000
    ensures |ChunksFrom(fileA, "A.mp3", 0)| >= 257
    ensures var rsA := Requests(5, ChunksFrom(fileA, "A.mp3", 0)[..257], 0);
      var rsB := Requests(5, ChunksFrom(fileB, "a.mp3", 0), 300);
      Run(Empty(LOWER), rsA + rsB).1
        == [(Key(5, "a.mp3"), Stored("a.mp3", |fileB|, fileA[..257 * CHUNK] + fileB, true))]
  {
    SharedFile();
    ChunkCount(fileA, "A.mp3", 0, 257);
    ChunkCount(fileB, "a.mp3", 0, 0);
    var n: nat := 257;
    var rsA := Requests(5, ChunksFrom(fileA, "A.mp3", 0)[..n], 0);
    var rsB := Requests(5, ChunksFrom(fileB, "a.mp3", 0), 300);
    assert rsA[|rsA| - 1] in rsA && rsB[0] in rsB && rsB[|rsB| - 1] in rsB;
    CaseMixesUploads(LOWER, 5, "A.mp3", "a.mp3", fileA, fileB, n, rsA, rsB);
  }
}
