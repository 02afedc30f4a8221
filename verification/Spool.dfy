/**
  `UploadFileHandler`: chunks of an upload are collected in memory up to 8 MiB, then in a
  temporary file, and handed to the storage client with the last chunk.

  An upload is known by its user and sanitised file name; the map key tells all of them apart. The
  temporary files do not: the file system of the server ignores case, so uploads whose names differ
  only in case share one. `fold` is what it does to a character.
*/
module Spool {
  import opened Bytes
  import opened Frames
  import opened Storage
  import Base64

  const SPOOL_MEM_THRESHOLD: nat := 8388608
  const SPOOL_STALE_SECONDS: int := 600

  datatype Key = Key(uid: int, name: string)

  function SafeChar(c: char): char { if c == '/' || c == '\\' || c == ':' then '_' else c }

  function SafeName(name: string): string { seq(|name|, i requires 0 <= i < |name| => SafeChar(name[i])) }

  function Folded(fold: char -> char, s: string): string { seq(|s|, i requires 0 <= i < |s| => fold(s[i])) }

  /** Which temporary file the upload has; `SpoolKeys` derives this from the file names. */
  function FileId(fold: char -> char, k: Key): Key { Key(k.uid, Folded(fold, k.name)) }

  /** `SpoolEntry`; `spilled` means that `tmp_path` is set. */
  datatype Entry = Entry(mem: seq<byte>, spilled: bool, total: int, received: int, lastActive: int)

  /** `_spools` and the temporary files, by `FileId`. */
  datatype State = State(spools: map<Key, Entry>, disk: map<Key, seq<byte>>, fold: char -> char)

  /** The answer of the file system; after a failing write, some of the bytes have arrived. */
  datatype Disk = DiskOk | OpenFails | WriteFails(arrived: nat)

  /** The fields of a request, the clock, and what the environment answers. */
  datatype Request = Request(uid: int, data: string, seqNo: int, name: string, total: int, trans: int,
                             now: int, tokenOk: bool, disk: Disk, storeOk: bool, songOk: bool)

  datatype Error = Success | TokenInvalid | EtherInvalid

  /** What the storage server is given; `whole`: the stream succeeded, so all of the content has arrived. */
  datatype Stored = Stored(name: string, size: int, content: seq<byte>, whole: bool)

  function KeyOf(r: Request): Key { Key(r.uid, SafeName(r.name)) }

  // ---------------------------------------------------------------- the handler as a function

  /** The entries that a first chunk sweeps: interrupted uploads, and an older one of the same key. */
  predicate Swept(e: Entry, k: Key, key: Key, now: int) { now - e.lastActive > SPOOL_STALE_SECONDS || k == key }

  function Sweep(st: State, key: Key, now: int): State {
    var gone := set k | k in st.spools && Swept(st.spools[k], k, key, now);
    st.(spools := st.spools - gone, disk := st.disk - (set k | k in gone && st.spools[k].spilled :: FileId(st.fold, k)))
  }

  function FileOf(st: State, k: Key): seq<byte> {
    if FileId(st.fold, k) in st.disk then st.disk[FileId(st.fold, k)] else []
  }

  predicate NeedsFile(e: Entry, decoded: seq<byte>) {
    e.spilled || |e.mem| + |decoded| > SPOOL_MEM_THRESHOLD
  }

  function Touched(e: Entry, decoded: seq<byte>, now: int): Entry {
    e.(lastActive := now, received := e.received + |decoded|)
  }

  /** Appends these bytes to the file; the memory is empty then. */
  function AddToFile(st: State, k: Key, e: Entry, bytes: seq<byte>): State {
    st.(spools := st.spools[k := e.(mem := [], spilled := true)],
        disk := st.disk[FileId(st.fold, k) := FileOf(st, k) + bytes])
  }

  /** Appends a decoded chunk in memory if it fits, else to the file. */
  function Add(st: State, k: Key, decoded: seq<byte>, now: int): State
    requires k in st.spools
  {
    var e := Touched(st.spools[k], decoded, now);
    if NeedsFile(st.spools[k], decoded) then AddToFile(st, k, e, e.mem + decoded)
    else st.(spools := st.spools[k := e.(mem := e.mem + decoded)])
  }

  /** The file fails: not opened, the entry keeps its memory but has a path now; not written, a part arrives. */
  function AddFails(st: State, k: Key, decoded: seq<byte>, now: int, disk: Disk): State
    requires k in st.spools
  {
    var e := Touched(st.spools[k], decoded, now);
    if disk.WriteFails? then AddToFile(st, k, e, (e.mem + decoded)[..Min(disk.arrived, |e.mem + decoded|)])
    else st.(spools := st.spools[k := e.(spilled := true)])
  }

  /** What the read callback of a finished entry yields: the memory, then the file if there is a path. */
  function ReadBack(st: State, k: Key): seq<byte>
    requires k in st.spools
  {
    st.spools[k].mem + (if st.spools[k].spilled then FileOf(st, k) else [])
  }

  function Finish(st: State, k: Key): State
    requires k in st.spools
  {
    st.(spools := st.spools - {k}, disk := if st.spools[k].spilled then st.disk - {FileId(st.fold, k)} else st.disk)
  }

  datatype Result = Result(st: State, error: Error, upload: Option<Stored>)

  /** A request with `seq` 1 sweeps and starts a new entry; any other one needs an entry. */
  function Open(st: State, k: Key, r: Request): State {
    if r.seqNo != 1 then st else
    var swept := Sweep(st, k, r.now);
    swept.(spools := swept.spools[k := Entry([], false, r.total, 0, r.now)])
  }

  /** The part of the handler after the entry was found. */
  function Store(st: State, k: Key, decoded: seq<byte>, r: Request): Result
    requires k in st.spools
  {
    if NeedsFile(st.spools[k], decoded) && !r.disk.DiskOk? then
      Result(AddFails(st, k, decoded, r.now, r.disk), EtherInvalid, None)
    else
      var st' := Add(st, k, decoded, r.now);
      if r.total != r.trans then Result(st', Success, None)
      else Result(Finish(st', k), if r.storeOk && r.songOk then Success else EtherInvalid,
                  Some(Stored(k.name, st'.spools[k].total, ReadBack(st', k), r.storeOk)))
  }

  function Handle(st: State, r: Request): Result {
    var decoded, k := Base64.Decode(r.data), KeyOf(r);
    if !r.tokenOk then Result(st, TokenInvalid, None)
    else if decoded.None? then Result(st, EtherInvalid, None)
    else
      var st1 := Open(st, k, r);
      if k !in st1.spools then Result(st1, EtherInvalid, None) else Store(st1, k, decoded.value, r)
  }

  // ---------------------------------------------------------------- the object

  class LogicSystem {
    const fold: char -> char
    var spools: map<Key, Entry>
    var disk: map<Key, seq<byte>>

    function View(): State
      reads this
    {
      State(spools, disk, fold)
    }

    constructor (fold: char -> char)
      ensures View() == State(map[], map[], fold)
    {
      this.fold, spools, disk := fold, map[], map[];
    }

    /** The loop over `_spools` that erases entries and removes their files. */
    method SweepStale(key: Key, now: int)
      modifies this
      ensures View() == Sweep(old(View()), key, now)
    {
      var todo := spools.Keys;
      while todo != {}
        invariant todo <= spools.Keys <= old(spools.Keys)
        invariant forall k | k in old(spools) ::
          k in spools <==> (k in todo || !Swept(old(spools)[k], k, key, now))
        invariant forall k | k in spools :: spools[k] == old(spools)[k]
        invariant disk
          == old(disk) - (set k | k in old(spools.Keys) - spools.Keys && old(spools)[k].spilled :: FileId(fold, k))
        decreases todo
      {
        var k :| k in todo;
        todo := todo - {k};
        if now - spools[k].lastActive > SPOOL_STALE_SECONDS || k == key {
          if spools[k].spilled { disk := disk - {FileId(fold, k)}; }
          spools := spools - {k};
        }
      }
      ghost var gone := set k | k in old(spools) && Swept(old(spools)[k], k, key, now);
      assert spools.Keys == old(spools.Keys) - gone;
      assert gone == old(spools.Keys) - spools.Keys;
      assert spools == old(spools) - gone;
    }

    /** Appends the chunk; false if the file could not be opened or written. */
    method Append(k: Key, decoded: seq<byte>, now: int, answer: Disk) returns (ok: bool)
      requires k in spools
      modifies this
      ensures ok <==> !NeedsFile(old(spools)[k], decoded) || answer.DiskOk?
      ensures View() == if ok then Add(old(View()), k, decoded, now) else AddFails(old(View()), k, decoded, now, answer)
    {
      var e := spools[k];
      e := e.(lastActive := now, received := e.received + |decoded|);
      if !e.spilled && |e.mem| + |decoded| <= SPOOL_MEM_THRESHOLD {
        e := e.(mem := e.mem + decoded);
      } else {
        e := e.(spilled := true);
        if answer.OpenFails? {
          spools := spools[k := e];
          return false;
        }
        var file, bytes := FileId(fold, k), e.mem + decoded;
        if answer.WriteFails? { bytes := bytes[..Min(answer.arrived, |bytes|)]; }
        disk := disk[file := (if file in disk then disk[file] else []) + bytes];
        e := e.(mem := []);
        if answer.WriteFails? {
          spools := spools[k := e];
          return false;
        }
      }
      spools := spools[k := e];
      return true;
    }

    /** The last chunk: take the entry out, stream it, remove its file. */
    method Forward(k: Key, accepts: nat, finished: bool) returns (u: Upload, ok: bool)
      requires k in spools
      modifies this
      ensures View() == Finish(old(View()), k)
      ensures u.name == k.name && u.size == old(spools)[k].total
      ensures Concat(u.blocks) <= ReadBack(old(View()), k)
      ensures ok <==> finished && accepts > 0 && Concat(u.blocks) == ReadBack(old(View()), k)
      ensures accepts > 0 && Concat(u.blocks) != ReadBack(old(View()), k) ==> accepts == |u.blocks| + 1
      ensures forall b | b in u.blocks :: 0 < |b| <= BLOCK
    {
      var e := spools[k];
      spools := spools - {k};
      var file := FileId(fold, k);
      var reader := new SpoolReader(e.mem, if e.spilled then Some(if file in disk then disk[file] else []) else None);
      u, ok := UploadAudio(k.name, e.total, reader, accepts, finished);
      if e.spilled { disk := disk - {file}; }
    }

    /**
      The handler. `sent` is what `UploadAudio` streamed, if it was called, and `stored` whether it
      succeeded; `accepts` and `finished` are what the stream of the storage client answers.
    */
    method UploadFileHandler(r: Request, accepts: nat, finished: bool)
      returns (error: Error, sent: Option<Upload>, stored: bool)
      modifies this
      ensures var h := Handle(old(View()), r.(storeOk := stored));
        && View() == h.st && error == h.error && Matches(sent, h.upload)
        && (stored <==> sent.Some? && finished && accepts > 0 && Concat(sent.value.blocks) == h.upload.value.content)
        && (sent.Some? && accepts > 0 && Concat(sent.value.blocks) != h.upload.value.content ==>
              accepts == |sent.value.blocks| + 1)
    {
      if !r.tokenOk { return TokenInvalid, None, false; }
      var decoded := Base64.DecodeBase64(r.data);
      if decoded.None? { return EtherInvalid, None, false; }
      var k := KeyOf(r);
      if r.seqNo == 1 {
        SweepStale(k, r.now);
        spools := spools[k := Entry([], false, r.total, 0, r.now)];
      }
      assert View() == Open(old(View()), k, r);
      if k !in spools { return EtherInvalid, None, false; }
      var ok := Append(k, decoded.value, r.now, r.disk);
      if !ok { return EtherInvalid, None, false; }
      if r.total != r.trans { return Success, None, false; }
      var u, accepted := Forward(k, accepts, finished);
      return if accepted && r.songOk then Success else EtherInvalid, Some(u), accepted;
    }
  }

  /** The stream carries the upload: same name and announced size, and the content in small blocks. */
  predicate Matches(sent: Option<Upload>, upload: Option<Stored>) {
    && (sent.Some? <==> upload.Some?)
    && (sent.Some? ==>
          && sent.value.name == upload.value.name && sent.value.size == upload.value.size
          && Concat(sent.value.blocks) <= upload.value.content
          && (upload.value.whole ==> Concat(sent.value.blocks) == upload.value.content)
          && forall b | b in sent.value.blocks :: 0 < |b| <= BLOCK)
  }

  // ---------------------------------------------------------------- refinement of plain concatenation

  /** The simple form: each upload is the concatenation of its chunks since the first one. */
  datatype Acc = Acc(content: seq<byte>, total: int, lastActive: int)

  function SimpleSweep(m: map<Key, Acc>, key: Key, now: int): map<Key, Acc> {
    map k | k in m && now - m[k].lastActive <= 600 && k != key :: m[k]
  }

  datatype SimpleResult = SimpleResult(m: map<Key, Acc>, upload: Option<Stored>)

  function SimpleOpen(m: map<Key, Acc>, k: Key, r: Request): map<Key, Acc> {
    if r.seqNo == 1 then SimpleSweep(m, k, r.now)[k := Acc([], r.total, r.now)] else m
  }

  function SimpleStore(m: map<Key, Acc>, k: Key, decoded: seq<byte>, r: Request): SimpleResult
    requires k in m
  {
    var a := Acc(m[k].content + decoded, m[k].total, r.now);
    if r.total != r.trans then SimpleResult(m[k := a], None)
    else SimpleResult(m - {k}, Some(Stored(k.name, a.total, a.content, r.storeOk)))
  }

  function SimpleHandle(m: map<Key, Acc>, r: Request): SimpleResult {
    var decoded, k := Base64.Decode(r.data), KeyOf(r);
    if !r.tokenOk || decoded.None? then SimpleResult(m, None) else
    var m1 := SimpleOpen(m, k, r);
    if k !in m1 then SimpleResult(m1, None) else SimpleStore(m1, k, decoded.value, r)
  }

  function Contents(st: State, k: Key): seq<byte>
    requires k in st.spools
  {
    (if st.spools[k].spilled then FileOf(st, k) else []) + st.spools[k].mem
  }

  function Abstract(st: State): map<Key, Acc> {
    map k | k in st.spools :: Acc(Contents(st, k), st.spools[k].total, st.spools[k].lastActive)
  }

  predicate EntryOk(st: State, k: Key)
    requires k in st.spools
  {
    var e := st.spools[k];
    && (e.spilled ==> e.mem == [] && e.received > 8388608)
    && |e.mem| <= 8388608
    && e.received == |Contents(st, k)|
  }

  predicate Owns(st: State, k: Key, file: Key) { k in st.spools && st.spools[k].spilled && FileId(st.fold, k) == file }

  /** Entries are right, and the temporary files are exactly those of the entries that have one, one each. */
  ghost predicate Good(st: State) {
    && (forall k | k in st.spools :: EntryOk(st, k))
    && (forall file :: file in st.disk <==> exists k :: Owns(st, k, file))
    && (forall k, l | Owns(st, k, FileId(st.fold, k)) && Owns(st, l, FileId(st.fold, k)) :: k == l)
  }

  /** The upload is about to spill for the first time, and a file of that name is there. */
  predicate Clash(st: State, k: Key, decoded: seq<byte>)
    requires k in st.spools
  {
    !st.spools[k].spilled && NeedsFile(st.spools[k], decoded) && FileId(st.fold, k) in st.disk
  }

  lemma SweepRefines(st: State, key: Key, now: int)
    requires Good(st)
    ensures Good(Sweep(st, key, now)) && Abstract(Sweep(st, key, now)) == SimpleSweep(Abstract(st), key, now)
    ensures key !in Sweep(st, key, now).spools
  {
    var st' := Sweep(st, key, now);
    forall k | k in st'.spools ensures EntryOk(st', k) && Contents(st', k) == Contents(st, k) {
      SweptElsewhere(st, key, now, k);
    }
    forall file ensures file in st'.disk <==> exists k :: Owns(st', k, file) {
      SweptFiles(st, key, now, file);
    }
  }

  lemma SweptElsewhere(st: State, key: Key, now: int, k: Key)
    requires Good(st) && k in Sweep(st, key, now).spools
    ensures EntryOk(Sweep(st, key, now), k) && Contents(Sweep(st, key, now), k) == Contents(st, k)
  {
    var file := FileId(st.fold, k);
    assert EntryOk(st, k);
    if st.spools[k].spilled { assert Owns(st, k, file); }
  }

  lemma SweptFiles(st: State, key: Key, now: int, file: Key)
    requires Good(st)
    ensures file in Sweep(st, key, now).disk <==> exists k :: Owns(Sweep(st, key, now), k, file)
  {
    var st' := Sweep(st, key, now);
    if file in st'.disk {
      var k :| Owns(st, k, file);
      assert Owns(st', k, file);
    }
    if k :| Owns(st', k, file) { assert Owns(st, k, file); }
  }

  lemma AddContents(st: State, k: Key, decoded: seq<byte>, now: int)
    requires Good(st) && k in st.spools && !Clash(st, k, decoded)
    ensures var st' := Add(st, k, decoded, now); EntryOk(st', k) && Contents(st', k) == Contents(st, k) + decoded
  {
    if NeedsFile(st.spools[k], decoded) {
      AddIntoFile(st, k, decoded, now);
    } else {
      AddIntoMemory(st, k, decoded, now);
    }
  }

  lemma AddIntoFile(st: State, k: Key, decoded: seq<byte>, now: int)
    requires Good(st) && k in st.spools && !Clash(st, k, decoded) && NeedsFile(st.spools[k], decoded)
    ensures var st' := Add(st, k, decoded, now); EntryOk(st', k) && Contents(st', k) == Contents(st, k) + decoded
  {
    var st', e := Add(st, k, decoded, now), st.spools[k];
    assert EntryOk(st, k);
    AppendAssociative(FileOf(st, k), e.mem, decoded);
    assert FileOf(st, k) + [] == FileOf(st, k) && [] + e.mem == e.mem && [] + decoded == decoded;
    assert Contents(st', k) == FileOf(st', k) + [] == FileOf(st', k);
  }

  lemma AddIntoMemory(st: State, k: Key, decoded: seq<byte>, now: int)
    requires Good(st) && k in st.spools && !Clash(st, k, decoded) && !NeedsFile(st.spools[k], decoded)
    ensures var st' := Add(st, k, decoded, now); EntryOk(st', k) && Contents(st', k) == Contents(st, k) + decoded
  {
    var st', e := Add(st, k, decoded, now), st.spools[k];
    assert EntryOk(st, k);
    assert Contents(st', k) == [] + (e.mem + decoded) && [] + (e.mem + decoded) == e.mem + decoded;
  }

  lemma AddElsewhere(st: State, k: Key, decoded: seq<byte>, now: int, l: Key)
    requires Good(st) && k in st.spools && !Clash(st, k, decoded) && l in st.spools && l != k
    ensures var st' := Add(st, k, decoded, now);
      l in st'.spools && EntryOk(st', l) && Contents(st', l) == Contents(st, l) && st'.spools[l] == st.spools[l]
  {
    assert EntryOk(st, l);
    var file := FileId(st.fold, l);
    if st.spools[l].spilled {
      assert Owns(st, l, file);
      if st.spools[k].spilled && FileId(st.fold, k) == file { assert Owns(st, k, file); }
    }
  }

  lemma AddFiles(st: State, k: Key, decoded: seq<byte>, now: int, file: Key)
    requires Good(st) && k in st.spools
    ensures file in Add(st, k, decoded, now).disk <==> exists l :: Owns(Add(st, k, decoded, now), l, file)
  {
    var st' := Add(st, k, decoded, now);
    if file in st'.disk {
      if file in st.disk {
        var l :| Owns(st, l, file);
        assert Owns(st', l, file);
      } else {
        assert Owns(st', k, file);
      }
    }
    if l :| Owns(st', l, file) {
      if l != k || st.spools[k].spilled { assert Owns(st, l, file); }
    }
  }

  lemma AddApart(st: State, k: Key, decoded: seq<byte>, now: int, x: Key, y: Key)
    requires Good(st) && k in st.spools && !Clash(st, k, decoded)
    requires Owns(Add(st, k, decoded, now), x, FileId(st.fold, x))
    requires Owns(Add(st, k, decoded, now), y, FileId(st.fold, x))
    ensures x == y
  {
    var file := FileId(st.fold, x);
    if x != k || st.spools[k].spilled { assert Owns(st, x, file); }
    if y != k || st.spools[k].spilled { assert Owns(st, y, file); }
  }

  lemma AddRefines(st: State, k: Key, decoded: seq<byte>, now: int)
    requires Good(st) && k in st.spools && !Clash(st, k, decoded)
    ensures var st', a := Add(st, k, decoded, now), Abstract(st);
      Good(st') && Abstract(st') == a[k := Acc(a[k].content + decoded, a[k].total, now)]
  {
    var st', a := Add(st, k, decoded, now), Abstract(st);
    AddGood(st, k, decoded, now);
    forall l | l in st.spools
      ensures Abstract(st')[l] == if l == k then Acc(a[k].content + decoded, a[k].total, now) else a[l]
    {
      AddAt(st, k, decoded, now, l);
    }
    assert Abstract(st').Keys == a.Keys;
  }

  lemma AddAt(st: State, k: Key, decoded: seq<byte>, now: int, l: Key)
    requires Good(st) && k in st.spools && !Clash(st, k, decoded) && l in st.spools
    ensures var st', a := Add(st, k, decoded, now), Abstract(st);
      Abstract(st')[l] == if l == k then Acc(a[k].content + decoded, a[k].total, now) else a[l]
  {
    if l == k { AddContents(st, k, decoded, now); } else { AddElsewhere(st, k, decoded, now, l); }
  }

  lemma AddGood(st: State, k: Key, decoded: seq<byte>, now: int)
    requires Good(st) && k in st.spools && !Clash(st, k, decoded)
    ensures Good(Add(st, k, decoded, now))
  {
    var st' := Add(st, k, decoded, now);
    forall l | l in st'.spools ensures EntryOk(st', l) {
      if l == k { AddContents(st, k, decoded, now); } else { AddElsewhere(st, k, decoded, now, l); }
    }
    forall file ensures file in st'.disk <==> exists l :: Owns(st', l, file) { AddFiles(st, k, decoded, now, file); }
    forall x, y | Owns(st', x, FileId(st'.fold, x)) && Owns(st', y, FileId(st'.fold, x)) ensures x == y {
      AddApart(st, k, decoded, now, x, y);
    }
  }

  /** In a clash the content begins with that of the other upload. */
  lemma ClashMixes(st: State, k: Key, decoded: seq<byte>, now: int)
    requires Good(st) && k in st.spools && Clash(st, k, decoded)
    ensures var st' := Add(st, k, decoded, now);
      Contents(st', k) == ReadBack(st', k) == FileOf(st, k) + (Contents(st, k) + decoded) && FileOf(st, k) != []
  {
    var file := FileId(st.fold, k);
    var l :| Owns(st, l, file);
    assert EntryOk(st, l) && FileOf(st, l) == FileOf(st, k);
    assert Contents(st, l) == FileOf(st, l) + [] == FileOf(st, l);
    var st', e := Add(st, k, decoded, now), st.spools[k];
    assert Contents(st, k) == [] + e.mem == e.mem;
    assert FileOf(st', k) == FileOf(st, k) + (e.mem + decoded);
    assert Contents(st', k) == FileOf(st', k) + [] == FileOf(st', k);
    assert ReadBack(st', k) == [] + FileOf(st', k) == FileOf(st', k);
  }

  lemma FinishRefines(st: State, k: Key)
    requires Good(st) && k in st.spools
    ensures Good(Finish(st, k)) && Abstract(Finish(st, k)) == Abstract(st) - {k}
    ensures ReadBack(st, k) == Contents(st, k)
  {
    var st' := Finish(st, k);
    assert EntryOk(st, k);
    forall l | l in st'.spools ensures EntryOk(st', l) && Contents(st', l) == Contents(st, l) {
      FinishElsewhere(st, k, l);
    }
    forall file ensures file in st'.disk <==> exists l :: Owns(st', l, file) { FinishFiles(st, k, file); }
    if st.spools[k].spilled {
      assert st.spools[k].mem == [] && [] + FileOf(st, k) == FileOf(st, k) + [];
    } else {
      assert st.spools[k].mem + [] == [] + st.spools[k].mem;
    }
  }

  lemma FinishElsewhere(st: State, k: Key, l: Key)
    requires Good(st) && k in st.spools && l in st.spools && l != k
    ensures EntryOk(Finish(st, k), l) && Contents(Finish(st, k), l) == Contents(st, l)
  {
    var file := FileId(st.fold, l);
    assert EntryOk(st, l);
    if st.spools[l].spilled { assert Owns(st, l, file); }
    if st.spools[k].spilled { assert Owns(st, k, FileId(st.fold, k)); }
  }

  lemma FinishFiles(st: State, k: Key, file: Key)
    requires Good(st) && k in st.spools
    ensures file in Finish(st, k).disk <==> exists l :: Owns(Finish(st, k), l, file)
  {
    var st' := Finish(st, k);
    if file in st'.disk {
      var l :| Owns(st, l, file);
      assert Owns(st', l, file);
    }
    if l :| Owns(st', l, file) {
      assert Owns(st, l, file);
      if st.spools[k].spilled { assert Owns(st, k, FileId(st.fold, k)); }
    }
  }

  lemma OpenRefines(st: State, k: Key, r: Request)
    requires Good(st)
    ensures Good(Open(st, k, r)) && Abstract(Open(st, k, r)) == SimpleOpen(Abstract(st), k, r)
  {
    if r.seqNo == 1 {
      var swept, st1 := Sweep(st, k, r.now), Open(st, k, r);
      SweepRefines(st, k, r.now);
      forall l | l in st1.spools ensures EntryOk(st1, l) && (l != k ==> Contents(st1, l) == Contents(swept, l)) {
        if l != k { assert EntryOk(swept, l); }
      }
      NewEntryFiles(swept, k, st1.spools[k]);
      assert Abstract(st1) == Abstract(swept)[k := Acc([], r.total, r.now)];
    }
  }

  /** An entry without a file changes nothing about the files. */
  lemma NewEntryFiles(st: State, k: Key, e: Entry)
    requires Good(st) && k !in st.spools && !e.spilled
    ensures var st' := st.(spools := st.spools[k := e]);
      && (forall file :: file in st'.disk <==> exists l :: Owns(st', l, file))
      && (forall x, y | Owns(st', x, FileId(st'.fold, x)) && Owns(st', y, FileId(st'.fold, x)) :: x == y)
  {
    var st' := st.(spools := st.spools[k := e]);
    forall l, file ensures Owns(st', l, file) <==> Owns(st, l, file) {}
  }

  lemma StoreRefines(st: State, k: Key, decoded: seq<byte>, r: Request)
    requires Good(st) && k in st.spools && r.disk.DiskOk? && !Clash(st, k, decoded)
    ensures Good(Store(st, k, decoded, r).st)
    ensures Abstract(Store(st, k, decoded, r).st) == SimpleStore(Abstract(st), k, decoded, r).m
    ensures Store(st, k, decoded, r).upload == SimpleStore(Abstract(st), k, decoded, r).upload
  {
    var st' := Add(st, k, decoded, r.now);
    AddRefines(st, k, decoded, r.now);
    if r.total == r.trans {
      FinishRefines(st', k);
      assert Abstract(st') - {k} == Abstract(st) - {k};
      assert Abstract(st')[k].content == Contents(st', k);
    }
  }

  lemma StoreClashes(st: State, k: Key, decoded: seq<byte>, r: Request)
    requires Good(st) && k in st.spools && r.disk.DiskOk? && Clash(st, k, decoded)
    ensures Abstract(Store(st, k, decoded, r).st) != SimpleStore(Abstract(st), k, decoded, r).m
         || Store(st, k, decoded, r).upload != SimpleStore(Abstract(st), k, decoded, r).upload
  {
    var st' := Add(st, k, decoded, r.now);
    ClashMixes(st, k, decoded, r.now);
    assert |Contents(st', k)| > |Contents(st, k) + decoded|;
    if r.total != r.trans {
      assert Abstract(st')[k].content == Contents(st', k);
    }
  }

  /** The request keeps the invariant and does what plain concatenation does, upload included. */
  ghost predicate Refines(st: State, r: Request) {
    && Good(Handle(st, r).st)
    && Abstract(Handle(st, r).st) == SimpleHandle(Abstract(st), r).m
    && Handle(st, r).upload == SimpleHandle(Abstract(st), r).upload
  }

  /** The request makes its upload spill while a file of that name is there. */
  predicate Clashes(st: State, r: Request) {
    var decoded, k := Base64.Decode(r.data), KeyOf(r);
    r.tokenOk && decoded.Some? && var st1 := Open(st, k, r); k in st1.spools && Clash(st1, k, decoded.value)
  }

  /** With successful I/O a request refines plain concatenation if and only if it does not clash. */
  lemma HandleRefines(st: State, r: Request)
    requires Good(st) && r.disk.DiskOk?
    ensures Refines(st, r) <==> !Clashes(st, r)
  {
    var decoded, k := Base64.Decode(r.data), KeyOf(r);
    if r.tokenOk && decoded.Some? {
      var st1 := Open(st, k, r);
      OpenRefines(st, k, r);
      if k in st1.spools {
        if Clash(st1, k, decoded.value) {
          StoreClashes(st1, k, decoded.value, r);
        } else {
          StoreRefines(st1, k, decoded.value, r);
        }
      }
    }
  }

  // ---------------------------------------------------------------- what is answered

  /** The upload is under way, or starts with this request. */
  predicate Known(m: map<Key, Acc>, r: Request) { r.seqNo == 1 || KeyOf(r) in m }

  /** The length of the upload with this chunk. */
  function LengthWith(m: map<Key, Acc>, r: Request, decoded: seq<byte>): nat
    requires Known(m, r)
  {
    (if r.seqNo == 1 then 0 else |m[KeyOf(r)].content|) + |decoded|
  }

  /** The disk is not needed or answers: beyond 8 MiB an upload is in a file. */
  predicate Kept(m: map<Key, Acc>, r: Request, decoded: seq<byte>)
    requires Known(m, r)
  {
    LengthWith(m, r, decoded) <= 8388608 || r.disk.DiskOk?
  }

  lemma FileNeeded(st: State, r: Request, decoded: seq<byte>)
    requires Good(st) && Known(Abstract(st), r)
    ensures var k, st1 := KeyOf(r), Open(st, KeyOf(r), r);
      k in st1.spools && (NeedsFile(st1.spools[k], decoded) <==> LengthWith(Abstract(st), r, decoded) > 8388608)
  {
    var k, st1 := KeyOf(r), Open(st, KeyOf(r), r);
    OpenRefines(st, k, r);
    assert EntryOk(st1, k);
    assert |Contents(st1, k)| + |decoded| == LengthWith(Abstract(st), r, decoded);
  }

  /**
    The answer, by the request and the uploads as plain concatenations: a chunk is confirmed exactly if
    the token is valid, the text decodes, the upload is known, the chunk is kept and, when it completes
    the upload, storage and database take it.
  */
  lemma AnswersIff(st: State, r: Request)
    requires Good(st)
    ensures Handle(st, r).error == TokenInvalid <==> !r.tokenOk
    ensures var m, decoded := Abstract(st), Base64.Decode(r.data);
      Handle(st, r).error == Success <==>
        && r.tokenOk && decoded.Some? && Known(m, r) && Kept(m, r, decoded.value)
        && (r.total == r.trans ==> r.storeOk && r.songOk)
    ensures var m, decoded := Abstract(st), Base64.Decode(r.data);
      Handle(st, r).upload.Some? <==>
        r.tokenOk && decoded.Some? && Known(m, r) && Kept(m, r, decoded.value) && r.total == r.trans
  {
    var decoded := Base64.Decode(r.data);
    if r.tokenOk && decoded.Some? {
      if Known(Abstract(st), r) {
        FileNeeded(st, r, decoded.value);
      } else {
        assert KeyOf(r) !in st.spools;
      }
    }
  }

  /** What a chunk that could not be written leaves behind is gone when the next first chunk has swept. */
  lemma FailureIsSwept(st: State, r: Request, now: int)
    requires Good(st) && !r.disk.DiskOk? && !Clashes(st, r) && Handle(st, r).upload.None?
    ensures var k := KeyOf(r);
      r.tokenOk && Base64.Decode(r.data).Some? && Handle(st, r).error != Success ==>
        Sweep(Handle(st, r).st, k, now) == Sweep(Open(st, k, r), k, now) && Good(Sweep(Handle(st, r).st, k, now))
  {
    var decoded, k := Base64.Decode(r.data), KeyOf(r);
    if r.tokenOk && decoded.Some? && Handle(st, r).error != Success {
      var st1 := Open(st, k, r);
      OpenRefines(st, k, r);
      SweepRefines(st1, k, now);
      if k in st1.spools { FailedAddIsSwept(st1, k, decoded.value, r, now); }
    }
  }

  lemma FailedAddIsSwept(st: State, k: Key, decoded: seq<byte>, r: Request, now: int)
    requires Good(st) && k in st.spools && NeedsFile(st.spools[k], decoded) && !Clash(st, k, decoded)
    ensures Sweep(AddFails(st, k, decoded, r.now, r.disk), k, now) == Sweep(st, k, now)
  {
    FailedAddEntries(st, k, decoded, r, now);
    FailedAddDisk(st, k, decoded, r, now);
  }

  lemma FailedAddEntries(st: State, k: Key, decoded: seq<byte>, r: Request, now: int)
    requires k in st.spools
    ensures Sweep(AddFails(st, k, decoded, r.now, r.disk), k, now).spools == Sweep(st, k, now).spools
  {
  }

  lemma FailedAddDisk(st: State, k: Key, decoded: seq<byte>, r: Request, now: int)
    requires Good(st) && k in st.spools && NeedsFile(st.spools[k], decoded) && !Clash(st, k, decoded)
    ensures Sweep(AddFails(st, k, decoded, r.now, r.disk), k, now).disk == Sweep(st, k, now).disk
  {
    var swept, swept' := Sweep(st, k, now), Sweep(AddFails(st, k, decoded, r.now, r.disk), k, now);
    forall f ensures f in swept'.disk <==> f in swept.disk {
      FailedAddFiles(st, k, decoded, r, now, f);
    }
  }

  /** A file goes with the sweep of an entry that owns it. */
  lemma SweptFile(st: State, key: Key, now: int, f: Key)
    ensures f in Sweep(st, key, now).disk <==>
      f in st.disk && forall l | Owns(st, l, f) :: !Swept(st.spools[l], l, key, now)
  {
  }

  lemma FailedAddFiles(st: State, k: Key, decoded: seq<byte>, r: Request, now: int, f: Key)
    requires Good(st) && k in st.spools && NeedsFile(st.spools[k], decoded) && !Clash(st, k, decoded)
    ensures var st' := AddFails(st, k, decoded, r.now, r.disk);
      f in Sweep(st', k, now).disk <==> f in Sweep(st, k, now).disk
  {
    var st' := AddFails(st, k, decoded, r.now, r.disk);
    SweptFile(st, k, now, f);
    SweptFile(st', k, now, f);
    if f == FileId(st.fold, k) {
      assert Owns(st', k, f) && (st.spools[k].spilled ==> Owns(st, k, f));
    } else {
      forall l ensures Owns(st', l, f) <==> Owns(st, l, f) {}
    }
  }

  // ---------------------------------------------------------------- whole runs

  function Run(st: State, rs: seq<Request>): (State, seq<(Key, Stored)>)
    decreases |rs|
  {
    if rs == [] then (st, []) else
    var h := Handle(st, rs[0]);
    var (end, rest) := Run(h.st, rs[1..]);
    (end, (if h.upload.Some? then [(KeyOf(rs[0]), h.upload.value)] else []) + rest)
  }

  function SimpleRun(m: map<Key, Acc>, rs: seq<Request>): (map<Key, Acc>, seq<(Key, Stored)>)
    decreases |rs|
  {
    if rs == [] then (m, []) else
    var h := SimpleHandle(m, rs[0]);
    var (end, rest) := SimpleRun(h.m, rs[1..]);
    (end, (if h.upload.Some? then [(KeyOf(rs[0]), h.upload.value)] else []) + rest)
  }

  predicate AllOk(rs: seq<Request>) { forall r | r in rs :: r.disk.DiskOk? }

  /** No request of the run clashes. */
  predicate Clean(st: State, rs: seq<Request>)
    decreases |rs|
  {
    rs == [] || (!Clashes(st, rs[0]) && Clean(Handle(st, rs[0]).st, rs[1..]))
  }

  ghost predicate AllRefine(st: State, rs: seq<Request>)
    decreases |rs|
  {
    rs == [] || (Refines(st, rs[0]) && AllRefine(Handle(st, rs[0]).st, rs[1..]))
  }

  /** Over every run: all requests refine plain concatenation if and only if none clashes. */
  lemma {:induction false} RunRefinesIff(st: State, rs: seq<Request>)
    requires Good(st) && AllOk(rs)
    ensures AllRefine(st, rs) <==> Clean(st, rs)
    decreases |rs|
  {
    if rs == [] {
    } else {
      HandleRefines(st, rs[0]);
      if Refines(st, rs[0]) { RunRefinesIff(Handle(st, rs[0]).st, rs[1..]); }
    }
  }

  /** The spool with its memory, threshold and files refines plain concatenation over a clean run. */
  lemma {:induction false} RunRefines(st: State, rs: seq<Request>)
    requires Good(st) && AllOk(rs) && Clean(st, rs)
    ensures Good(Run(st, rs).0) && Abstract(Run(st, rs).0) == SimpleRun(Abstract(st), rs).0
    ensures Run(st, rs).1 == SimpleRun(Abstract(st), rs).1
    decreases |rs|
  {
    if rs == [] {
    } else {
      HandleRefines(st, rs[0]);
      RunRefines(Handle(st, rs[0]).st, rs[1..]);
    }
  }

  /** No two of these uploads have names that the file system takes for the same. */
  ghost predicate NamesApart(fold: char -> char, keys: set<Key>) {
    forall k, l | k in keys && l in keys && FileId(fold, k) == FileId(fold, l) :: k == l
  }

  function KeysOf(rs: seq<Request>): set<Key> { set r | r in rs :: KeyOf(r) }

  lemma StoreKeys(st: State, k: Key, decoded: seq<byte>, r: Request)
    requires k in st.spools
    ensures Store(st, k, decoded, r).st.fold == st.fold && Store(st, k, decoded, r).st.spools.Keys <= st.spools.Keys
  {
  }

  lemma OpenKeys(st: State, k: Key, r: Request)
    ensures Open(st, k, r).fold == st.fold && Open(st, k, r).spools.Keys <= st.spools.Keys + {k}
  {
  }

  lemma KeysStay(st: State, r: Request)
    ensures Handle(st, r).st.fold == st.fold && Handle(st, r).st.spools.Keys <= st.spools.Keys + {KeyOf(r)}
  {
    var decoded, k := Base64.Decode(r.data), KeyOf(r);
    OpenKeys(st, k, r);
    var st1 := Open(st, k, r);
    if r.tokenOk && decoded.Some? && k in st1.spools { StoreKeys(st1, k, decoded.value, r); }
  }

  lemma ApartDoesNotClash(st: State, r: Request)
    requires Good(st) && NamesApart(st.fold, st.spools.Keys + {KeyOf(r)})
    ensures !Clashes(st, r)
  {
    var k := KeyOf(r);
    var st1 := Open(st, k, r);
    OpenRefines(st, k, r);
    if k in st1.spools && FileId(st.fold, k) in st1.disk {
      var l :| Owns(st1, l, FileId(st.fold, k));
      assert l == k;
    }
  }

  /** Names that are apart make every run clean. */
  lemma {:induction false} ApartIsClean(st: State, rs: seq<Request>)
    requires Good(st) && AllOk(rs) && NamesApart(st.fold, st.spools.Keys + KeysOf(rs))
    ensures Clean(st, rs)
    decreases |rs|
  {
    if rs == [] {
    } else {
      ApartDoesNotClash(st, rs[0]);
      HandleRefines(st, rs[0]);
      KeysStay(st, rs[0]);
      ApartIsClean(Handle(st, rs[0]).st, rs[1..]);
    }
  }
}
