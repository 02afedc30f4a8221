/**
  `StorageGrpcClient::UploadAudio` and the read callback it is given: metadata first, then
  blocks of at most 256 KiB, read from memory and then from the temporary file.
*/
module Storage {
  import opened Bytes
  import opened Frames

  const BLOCK: nat := 262144

  /** A spool as the callback sees it: `mem` from `memOff` on, then the open file from `pos` on. */
  class SpoolReader {
    const mem: seq<byte>
    const file: Option<seq<byte>>
    var memOff: nat
    var pos: nat

    ghost predicate Valid()
      reads this
    {
      memOff <= |mem| && (file.Some? ==> pos <= |file.value|)
    }

    function Rest(): seq<byte>
      reads this
      requires Valid()
    {
      mem[memOff..] + (if file.Some? then file.value[pos..] else [])
    }

    constructor (mem: seq<byte>, file: Option<seq<byte>>)
      ensures Valid() && this.mem == mem && this.file == file && memOff == 0 && pos == 0
    {
      this.mem, this.file, memOff, pos := mem, file, 0, 0;
    }

    /** Fills at most `maxLen` bytes; an empty result means the end. */
    method Read(maxLen: nat) returns (buf: seq<byte>)
      requires Valid() && maxLen > 0
      modifies this
      ensures Valid() && |buf| <= maxLen
      ensures old(Rest()) == buf + Rest()
      ensures buf == [] <==> old(Rest()) == []
      ensures |Rest()| + |buf| == old(|Rest()|)
    {
      if memOff < |mem| {
        var got := Min(maxLen, |mem| - memOff);
        buf := mem[memOff..memOff + got];
        memOff := memOff + got;
        assert mem[old(memOff)..] == buf + mem[memOff..];
      } else if file.Some? {
        var got := Min(maxLen, |file.value| - pos);
        buf := file.value[pos..pos + got];
        pos := pos + got;
        assert file.value[old(pos)..] == buf + file.value[pos..];
      } else {
        buf := [];
      }
    }
  }

  lemma {:induction false} ConcatSnoc(a: seq<seq<byte>>, b: seq<byte>)
    ensures Concat(a + [b]) == Concat(a) + b
  {
    if a == [] {
      assert a + [b] == [b] && [b][1..] == [];
      assert b + [] == b && [] + b == b;
    } else {
      assert (a + [b])[1..] == a[1..] + [b];
      ConcatSnoc(a[1..], b);
      assert a[0] + (Concat(a[1..]) + b) == (a[0] + Concat(a[1..])) + b;
    }
  }

  /** What the storage server receives in one stream. */
  datatype Upload = Upload(name: string, size: int, blocks: seq<seq<byte>>)

  /**
    The stream: what the reader holds arrives unchanged, in order, in non-empty blocks of at most
    256 KiB. `accepts` is the number of writes that succeed, the metadata first; `finished` is the
    status at the end. If a write fails, a proper part has arrived, and the upload has failed.
  */
  method UploadAudio(name: string, size: int, reader: SpoolReader, accepts: nat, finished: bool)
    returns (u: Upload, ok: bool)
    requires reader.Valid()
    modifies reader
    ensures u.name == name && u.size == size && forall b | b in u.blocks :: 0 < |b| <= 262144
    ensures Concat(u.blocks) <= old(reader.Rest())
    ensures ok <==> finished && accepts > 0 && Concat(u.blocks) == old(reader.Rest())
    ensures accepts == 0 ==> u.blocks == []
    ensures accepts > 0 && Concat(u.blocks) != old(reader.Rest()) ==> accepts == |u.blocks| + 1
  {
    if accepts == 0 { return Upload(name, size, []), false; }
    var blocks: seq<seq<byte>> := [];
    ghost var whole := reader.Rest();
    var chunk := reader.Read(BLOCK);
    ghost var left := chunk + reader.Rest();
    assert Concat(blocks) + left == whole;
    while chunk != []
      invariant reader.Valid() && |chunk| <= BLOCK
      invariant left == chunk + reader.Rest() && Concat(blocks) + left == whole
      invariant |blocks| < accepts && forall b | b in blocks :: 0 < |b| <= BLOCK
      invariant chunk == [] ==> left == []
      decreases |left|
    {
      if |blocks| + 1 == accepts {
        assert |Concat(blocks)| < |whole|;
        return Upload(name, size, blocks), false;
      }
      ConcatSnoc(blocks, chunk);
      AppendAssociative(Concat(blocks), chunk, reader.Rest());
      blocks := blocks + [chunk];
      left := reader.Rest();
      chunk := reader.Read(BLOCK);
    }
    u, ok := Upload(name, size, blocks), finished;
    assert Concat(blocks) + [] == Concat(blocks);
  }
}
