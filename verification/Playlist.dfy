/**
  Collected songs in play order: the `playlist_songs` table, its compaction, and the sequence of
  songs it stands for.
*/
module Playlist {

  type Song = int

  /** The primary key of the table. */
  datatype Key = Key(playlist: int, song: Song)

  /** Key to `position`. */
  type Rows = map<Key, nat>

  predicate Distinct(s: seq<Song>) { forall i, j | 0 <= i < j < |s| :: s[i] != s[j] }

  predicate Has(rows: Rows, p: int, song: Song) { Key(p, song) in rows }

  /** The rows of the playlist hold exactly these songs. */
  ghost predicate Holds(rows: Rows, p: int, s: seq<Song>) {
    Distinct(s) && (forall i | 0 <= i < |s| :: Has(rows, p, s[i])) && forall song | Has(rows, p, song) :: song in s
  }

  function At(rows: Rows, p: int, song: Song): nat
    requires Has(rows, p, song)
  {
    rows[Key(p, song)]
  }

  /** A possible result of SELECT ... ORDER BY position. */
  ghost predicate Ordered(rows: Rows, p: int, s: seq<Song>) {
    Holds(rows, p, s) && forall i, j | 0 <= i < j < |s| :: At(rows, p, s[i]) <= At(rows, p, s[j])
  }

  /** The playlist is this sequence: positions are distinct, start from 1 or above, and grow along it. */
  ghost predicate Represents(rows: Rows, p: int, s: seq<Song>) {
    && Holds(rows, p, s)
    && (forall i | 0 <= i < |s| :: At(rows, p, s[i]) >= 1)
    && (forall i, j | 0 <= i < j < |s| :: At(rows, p, s[i]) < At(rows, p, s[j]))
  }

  /** Reading a playlist gives back the sequence it represents. */
  lemma {:induction false} ReadsInOrder(rows: Rows, p: int, s: seq<Song>, result: seq<Song>)
    requires Represents(rows, p, s) && Ordered(rows, p, result)
    ensures result == s
  {
    forall i, j | 0 <= i < j < |result| ensures At(rows, p, result[i]) < At(rows, p, result[j]) {
      var x: nat :| x < |s| && s[x] == result[i];
      var y: nat :| y < |s| && s[y] == result[j];
      assert x != y;
    }
    SameOrder(rows, p, s, result);
  }

  ghost predicate Increasing(rows: Rows, p: int, s: seq<Song>) {
    && (forall i | 0 <= i < |s| :: Has(rows, p, s[i]))
    && (forall i, j | 0 <= i < j < |s| :: At(rows, p, s[i]) < At(rows, p, s[j]))
  }

  /** The last song of an increasing sequence has the greatest position. */
  lemma LastIsGreatest(rows: Rows, p: int, a: seq<Song>, x: Song)
    requires Increasing(rows, p, a) && x in a
    ensures At(rows, p, x) <= At(rows, p, a[|a| - 1])
    ensures At(rows, p, x) == At(rows, p, a[|a| - 1]) ==> x == a[|a| - 1]
    ensures x in a[..|a| - 1] <==> x != a[|a| - 1]
  {
    var i: nat :| i < |a| && a[i] == x;
  }

  /** All but the last, when the last ones are the same. */
  lemma SameFront(rows: Rows, p: int, a: seq<Song>, b: seq<Song>, z: Song)
    requires Increasing(rows, p, a) && Increasing(rows, p, b) && a != [] && b != []
    requires a[|a| - 1] == b[|b| - 1] && (z in a <==> z in b)
    ensures z in a[..|a| - 1] <==> z in b[..|b| - 1]
  {
    if z in a {
      LastIsGreatest(rows, p, a, z);
      LastIsGreatest(rows, p, b, z);
    }
  }

  /** Two increasing sequences of the same songs are the same; compared from the end. */
  lemma {:induction false} SameOrder(rows: Rows, p: int, a: seq<Song>, b: seq<Song>)
    requires Increasing(rows, p, a) && Increasing(rows, p, b)
    requires forall x :: x in a <==> x in b
    ensures a == b
    decreases |a|
  {
    assert |b| > 0 ==> b[0] in b;
    if a == [] {
    } else {
      assert a[0] in b;
      var x, y, a', b' := a[|a| - 1], b[|b| - 1], a[..|a| - 1], b[..|b| - 1];
      LastIsGreatest(rows, p, a, y);
      LastIsGreatest(rows, p, b, x);
      forall z ensures z in a' <==> z in b' { SameFront(rows, p, a, b, z); }
      SameOrder(rows, p, a', b');
      assert a == a' + [x] && b == b' + [y];
    }
  }

  // ---------------------------------------------------------------- what the statements do

  predicate IsMax(rows: Rows, p: int, m: nat) {
    && (forall k | k in rows && k.playlist == p :: rows[k] <= m)
    && (m > 0 ==> exists k :: k in rows && k.playlist == p && rows[k] == m)
  }

  /** SELECT MAX(position), 0 for NULL. */
  ghost function MaxPosition(rows: Rows, p: int): (m: nat)
    ensures IsMax(rows, p, m)
    decreases |rows|
  {
    if k :| k in rows && k.playlist == p then
      var rest := MaxPosition(rows - {k}, p);
      if rows[k] > rest then rows[k] else rest
    else 0
  }

  lemma MaxUnique(rows: Rows, p: int, m: nat)
    requires IsMax(rows, p, m)
    ensures m == MaxPosition(rows, p)
  {
  }

  /** The table after `createPlaylistSong` has run its statements; position 0 asks for the end. */
  ghost function Added(rows: Rows, p: int, song: Song, position: nat): Rows {
    if Has(rows, p, song) then rows
    else rows[Key(p, song) := if position > 0 then position else MaxPosition(rows, p) + 1]
  }

  /** A new song gets the position asked for, or 0 for the end; one that is there keeps its own. */
  lemma AddedAt(rows: Rows, p: int, song: Song, position: nat)
    ensures var rows' := Added(rows, p, song, position);
      && Has(rows', p, song) && rows'.Keys == rows.Keys + {Key(p, song)}
      && (forall k | k in rows :: rows'[k] == rows[k])
      && (!Has(rows, p, song) && position > 0 ==> At(rows', p, song) == position)
      && (!Has(rows, p, song) && position == 0 ==>
            At(rows', p, song) > 0 && IsMax(rows, p, At(rows', p, song) - 1))
  {
  }

  function Removed(rows: Rows, p: int, song: Song): Rows { rows - {Key(p, song)} }

  /** The table after the first n songs of the query result have been renumbered. */
  ghost function Renumbered(rows: Rows, p: int, s: seq<Song>, n: nat): Rows
    requires n <= |s|
  {
    if n == 0 then rows else Renumbered(rows, p, s, n - 1)[Key(p, s[n - 1]) := n]
  }

  lemma {:induction false} RenumberedAt(rows: Rows, p: int, s: seq<Song>, n: nat, k: Key)
    requires Holds(rows, p, s) && n <= |s|
    ensures Has(Renumbered(rows, p, s, n), k.playlist, k.song) <==> k in rows
    ensures k in rows && k.playlist != p ==> Renumbered(rows, p, s, n)[k] == rows[k]
    ensures forall i | 0 <= i < |s| && k == Key(p, s[i]) ::
      Renumbered(rows, p, s, n)[k] == if i < n then i + 1 else rows[k]
  {
    if n > 0 {
      assert Has(rows, p, s[n - 1]);
      RenumberedAt(rows, p, s, n - 1, k);
      assert Key(k.playlist, k.song) == k;
    } else {
      assert Key(k.playlist, k.song) == k;
    }
  }

  // ---------------------------------------------------------------- refinement of the sequence

  function Append(s: seq<Song>, song: Song): seq<Song> { if song in s then s else s + [song] }

  function Remove(s: seq<Song>, song: Song): seq<Song> {
    if s == [] then [] else if s[0] == song then s[1..] else [s[0]] + Remove(s[1..], song)
  }

  lemma {:induction false} AddRepresents(rows: Rows, p: int, s: seq<Song>, song: Song)
    requires Represents(rows, p, s)
    ensures Represents(Added(rows, p, song, 0), p, Append(s, song))
  {
    if song !in s {
      assert !Has(rows, p, song);
      var rows', s' := Added(rows, p, song, 0), Append(s, song);
      forall i | 0 <= i < |s| ensures At(rows', p, s'[i]) == At(rows, p, s[i]) < At(rows', p, song) {
        assert Has(rows, p, s[i]) && s[i] != song;
      }
      assert forall x | Has(rows', p, x) :: x == song || Has(rows, p, x);
    } else {
      assert Has(rows, p, song);
    }
  }

  /** Removal keeps the rest in order: the position of each remaining song in the old sequence. */
  lemma {:induction false} RemoveKeeps(s: seq<Song>, song: Song)
    requires Distinct(s)
    ensures Distinct(Remove(s, song))
    ensures forall x :: x in Remove(s, song) <==> x in s && x != song
  {
    if s != [] {
      RemoveKeeps(s[1..], song);
      assert s == [s[0]] + s[1..];
      var r := Remove(s, song);
      if s[0] != song {
        assert s[0] !in s[1..];
        forall i, j | 0 <= i < j < |r| ensures r[i] != r[j] {
          assert r[j] in Remove(s[1..], song);
          if i > 0 { assert r[i] == Remove(s[1..], song)[i - 1] && r[j] == Remove(s[1..], song)[j - 1]; }
        }
      } else {
        assert s[0] !in s[1..];
      }
    }
  }

  /** The first song before some of the later ones. */
  lemma FirstBefore(rows: Rows, p: int, s: seq<Song>, t: seq<Song>)
    requires s != [] && Increasing(rows, p, s) && Increasing(rows, p, t) && forall x | x in t :: x in s[1..]
    ensures Increasing(rows, p, [s[0]] + t)
  {
    forall j | 0 <= j < |t| ensures At(rows, p, s[0]) < At(rows, p, t[j]) {
      assert t[j] in s[1..];
      var i: nat :| i < |s[1..]| && s[1..][i] == t[j];
      assert s[i + 1] == t[j];
    }
  }

  lemma {:induction false} RemoveIncreasing(rows: Rows, p: int, s: seq<Song>, song: Song)
    requires Increasing(rows, p, s)
    ensures Increasing(rows, p, Remove(s, song))
    ensures forall x | x in Remove(s, song) :: x in s
  {
    if s == [] {
    } else {
      assert forall i | 0 <= i < |s[1..]| :: s[1..][i] == s[i + 1];
      RemoveIncreasing(rows, p, s[1..], song);
      FirstBefore(rows, p, s, Remove(s[1..], song));
      assert s == [s[0]] + s[1..];
    }
  }

  lemma RemoveRepresents(rows: Rows, p: int, s: seq<Song>, song: Song)
    requires Represents(rows, p, s)
    ensures Represents(Removed(rows, p, song), p, Remove(s, song))
  {
    RemoveKeeps(s, song);
    RemoveIncreasing(rows, p, s, song);
    StillRepresents(rows, p, s, song, Remove(s, song));
  }

  lemma StillRepresents(rows: Rows, p: int, s: seq<Song>, song: Song, s': seq<Song>)
    requires Represents(rows, p, s) && Distinct(s') && Increasing(rows, p, s')
    requires forall x :: x in s' <==> x in s && x != song
    ensures Represents(Removed(rows, p, song), p, s')
  {
    var rows' := Removed(rows, p, song);
    forall i | 0 <= i < |s'| ensures Has(rows', p, s'[i]) && At(rows', p, s'[i]) == At(rows, p, s'[i]) >= 1 {
      assert s'[i] in s' && s'[i] in s;
    }
    assert forall x | Has(rows', p, x) :: Has(rows, p, x) && x != song;
  }

  /** Positions that grow from 1 or above are at least their index plus one. */
  lemma {:induction false} AtLeastIndex(rows: Rows, p: int, s: seq<Song>, i: nat)
    requires Represents(rows, p, s) && i < |s|
    ensures At(rows, p, s[i]) >= i + 1
  {
    if i == 0 {
    } else {
      AtLeastIndex(rows, p, s, i - 1);
    }
  }

  /** Every intermediate table of a compaction stands for the same sequence; the last counts 1 to n. */
  lemma {:induction false} CompactionRepresents(rows: Rows, p: int, s: seq<Song>, n: nat)
    requires Represents(rows, p, s) && n <= |s|
    ensures Represents(Renumbered(rows, p, s, n), p, s)
    ensures forall i | 0 <= i < n :: At(Renumbered(rows, p, s, n), p, s[i]) == i + 1
  {
    var rows' := Renumbered(rows, p, s, n);
    forall song ensures Has(rows', p, song) <==> Has(rows, p, song) {
      RenumberedAt(rows, p, s, n, Key(p, song));
    }
    forall i | 0 <= i < |s|
      ensures Has(rows', p, s[i]) && At(rows', p, s[i]) == if i < n then i + 1 else At(rows, p, s[i])
      ensures At(rows, p, s[i]) >= i + 1
    {
      RenumberedAt(rows, p, s, n, Key(p, s[i]));
      AtLeastIndex(rows, p, s, i);
    }
  }

  lemma OtherPlaylist(rows: Rows, rows': Rows, q: int, s: seq<Song>)
    requires Represents(rows, q, s)
    requires forall song :: Has(rows', q, song) <==> Has(rows, q, song)
    requires forall song | Has(rows, q, song) :: At(rows', q, song) == At(rows, q, song)
    ensures Represents(rows', q, s)
  {
  }

  // ---------------------------------------------------------------- the operations

  class PlaylistSongs {
    var rows: Rows

    constructor ()
      ensures rows == map[]
    {
      rows := map[];
    }

    /** `createPlaylistSong`; works: a connection is there and no statement fails. */
    method CreatePlaylistSong(p: int, song: Song, position: nat, works: bool)
      modifies this
      ensures rows == if works then Added(old(rows), p, song, position) else old(rows)
    {
      if !works || Key(p, song) in rows { return; }
      ghost var last := MaxPosition(rows, p);
      var max: nat :| IsMax(rows, p, max);
      MaxUnique(rows, p, max);
      rows := rows[Key(p, song) := if position > 0 then position else max + 1];
    }

    method DeletePlaylistSong(p: int, song: Song, works: bool) returns (deleted: bool)
      modifies this
      ensures deleted <==> works && Has(old(rows), p, song)
      ensures rows == if works then Removed(old(rows), p, song) else old(rows)
    {
      if !works || Key(p, song) !in rows { return false; }
      rows := rows - {Key(p, song)};
      return true;
    }

    /**
      `updatePlaylistSongPosition`: renumber in the order of the query result. `failAt` is the row
      whose UPDATE fails, if one is issued for it; |result| stands for the commit.
    */
    method UpdatePositions(p: int, result: seq<Song>, failAt: nat) returns (done: bool)
      requires Ordered(rows, p, result)
      modifies this
      ensures done <==> failAt > |result| || (failAt < |result| && old(rows)[Key(p, result[failAt])] == failAt + 1)
      ensures rows == if done then Renumbered(old(rows), p, result, |result|) else old(rows)
    {
      var saved := rows;
      var i, newPosition := 0, 1;
      while i < |result|
        invariant 0 <= i <= |result| && newPosition == i + 1
        invariant rows == Renumbered(saved, p, result, i)
        invariant failAt < i ==> saved[Key(p, result[failAt])] == failAt + 1
      {
        var key := Key(p, result[i]);
        RenumberedAt(saved, p, result, i, key);
        assert Has(saved, p, result[i]);
        if saved[key] != newPosition {
          if failAt == i {
            rows := saved;
            return false;
          }
          rows := rows[key := newPosition];
        }
        i, newPosition := i + 1, newPosition + 1;
      }
      if failAt == |result| {
        rows := saved;
        return false;
      }
      return true;
    }

    /**
      `MysqlManager::deletePlaylistSong` on a playlist that stands for s: the removal is kept
      whether or not the compaction succeeds, and a successful one leaves 1 to n.
    */
    method RemoveSong(p: int, song: Song, works: bool, result: seq<Song>, failAt: nat, ghost s: seq<Song>)
      returns (done: bool)
      requires Represents(rows, p, s) && Ordered(Removed(rows, p, song), p, result)
      modifies this
      ensures Represents(rows, p, if works then Remove(s, song) else s)
      ensures !works ==> rows == old(rows)
      ensures done ==> Compact(rows, p, Remove(s, song))
      ensures failAt > |result| ==> (done <==> works && Has(old(rows), p, song))
      ensures forall k: Key | k.playlist != p :: k in rows <==> k in old(rows)
      ensures forall k: Key | k.playlist != p && k in rows :: rows[k] == old(rows)[k]
    {
      RemoveRepresents(rows, p, s, song);
      var deleted := DeletePlaylistSong(p, song, works);
      if !deleted {
        assert works ==> !Has(rows, p, song) && rows == Removed(rows, p, song);
        return false;
      }
      ghost var between := rows;
      ReadsInOrder(rows, p, Remove(s, song), result);
      CompactionRepresents(rows, p, result, |result|);
      done := UpdatePositions(p, result, failAt);
      forall k: Key | k.playlist != p ensures k in rows <==> k in between {
        RenumberedAt(between, p, result, |result|, k);
      }
      forall k: Key | k.playlist != p && k in rows ensures rows[k] == between[k] {
        RenumberedAt(between, p, result, |result|, k);
      }
    }
  }

  ghost predicate Compact(rows: Rows, p: int, s: seq<Song>) {
    forall i | 0 <= i < |s| :: Has(rows, p, s[i]) && At(rows, p, s[i]) == i + 1
  }

  // ---------------------------------------------------------------- any sequence of requests

  /** A request of `CollectSongHandler`; the flags say what the database let through. */
  datatype Request =
    | Collect(p: int, song: Song, works: bool)
    | Uncollect(p: int, song: Song, works: bool, compacted: bool)

  ghost predicate Served(rows: Rows, r: Request, rows': Rows) {
    match r
    case Collect(p, song, works) => rows' == if works then Added(rows, p, song, 0) else rows
    case Uncollect(p, song, works, compacted) =>
      if !works || !Has(rows, p, song) then rows' == rows
      else if !compacted then rows' == Removed(rows, p, song)
      else exists result :: Ordered(Removed(rows, p, song), p, result)
             && rows' == Renumbered(Removed(rows, p, song), p, result, |result|)
  }

  ghost predicate Run(run: seq<Rows>, requests: seq<Request>) {
    |run| == |requests| + 1 && run[0] == map[]
    && forall i | 0 <= i < |requests| :: Served(run[i], requests[i], run[i + 1])
  }

  /** The playlist's sequence after the requests: append if absent, remove. */
  function Sequence(requests: seq<Request>, p: int): seq<Song> {
    if requests == [] then []
    else Step(Sequence(requests[..|requests| - 1], p), requests[|requests| - 1], p)
  }

  lemma ServedRepresents(rows: Rows, r: Request, rows': Rows, p: int, s: seq<Song>)
    requires Represents(rows, p, s) && Served(rows, r, rows') && r.p == p && r.works
    ensures Represents(rows', p, if r.Collect? then Append(s, r.song) else Remove(s, r.song))
    ensures r.Uncollect? && r.compacted && Has(rows, p, r.song) ==> Compact(rows', p, Remove(s, r.song))
  {
    if r.Collect? {
      AddRepresents(rows, p, s, r.song);
    } else {
      RemoveRepresents(rows, p, s, r.song);
      var between := Removed(rows, p, r.song);
      if !Has(rows, p, r.song) {
        assert between == rows;
      } else if r.compacted {
        var result :| Ordered(between, p, result) && rows' == Renumbered(between, p, result, |result|);
        ReadsInOrder(between, p, Remove(s, r.song), result);
        CompactionRepresents(between, p, result, |result|);
      }
    }
  }

  lemma ServedElsewhere(rows: Rows, r: Request, rows': Rows, p: int, s: seq<Song>)
    requires Represents(rows, p, s) && Served(rows, r, rows') && r.p != p
    ensures Represents(rows', p, s)
  {
    if r.Uncollect? && r.works && Has(rows, r.p, r.song) && r.compacted {
      var between := Removed(rows, r.p, r.song);
      var result :| Ordered(between, r.p, result) && rows' == Renumbered(between, r.p, result, |result|);
      forall song ensures (Has(rows', p, song) <==> Has(rows, p, song))
                       && (Has(rows, p, song) ==> At(rows', p, song) == At(rows, p, song)) {
        RenumberedAt(between, r.p, result, |result|, Key(p, song));
      }
    }
    OtherPlaylist(rows, rows', p, s);
  }

  /** What one request does to the sequence of a playlist. */
  function Step(s: seq<Song>, r: Request, p: int): seq<Song> {
    if r.p != p || !r.works then s else if r.Collect? then Append(s, r.song) else Remove(s, r.song)
  }

  lemma ServedStep(rows: Rows, r: Request, rows': Rows, p: int, s: seq<Song>)
    requires Represents(rows, p, s) && Served(rows, r, rows')
    ensures Represents(rows', p, Step(s, r, p))
  {
    if r.p != p {
      ServedElsewhere(rows, r, rows', p, s);
    } else if r.works {
      ServedRepresents(rows, r, rows', p, s);
    }
  }

  /** After any requests, each playlist stands for its sequence, even where compactions rolled back. */
  lemma {:induction false} RunRefines(run: seq<Rows>, requests: seq<Request>, n: nat, p: int)
    requires Run(run, requests) && n <= |requests|
    ensures Represents(run[n], p, Sequence(requests[..n], p))
  {
    if n == 0 {
    } else {
      RunRefines(run, requests, n - 1, p);
      assert requests[..n][..n - 1] == requests[..n - 1];
      ServedStep(run[n - 1], requests[n - 1], run[n], p, Sequence(requests[..n - 1], p));
    }
  }
}
