/** The incremental event splitter of the chat client. Text is a sequence of characters. */
module ServerSentEvents {
  import opened Bytes

  type Text = seq<char>

  const CR := '\r'
  const LF := '\n'

  predicate CrLfAt(t: Text, i: nat) { i + 1 < |t| && t[i] == CR && t[i + 1] == LF }

  /** Every CR LF replaced by LF, in one pass from the left. */
  function Normal(t: Text): (r: Text)
    ensures |r| <= |t|
  {
    if t == [] then []
    else if CrLfAt(t, 0) then [LF] + Normal(t[2..])
    else [t[0]] + Normal(t[1..])
  }

  /** The first position of LF LF, or |t|. */
  function Break(t: Text): (k: nat)
    ensures k <= |t|
    ensures k < |t| ==> k + 1 < |t| && t[k] == LF && t[k + 1] == LF
    ensures forall i | 0 <= i < k && i + 1 < |t| :: !(t[i] == LF && t[i + 1] == LF)
  {
    if |t| < 2 then |t|
    else if t[0] == LF && t[1] == LF then 0
    else Break(t[1..]) + 1
  }

  function Event(t: Text): seq<Text> { if t == [] then [] else [t] }

  /** The complete events of a text, without the empty ones. */
  function Events(t: Text): seq<Text>
    decreases |t|
  {
    var k := Break(t);
    if k == |t| then [] else Event(t[..k]) + Events(t[k + 2..])
  }

  /** What follows the last separator. */
  function Rest(t: Text): Text
    decreases |t|
  {
    var k := Break(t);
    if k == |t| then t else Rest(t[k + 2..])
  }

  function Appended(events: seq<Text>, event: Text): (r: seq<Text>)
    ensures r == events + Event(event)
  {
    if event == [] then events else events + [event]
  }

  class AIChatClient {
    var streamBuffer: Text

    constructor ()
      ensures streamBuffer == []
    {
      streamBuffer := [];
    }

    method ParseSSE(data: Text) returns (events: seq<Text>)
      modifies this
      ensures events == Events(Normal(old(streamBuffer) + data))
      ensures streamBuffer == Rest(Normal(old(streamBuffer) + data))
    {
      events := [];
      streamBuffer := Normal(streamBuffer + data);
      ghost var text := streamBuffer;
      var separator := Break(streamBuffer);
      while separator != |streamBuffer|
        invariant separator == Break(streamBuffer)
        invariant Events(text) == events + Events(streamBuffer) && Rest(text) == Rest(streamBuffer)
        decreases |streamBuffer|
      {
        var event := streamBuffer[..separator];
        SplitStep(streamBuffer, separator);
        AppendAssociative(events, Event(event), Events(streamBuffer[separator + 2..]));
        events := Appended(events, event);
        streamBuffer := streamBuffer[separator + 2..];
        separator := Break(streamBuffer);
      }
    }
  }

  // ---------------------------------------------------------------- splitting in parts

  /** The first separator of a text is that of every longer one. */
  lemma {:induction false} BreakAppend(a: Text, b: Text)
    requires Break(a) < |a|
    ensures Break(a + b) == Break(a)
  {
    if !(a[0] == LF && a[1] == LF) {
      assert (a + b)[1..] == a[1..] + b;
      BreakAppend(a[1..], b);
    }
  }

  lemma SplitStep(t: Text, k: nat)
    requires k == Break(t) < |t|
    ensures Events(t) == Event(t[..k]) + Events(t[k + 2..]) && Rest(t) == Rest(t[k + 2..])
  {
  }

  lemma {:induction false} SplitAppend(a: Text, b: Text)
    ensures Events(a + b) == Events(a) + Events(Rest(a) + b)
    ensures Rest(a + b) == Rest(Rest(a) + b)
    decreases |a|
  {
    var k := Break(a);
    if k < |a| {
      BreakAppend(a, b);
      var c, ab := a[k + 2..], a + b;
      assert ab[..k] == a[..k] && ab[k + 2..] == c + b;
      SplitAppend(c, b);
      SplitStep(a, k);
      SplitStep(ab, k);
      AppendAssociative(Event(a[..k]), Events(c), Events(Rest(a) + b));
    } else {
      assert Events(a) == [] && Rest(a) == a;
    }
  }

  /** The text before the rest. */
  function Head(t: Text): Text
    decreases |t|
  {
    var k := Break(t);
    if k == |t| then [] else t[..k + 2] + Head(t[k + 2..])
  }

  lemma RejoinCut(t: Text, n: nat, x: Text, y: Text)
    requires n <= |t| && t[n..] == x + y
    ensures (t[..n] + x) + y == t
  {
    assert (t[..n] + x) + y == t[..n] + (x + y);
  }

  lemma {:induction false} HeadAndRest(t: Text)
    ensures t == Head(t) + Rest(t)
    decreases |t|
  {
    var k := Break(t);
    if k < |t| {
      HeadAndRest(t[k + 2..]);
      RejoinCut(t, k + 2, Head(t[k + 2..]), Rest(t[k + 2..]));
    }
  }

  lemma {:induction false} HeadEnds(t: Text)
    ensures Head(t) == [] || Head(t)[|Head(t)| - 1] == LF
    decreases |t|
  {
    var k := Break(t);
    if k < |t| {
      HeadEnds(t[k + 2..]);
      LastOf(t[..k + 2], Head(t[k + 2..]));
    }
  }

  lemma TailOf(a: Text, q: Text, k: nat)
    requires k <= |a|
    ensures (a + q)[|a|..] == q && (a + q)[..k] == a[..k]
  {
  }

  /** It splits into the same events, with no rest. */
  lemma {:induction false} HeadSplits(t: Text)
    ensures Events(Head(t)) == Events(t) && Rest(Head(t)) == []
    decreases |t|
  {
    var k := Break(t);
    if k < |t| {
      var a, q := t[..k + 2], Head(t[k + 2..]);
      HeadSplits(t[k + 2..]);
      BreakPrefix(t, k);
      BreakAppend(a, q);
      TailOf(a, q, k);
      assert a[..k] == t[..k];
      SplitStep(t, k);
      SplitStep(a + q, k);
    }
  }

  lemma LastOf(a: Text, q: Text)
    requires a != [] && a[|a| - 1] == LF && (q == [] || q[|q| - 1] == LF)
    ensures (a + q)[|a + q| - 1] == LF
  {
  }

  lemma {:induction false} BreakPrefix(t: Text, k: nat)
    requires k == Break(t) < |t|
    ensures Break(t[..k + 2]) == k
  {
    if k == 0 {
    } else {
      assert t[..k + 2][1..] == t[1..][..k + 1];
      BreakPrefix(t[1..], k - 1);
    }
  }

  // ---------------------------------------------------------------- line ends in parts

  /** CR CR LF becomes CR LF, which a second pass would shorten again. */
  ghost predicate NoCrCrLf(t: Text) { forall i: nat | 0 < i && CrLfAt(t, i) :: t[i - 1] != CR }

  ghost predicate NoCrLf(t: Text) { forall i: nat :: !CrLfAt(t, i) }

  lemma {:induction false} NormalHasNone(t: Text)
    requires NoCrCrLf(t)
    ensures NoCrLf(Normal(t))
    ensures t != [] ==> Normal(t) != [] && (Normal(t)[0] == LF <==> t[0] == LF || CrLfAt(t, 0))
  {
    if t != [] {
      var n := if CrLfAt(t, 0) then 2 else 1;
      var rest := t[n..];
      assert forall i: nat :: CrLfAt(rest, i) <==> CrLfAt(t, i + n);
      NormalHasNone(rest);
      assert t[0] == CR && n == 1 ==> rest == [] || !(rest[0] == LF || CrLfAt(t, 1));
      forall i: nat ensures !CrLfAt(Normal(t), i) {
        if i > 0 { assert CrLfAt(Normal(t), i) == CrLfAt(Normal(rest), i - 1); }
      }
    }
  }

  lemma NoneWithin(a: Text, b: Text)
    requires NoCrCrLf(a + b)
    ensures NoCrCrLf(a) && NoCrCrLf(b)
  {
    forall i: nat | 0 < i && CrLfAt(a, i) ensures a[i - 1] != CR { assert CrLfAt(a + b, i); }
    forall i: nat | 0 < i && CrLfAt(b, i) ensures b[i - 1] != CR { assert CrLfAt(a + b, |a| + i); }
  }

  /** A part with no CR LF that does not end in CR is left alone. */
  lemma {:induction false} NormalAfter(p: Text, z: Text)
    requires NoCrLf(p) && (p == [] || p[|p| - 1] != CR)
    ensures Normal(p + z) == p + Normal(z)
  {
    if p == [] {
      assert p + z == z;
    } else {
      assert (p + z)[1..] == p[1..] + z;
      assert !CrLfAt(p, 0) && !CrLfAt(p + z, 0);
      forall i: nat ensures !CrLfAt(p[1..], i) { assert !CrLfAt(p, i + 1); }
      NormalAfter(p[1..], z);
      AppendAssociative([p[0]], p[1..], Normal(z));
      assert p == [p[0]] + p[1..];
    }
  }

  /** Normalising what was normalised already, with new text behind it. */
  lemma {:induction false} NormalAppend(x: Text, y: Text)
    requires NoCrCrLf(x + y)
    ensures Normal(x + y) == Normal(Normal(x) + y)
    decreases |x|
  {
    if |x| < 2 {
      assert Normal(x) == x;
    } else {
      var n := if CrLfAt(x, 0) then 2 else 1;
      var c, rest, xy := if n == 2 then LF else x[0], x[n..], x + y;
      assert xy[n..] == rest + y && xy == x[..n] + (rest + y);
      assert CrLfAt(xy, 0) <==> n == 2;
      assert CrLfAt(x, 1) ==> CrLfAt(xy, 1);
      NoneWithin(x[..n], rest + y);
      NoneWithin(rest, y);
      NormalAppend(rest, y);
      NormalHasNone(rest);
      var z := Normal(rest) + y;
      AppendAssociative([c], Normal(rest), y);
      assert ([c] + z)[1..] == z;
      NoneAtFront(x, y, n, z);
    }
  }

  lemma NoneAtFront(x: Text, y: Text, n: nat, z: Text)
    requires |x| >= 2 && n == (if CrLfAt(x, 0) then 2 else 1) && NoCrCrLf(x + y)
    requires z == Normal(x[n..]) + y
    ensures !CrLfAt([if n == 2 then LF else x[0]] + z, 0)
  {
    var rest := x[n..];
    if n == 1 && x[0] == CR {
      NoneWithin(x, y);
      NoneWithin([x[0]], rest) by { assert [x[0]] + rest == x; }
      NormalHasNone(rest);
      assert !CrLfAt(x, 1);
      assert CrLfAt(rest, 0) == CrLfAt(x, 1);
      assert z[0] == Normal(rest)[0];
    }
  }

  // ---------------------------------------------------------------- any chunking

  function Whole(chunks: seq<Text>): Text {
    if chunks == [] then [] else Whole(chunks[..|chunks| - 1]) + chunks[|chunks| - 1]
  }

  /** All events of successive calls of `ParseSSE`, and the buffer after them. */
  function FedEvents(chunks: seq<Text>): seq<Text> {
    if chunks == [] then []
    else
      var n := |chunks| - 1;
      FedEvents(chunks[..n]) + Events(Normal(FedBuffer(chunks[..n]) + chunks[n]))
  }

  function FedBuffer(chunks: seq<Text>): Text {
    if chunks == [] then []
    else
      var n := |chunks| - 1;
      Rest(Normal(FedBuffer(chunks[..n]) + chunks[n]))
  }

  /** One more chunk on top of a text that has been split as a whole. */
  lemma OneMore(x: Text, y: Text)
    requires NoCrCrLf(x + y)
    ensures var buffer := Rest(Normal(x));
      && Events(Normal(x + y)) == Events(Normal(x)) + Events(Normal(buffer + y))
      && Rest(Normal(x + y)) == Rest(Normal(buffer + y))
  {
    var t := Normal(x);
    NoneWithin(x, y);
    NormalHasNone(x);
    NormalAppend(x, y);
    HeadAndRest(t);
    HeadSplits(t);
    HeadEnds(t);
    var p := Head(t);
    var z := Rest(t) + y;
    AppendAssociative(p, Rest(t), y);
    forall i: nat ensures !CrLfAt(p, i) { assert CrLfAt(p, i) ==> CrLfAt(t, i); }
    NormalAfter(p, z);
    SplitAppend(p, Normal(z));
    assert [] + Normal(z) == Normal(z);
  }

  /** Without CR CR LF, every chunking gives the events of the whole text. */
  lemma {:induction false} AnyChunking(chunks: seq<Text>)
    requires NoCrCrLf(Whole(chunks))
    ensures FedEvents(chunks) == Events(Normal(Whole(chunks)))
    ensures FedBuffer(chunks) == Rest(Normal(Whole(chunks)))
  {
    if chunks == [] {
    } else {
      var n := |chunks| - 1;
      NoneWithin(Whole(chunks[..n]), chunks[n]);
      AnyChunking(chunks[..n]);
      OneMore(Whole(chunks[..n]), chunks[n]);
    }
  }

  // ---------------------------------------------------------------- and only without CR CR LF

  function Crs(t: Text): nat { multiset(t)[CR] }

  function CrsOf(events: seq<Text>): nat {
    if events == [] then 0 else Crs(events[0]) + CrsOf(events[1..])
  }

  predicate EndsCrLf(t: Text) { |t| >= 2 && t[|t| - 2] == CR && t[|t| - 1] == LF }

  lemma CrsAppend(a: Text, b: Text)
    ensures Crs(a + b) == Crs(a) + Crs(b)
  {
  }

  lemma CrsCut(t: Text, k: nat)
    requires k + 1 < |t| && t[k] == LF && t[k + 1] == LF
    ensures Crs(t) == Crs(t[..k]) + Crs(t[k + 2..])
  {
    assert t == t[..k] + ([LF, LF] + t[k + 2..]);
    CrsAppend(t[..k], [LF, LF] + t[k + 2..]);
    CrsAppend([LF, LF], t[k + 2..]);
  }

  lemma CrsOfEvent(event: Text, events: seq<Text>)
    ensures CrsOf(Event(event) + events) == Crs(event) + CrsOf(events)
  {
    if event != [] {
      assert (Event(event) + events)[1..] == events;
    } else {
      assert Event(event) + events == events;
    }
  }

  lemma {:induction false} SplitKeepsCrs(t: Text)
    ensures CrsOf(Events(t)) + Crs(Rest(t)) == Crs(t)
    decreases |t|
  {
    var k := Break(t);
    if k < |t| {
      SplitKeepsCrs(t[k + 2..]);
      SplitStep(t, k);
      CrsCut(t, k);
      CrsOfEvent(t[..k], Events(t[k + 2..]));
    }
  }

  lemma {:induction false} RestEnds(t: Text)
    requires EndsCrLf(t)
    ensures EndsCrLf(Rest(t))
    decreases |t|
  {
    var k := Break(t);
    if k < |t| { RestEnds(t[k + 2..]); }
  }

  lemma {:induction false} NormalEnds(t: Text)
    requires EndsCrLf(t) && |t| >= 3 && t[|t| - 3] == CR
    ensures EndsCrLf(Normal(t))
    decreases |t|
  {
    if |t| == 3 {
      assert t[1..][2..] == [];
      assert Normal(t[1..]) == [LF];
    } else if CrLfAt(t, 0) {
      NormalEnds(t[2..]);
    } else {
      NormalEnds(t[1..]);
    }
  }

  lemma {:induction false} NormalDropsCr(t: Text)
    requires EndsCrLf(t)
    ensures Crs(Normal(t)) < Crs(t)
    decreases |t|
  {
    if CrLfAt(t, 0) {
      assert t == [CR, LF] + t[2..];
      CrsAppend([CR, LF], t[2..]);
      CrsAppend([LF], Normal(t[2..]));
      NormalAddsNone(t[2..]);
    } else {
      assert t == [t[0]] + t[1..];
      CrsAppend([t[0]], t[1..]);
      CrsAppend([t[0]], Normal(t[1..]));
      NormalDropsCr(t[1..]);
    }
  }

  lemma {:induction false} NormalAddsNone(t: Text)
    ensures Crs(Normal(t)) <= Crs(t)
    decreases |t|
  {
    if t != [] {
      var n := if CrLfAt(t, 0) then 2 else 1;
      assert t == t[..n] + t[n..];
      CrsAppend(t[..n], t[n..]);
      NormalAddsNone(t[n..]);
      CrsAppend([if n == 2 then LF else t[0]], Normal(t[n..]));
    }
  }

  /** Normalising in two parts, cut anywhere but after a CR. */
  lemma {:induction false} NormalCut(x: Text, y: Text)
    requires x == [] || x[|x| - 1] != CR
    ensures Normal(x + y) == Normal(x) + Normal(y)
    decreases |x|
  {
    if x == [] {
      assert x + y == y;
    } else {
      var n := if CrLfAt(x, 0) then 2 else 1;
      assert (x + y)[n..] == x[n..] + y && (CrLfAt(x + y, 0) <==> n == 2);
      NormalCut(x[n..], y);
    }
  }

  lemma FedOne(x: Text)
    ensures FedEvents([x]) == Events(Normal(x)) && FedBuffer([x]) == Rest(Normal(x))
  {
    assert [x][..0] == [];
    assert [] + x == x;
    assert FedBuffer([]) == [] && FedEvents([]) == [];
    assert FedEvents([x]) == [] + Events(Normal(x));
  }

  lemma FedTwo(x: Text, y: Text)
    ensures FedEvents([x, y]) == FedEvents([x]) + Events(Normal(FedBuffer([x]) + y))
    ensures FedBuffer([x, y]) == Rest(Normal(FedBuffer([x]) + y))
  {
    assert [x, y][..1] == [x];
  }

  /** The carriage returns that come out of two calls, and of one. */
  lemma TwoCallsLoseCr(x: Text, y: Text)
    requires EndsCrLf(x) && |x| >= 3 && x[|x| - 3] == CR
    ensures CrsOf(FedEvents([x, y])) + Crs(FedBuffer([x, y])) < Crs(Normal(x)) + Crs(Normal(y))
  {
    var t := Normal(x);
    var b := Rest(t);
    FedOne(x);
    FedTwo(x, y);
    NormalEnds(x);
    RestEnds(t);
    NormalCut(b, y);
    NormalDropsCr(b);
    SplitKeepsCrs(t);
    SplitKeepsCrs(Normal(b + y));
    CrsAppend(Normal(b), Normal(y));
    CrsOfAppend(Events(t), Events(Normal(b + y)));
  }

  lemma CutAfter(x: Text, y: Text)
    requires EndsCrLf(x) && |x| >= 3 && x[|x| - 3] == CR
    ensures !SameAsWhole([x, y], x + y)
  {
    TwoCallsLoseCr(x, y);
    NormalCut(x, y);
    CrsAppend(Normal(x), Normal(y));
    SplitKeepsCrs(Normal(x + y));
  }

  lemma {:induction false} CrsOfAppend(a: seq<Text>, b: seq<Text>)
    ensures CrsOf(a + b) == CrsOf(a) + CrsOf(b)
  {
    if a == [] {
      assert a + b == b;
    } else {
      assert (a + b)[1..] == a[1..] + b;
      CrsOfAppend(a[1..], b);
    }
  }

  ghost predicate SameAsWhole(chunks: seq<Text>, t: Text) {
    FedEvents(chunks) == Events(Normal(t)) && FedBuffer(chunks) == Rest(Normal(t))
  }

  lemma ConcatTwo(x: Text, y: Text)
    ensures Whole([x, y]) == x + y
  {
    assert [x, y][..1] == [x] && [x][..0] == [];
    assert Whole([x]) == [] + x == x;
  }

  /** Cut behind a CR CR LF, the text is not read as a whole would be. */
  lemma CutMatters(t: Text) returns (chunks: seq<Text>)
    requires !NoCrCrLf(t)
    ensures Whole(chunks) == t && !SameAsWhole(chunks, t)
  {
    var i: nat :| 0 < i && CrLfAt(t, i) && t[i - 1] == CR;
    var x, y := t[..i + 2], t[i + 2..];
    CutAfter(x, y);
    ConcatTwo(x, y);
    assert x + y == t;
    chunks := [x, y];
  }

  /** Exactly the texts without CR CR LF are read alike however they arrive. */
  lemma ChunkingDoesNotMatter(t: Text)
    ensures NoCrCrLf(t) <==> forall chunks | Whole(chunks) == t :: SameAsWhole(chunks, t)
  {
    if NoCrCrLf(t) {
      forall chunks | Whole(chunks) == t ensures SameAsWhole(chunks, t) { AnyChunking(chunks); }
    } else {
      var chunks := CutMatters(t);
    }
  }

  // ---------------------------------------------------------------- what a server writes

  predicate NoBreak(t: Text) { forall i | 0 <= i < |t| - 1 :: !(t[i] == '\n' && t[i + 1] == '\n') }

  /** An event as a server may send it: some lines, none of them empty, without the last line end. */
  predicate Sendable(e: Text) { e != [] && '\r' !in e && NoBreak(e) && e[|e| - 1] != '\n' }

  /** Each event is followed by an empty line. */
  function Written(es: seq<Text>): Text {
    if es == [] then [] else es[0] + "\n\n" + Written(es[1..])
  }

  /** The same with line ends of two characters. */
  function TwoCharacters(t: Text): Text {
    if t == [] then [] else (if t[0] == '\n' then "\r\n" else [t[0]]) + TwoCharacters(t[1..])
  }

  lemma {:induction false} BreakBehind(e: Text, rest: Text)
    requires NoBreak(e) && (e == [] || e[|e| - 1] != '\n')
    ensures Break(e + "\n\n" + rest) == |e|
  {
    var t := e + "\n\n" + rest;
    if e == [] {
    } else {
      assert t[1..] == e[1..] + "\n\n" + rest && t[0] == e[0];
      assert |e| > 1 ==> t[1] == e[1];
      forall i | 0 <= i < |e[1..]| - 1 ensures !(e[1..][i] == '\n' && e[1..][i + 1] == '\n') {
        assert e[1..][i] == e[i + 1] && e[1..][i + 1] == e[i + 2];
      }
      BreakBehind(e[1..], rest);
    }
  }

  lemma {:induction false} NoBreakFound(t: Text)
    requires NoBreak(t)
    ensures Break(t) == |t|
  {
    if |t| >= 2 {
      forall i | 0 <= i < |t[1..]| - 1 ensures !(t[1..][i] == '\n' && t[1..][i + 1] == '\n') {
        assert t[1..][i] == t[i + 1] && t[1..][i + 1] == t[i + 2];
      }
      NoBreakFound(t[1..]);
    }
  }

  lemma EventInFront(e: Text, more: Text)
    requires Sendable(e)
    ensures Events(e + "\n\n" + more) == [e] + Events(more) && Rest(e + "\n\n" + more) == Rest(more)
  {
    var t := e + "\n\n" + more;
    BreakBehind(e, more);
    assert t[..|e|] == e && t[|e| + 2..] == more;
    SplitStep(t, |e|);
  }

  lemma {:induction false} WrittenSplits(es: seq<Text>, tail: Text)
    requires (forall e | e in es :: Sendable(e)) && NoBreak(tail)
    ensures Events(Written(es) + tail) == es && Rest(Written(es) + tail) == tail
  {
    if es == [] {
      assert [] + tail == tail;
      NoBreakFound(tail);
    } else {
      assert es[0] in es && forall e | e in es[1..] :: e in es;
      WrittenSplits(es[1..], tail);
      EventInFront(es[0], Written(es[1..]) + tail);
      AppendAssociative(es[0] + "\n\n", Written(es[1..]), tail);
    }
  }

  lemma {:induction false} NormalPlain(t: Text)
    requires '\r' !in t
    ensures Normal(t) == t && NoCrCrLf(t)
  {
    if t != [] { NormalPlain(t[1..]); }
  }

  lemma {:induction false} NormalOfTwo(t: Text)
    requires '\r' !in t
    ensures Normal(TwoCharacters(t)) == t && NoCrCrLf(TwoCharacters(t))
  {
    if t != [] {
      var u := TwoCharacters(t[1..]);
      NormalOfTwo(t[1..]);
      FirstOfTwo(t[1..]);
      if t[0] == '\n' {
        assert ("\r\n" + u)[2..] == u;
        NoneBehind("\r\n", u);
      } else {
        assert ([t[0]] + u)[1..] == u;
        NoneBehind([t[0]], u);
      }
    }
  }

  lemma FirstOfTwo(t: Text)
    requires '\r' !in t
    ensures TwoCharacters(t) == [] || TwoCharacters(t)[0] != '\n'
  {
  }

  lemma NoneBehind(a: Text, u: Text)
    requires NoCrCrLf(u) && (u == [] || u[0] != '\n') && (a == "\r\n" || (|a| == 1 && a[0] != '\r' && a[0] != '\n'))
    ensures NoCrCrLf(a + u)
  {
    forall i: nat | 0 < i && CrLfAt(a + u, i) ensures (a + u)[i - 1] != CR {
      if i > |a| { assert CrLfAt(u, i - |a|); }
    }
  }

  lemma {:induction false} WrittenPlain(es: seq<Text>)
    requires forall e | e in es :: Sendable(e)
    ensures '\r' !in Written(es)
  {
    if es != [] {
      assert es[0] in es;
      WrittenPlain(es[1..]);
    }
  }

  /**
    Round trip: whatever events a server sends, with line ends of one character or two, and however
    the text is cut, the calls together return exactly these events, and keep what follows them.
  */
  lemma EventsArrive(es: seq<Text>, tail: Text, chunks: seq<Text>)
    requires (forall e | e in es :: Sendable(e)) && NoBreak(tail) && '\r' !in tail
    requires Whole(chunks) == Written(es) + tail || Whole(chunks) == TwoCharacters(Written(es) + tail)
    ensures FedEvents(chunks) == es && FedBuffer(chunks) == tail
  {
    var t := Written(es) + tail;
    WrittenPlain(es);
    NormalPlain(t);
    NormalOfTwo(t);
    AnyChunking(chunks);
    WrittenSplits(es, tail);
  }
}
