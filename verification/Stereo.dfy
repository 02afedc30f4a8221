/**
  Chains of filters over interleaved 16-bit stereo, as the equalizer and the tone control run them.
*/
module Stereo {
  import opened Filters

  type Sample = x: int | -32768 <= x < 32768

  /** The value that leaves a chain fed x: each filter's output is the next one's input. */
  function ChainOutput(fs: seq<Biquad>, x: real): real {
    if fs == [] then x else ChainOutput(fs[1..], Output(fs[0], x))
  }

  function ChainNext(fs: seq<Biquad>, x: real): (r: seq<Biquad>)
    ensures |r| == |fs|
  {
    if fs == [] then [] else [Shift(fs[0], x)] + ChainNext(fs[1..], Output(fs[0], x))
  }

  /** One more filter of a chain being run in place: the first k are done, z is the value so far. */
  lemma ChainStep(was: seq<Biquad>, now: seq<Biquad>, k: nat, x: real, z: real)
    requires |was| == |now| && k < |was| && now[k..] == was[k..]
    requires ChainOutput(was, x) == ChainOutput(was[k..], z)
    requires ChainNext(was, x) == now[..k] + ChainNext(was[k..], z)
    ensures ChainOutput(was, x) == ChainOutput(was[k + 1..], Output(now[k], z))
    ensures ChainNext(was, x) == now[k := Shift(now[k], z)][..k + 1] + ChainNext(was[k + 1..], Output(now[k], z))
  {
    assert now[k] == now[k..][0] == was[k..][0];
    assert was[k..][1..] == was[k + 1..];
  }

  /** Clamp to the 16-bit range, then truncate toward zero. */
  function ToSample(x: real): Sample {
    if x > 32767.0 then 32767
    else if x < -32768.0 then -32768
    else if x >= 0.0 then x.Floor
    else -(-x).Floor
  }

  /** The nearest sample value on the side of zero, exact on whole numbers in range and monotone. */
  lemma ToSampleTruncates(x: real, y: real, s: Sample)
    ensures ToSample(s as real) == s
    ensures x <= y ==> ToSample(x) <= ToSample(y)
    ensures 0.0 <= x <= 32767.0 ==> ToSample(x) as real <= x < ToSample(x) as real + 1.0
    ensures -32768.0 <= x <= 0.0 ==> ToSample(x) as real - 1.0 < x <= ToSample(x) as real
  {
    var k: int := s;
    assert k < 0 ==> -(s as real) == (-k) as real;
  }

  // ---------------------------------------------------------------- one channel

  function Play(fs: seq<Biquad>, xs: seq<Sample>): (r: seq<Sample>)
    ensures |r| == |xs|
    decreases |xs|
  {
    if xs == [] then []
    else [ToSample(ChainOutput(fs, xs[0] as real))] + Play(ChainNext(fs, xs[0] as real), xs[1..])
  }

  function PlayEnd(fs: seq<Biquad>, xs: seq<Sample>): (r: seq<Biquad>)
    ensures |r| == |fs|
    decreases |xs|
  {
    if xs == [] then fs else PlayEnd(ChainNext(fs, xs[0] as real), xs[1..])
  }

  // ---------------------------------------------------------------- the interleaved buffer

  /** The samples of one channel: every second one from position 0 or 1. */
  function Channel(s: seq<Sample>, right: bool): (r: seq<Sample>)
    requires |s| % 2 == 0
    ensures 2 * |r| == |s|
  {
    if |s| == 0 then [] else [s[if right then 1 else 0]] + Channel(s[2..], right)
  }

  function PlayStereo(l: seq<Biquad>, r: seq<Biquad>, s: seq<Sample>): (t: seq<Sample>)
    requires |s| % 2 == 0
    ensures |t| == |s|
    decreases |s|
  {
    if |s| == 0 then []
    else
      var x, y := s[0] as real, s[1] as real;
      [ToSample(ChainOutput(l, x)), ToSample(ChainOutput(r, y))]
      + PlayStereo(ChainNext(l, x), ChainNext(r, y), s[2..])
  }

  /** Each channel of the output is that channel of the input played through its own chain. */
  lemma {:induction false} ChannelsAreSeparate(l: seq<Biquad>, r: seq<Biquad>, s: seq<Sample>)
    requires |s| % 2 == 0
    ensures Channel(PlayStereo(l, r, s), false) == Play(l, Channel(s, false))
    ensures Channel(PlayStereo(l, r, s), true) == Play(r, Channel(s, true))
    decreases |s|
  {
    if |s| == 0 {
    } else {
      var x, y := s[0] as real, s[1] as real;
      ChannelsAreSeparate(ChainNext(l, x), ChainNext(r, y), s[2..]);
      assert PlayStereo(l, r, s)[2..] == PlayStereo(ChainNext(l, x), ChainNext(r, y), s[2..]);
      assert Channel(s, false)[1..] == Channel(s[2..], false);
      assert Channel(s, true)[1..] == Channel(s[2..], true);
    }
  }

  lemma {:induction false} ChannelAppend(a: seq<Sample>, b: seq<Sample>, right: bool)
    requires |a| % 2 == 0 && |b| % 2 == 0
    ensures Channel(a + b, right) == Channel(a, right) + Channel(b, right)
  {
    if |a| == 0 {
      assert a + b == b;
    } else {
      assert (a + b)[2..] == a[2..] + b;
      ChannelAppend(a[2..], b, right);
    }
  }

  lemma {:induction false} PlayEndAppend(fs: seq<Biquad>, a: seq<Sample>, b: seq<Sample>)
    ensures PlayEnd(fs, a + b) == PlayEnd(PlayEnd(fs, a), b)
    decreases |a|
  {
    if a == [] {
      assert a + b == b;
    } else {
      assert (a + b)[1..] == a[1..] + b;
      PlayEndAppend(ChainNext(fs, a[0] as real), a[1..], b);
    }
  }

  /** One chain after the first sample of its channel. */
  lemma PlayEndStep(fs: seq<Biquad>, s: seq<Sample>, right: bool)
    requires |s| % 2 == 0 && |s| > 0
    ensures PlayEnd(fs, Channel(s, right))
         == PlayEnd(ChainNext(fs, s[if right then 1 else 0] as real), Channel(s[2..], right))
  {
    assert Channel(s, right)[1..] == Channel(s[2..], right);
  }

  lemma {:induction false} StereoAppend(l: seq<Biquad>, r: seq<Biquad>, a: seq<Sample>, b: seq<Sample>)
    requires |a| % 2 == 0 && |b| % 2 == 0
    ensures PlayStereo(l, r, a + b)
         == PlayStereo(l, r, a) + PlayStereo(PlayEnd(l, Channel(a, false)), PlayEnd(r, Channel(a, true)), b)
    decreases |a|
  {
    if |a| == 0 {
      assert a + b == b;
    } else {
      var l1, r1 := ChainNext(l, a[0] as real), ChainNext(r, a[1] as real);
      assert (a + b)[2..] == a[2..] + b;
      StereoAppend(l1, r1, a[2..], b);
      PlayEndStep(l, a, false);
      PlayEndStep(r, a, true);
    }
  }

  /** One more frame of a buffer: done is what the samples before i became. */
  lemma FrameStep(l: seq<Biquad>, r: seq<Biquad>, s: seq<Sample>, i: nat)
    requires |s| % 2 == 0 && i % 2 == 0 && i + 2 <= |s|
    ensures var a := s[..i];
      var l1, r1 := PlayEnd(l, Channel(a, false)), PlayEnd(r, Channel(a, true));
      PlayStereo(l, r, s[..i + 2])
        == PlayStereo(l, r, a) + [ToSample(ChainOutput(l1, s[i] as real)), ToSample(ChainOutput(r1, s[i + 1] as real))]
      && PlayEnd(l, Channel(s[..i + 2], false)) == ChainNext(l1, s[i] as real)
      && PlayEnd(r, Channel(s[..i + 2], true)) == ChainNext(r1, s[i + 1] as real)
  {
    var a, b := s[..i], [s[i], s[i + 1]];
    assert s[..i + 2] == a + b;
    assert b[2..] == [];
    StreamingIsBatch(l, r, a, b);
    var l1, r1 := PlayEnd(l, Channel(a, false)), PlayEnd(r, Channel(a, true));
    PlayEndStep(l1, b, false);
    PlayEndStep(r1, b, true);
  }

  /** Processing two buffers in turn is processing their concatenation. */
  lemma {:induction false} StreamingIsBatch(l: seq<Biquad>, r: seq<Biquad>, a: seq<Sample>, b: seq<Sample>)
    requires |a| % 2 == 0 && |b| % 2 == 0
    ensures PlayStereo(l, r, a + b)
         == PlayStereo(l, r, a) + PlayStereo(PlayEnd(l, Channel(a, false)), PlayEnd(r, Channel(a, true)), b)
    ensures PlayEnd(l, Channel(a + b, false)) == PlayEnd(PlayEnd(l, Channel(a, false)), Channel(b, false))
    ensures PlayEnd(r, Channel(a + b, true)) == PlayEnd(PlayEnd(r, Channel(a, true)), Channel(b, true))
  {
    ChannelAppend(a, b, false);
    ChannelAppend(a, b, true);
    PlayEndAppend(l, Channel(a, false), Channel(b, false));
    PlayEndAppend(r, Channel(a, true), Channel(b, true));
    StereoAppend(l, r, a, b);
  }

  // ---------------------------------------------------------------- processing in place

  /** A buffer being rewritten: its first i samples are done, and the chains have seen just those. */
  predicate Progress(l0: seq<Biquad>, r0: seq<Biquad>, s0: seq<Sample>, i: nat,
                     l: seq<Biquad>, r: seq<Biquad>, s: seq<Sample>) {
    i <= |s0| && |s0| % 2 == 0 && i % 2 == 0 && |s| == |s0|
    && s == PlayStereo(l0, r0, s0[..i]) + s0[i..]
    && l == PlayEnd(l0, Channel(s0[..i], false))
    && r == PlayEnd(r0, Channel(s0[..i], true))
  }

  lemma ProgressStart(l0: seq<Biquad>, r0: seq<Biquad>, s0: seq<Sample>)
    requires |s0| % 2 == 0
    ensures Progress(l0, r0, s0, 0, l0, r0, s0)
  {
    assert s0[0..] == s0 && s0[..0] == [];
  }

  lemma ProgressStep(l0: seq<Biquad>, r0: seq<Biquad>, s0: seq<Sample>, i: nat,
                     l: seq<Biquad>, r: seq<Biquad>, s: seq<Sample>)
    requires Progress(l0, r0, s0, i, l, r, s) && i < |s|
    ensures i + 1 < |s|
    ensures var x, y := s[i] as real, s[i + 1] as real;
      Progress(l0, r0, s0, i + 2, ChainNext(l, x), ChainNext(r, y),
               s[i := ToSample(ChainOutput(l, x))][i + 1 := ToSample(ChainOutput(r, y))])
  {
    FrameStep(l0, r0, s0, i);
    var u, v := ToSample(ChainOutput(l, s[i] as real)), ToSample(ChainOutput(r, s[i + 1] as real));
    Rewrite(PlayStereo(l0, r0, s0[..i]), s0, i, u, v);
  }

  lemma Rewrite(a: seq<Sample>, s0: seq<Sample>, i: nat, u: Sample, v: Sample)
    requires |a| == i && i + 2 <= |s0|
    ensures (a + s0[i..])[i := u][i + 1 := v] == (a + [u, v]) + s0[i + 2..]
    ensures (a + s0[i..])[i] == s0[i] && (a + s0[i..])[i + 1] == s0[i + 1]
  {
  }

  lemma ProgressEnd(l0: seq<Biquad>, r0: seq<Biquad>, s0: seq<Sample>, i: nat,
                    l: seq<Biquad>, r: seq<Biquad>, s: seq<Sample>)
    requires Progress(l0, r0, s0, i, l, r, s) && i >= |s|
    ensures s == PlayStereo(l0, r0, s0)
    ensures l == PlayEnd(l0, Channel(s0, false)) && r == PlayEnd(r0, Channel(s0, true))
  {
    assert s0[..i] == s0 && s0[i..] == [];
  }

  // ---------------------------------------------------------------- flat settings

  /** Numerator and denominator are the same. */
  predicate FlatCoefs(c: Coefs) { c.b0 == 1.0 && c.b1 == c.a1 && c.b2 == c.a2 }

  /** A filter that has been flat since its histories were equal. */
  predicate Flat(f: Biquad) { FlatCoefs(f.c) && f.x1 == f.y1 && f.x2 == f.y2 }

  predicate AllFlat(fs: seq<Biquad>) { forall i :: 0 <= i < |fs| ==> Flat(fs[i]) }

  lemma FlatPasses(f: Biquad, x: real)
    requires Flat(f)
    ensures Output(f, x) == x && Flat(Shift(f, x))
  {
  }

  lemma {:induction false} FlatChain(fs: seq<Biquad>, x: real)
    requires AllFlat(fs)
    ensures ChainOutput(fs, x) == x && AllFlat(ChainNext(fs, x))
  {
    if fs == [] {
    } else {
      FlatPasses(fs[0], x);
      FlatChain(fs[1..], x);
    }
  }

  /** Flat chains return every buffer unchanged and stay flat. */
  lemma {:induction false} FlatIsIdentity(l: seq<Biquad>, r: seq<Biquad>, s: seq<Sample>)
    requires AllFlat(l) && AllFlat(r) && |s| % 2 == 0
    ensures PlayStereo(l, r, s) == s
    ensures AllFlat(PlayEnd(l, Channel(s, false))) && AllFlat(PlayEnd(r, Channel(s, true)))
    decreases |s|
  {
    if |s| == 0 {
    } else {
      var x, y := s[0] as real, s[1] as real;
      FlatChain(l, x);
      FlatChain(r, y);
      ToSampleTruncates(x, x, s[0]);
      ToSampleTruncates(y, y, s[1]);
      FlatIsIdentity(ChainNext(l, x), ChainNext(r, y), s[2..]);
      assert Channel(s, false)[1..] == Channel(s[2..], false);
      assert Channel(s, true)[1..] == Channel(s[2..], true);
    }
  }

  lemma SquareIsOne(g: real)
    requires g > 0.0 && g * g == 1.0
    ensures g == 1.0
  {
    assert g * g - 1.0 == (g - 1.0) * (g + 1.0);
  }

  lemma FactorIsOne(k: real, s: real, t: real)
    requires s == k * t && s == t && t > 0.0
    ensures k == 1.0
  {
    assert (k - 1.0) * t == 0.0;
  }

  /** A peaking filter is flat exactly at 0 dB. */
  lemma PeakingFlat(g: real, alpha: real, cosW: real)
    requires g > 0.0 && alpha > 0.0
    ensures FlatCoefs(Peaking(g, alpha, cosW)) <==> g == 1.0
  {
    var q := alpha / g;
    assert q > 0.0 && q * g == alpha;
    var i := 1.0 / (1.0 + q);
    assert (1.0 + q) * i == 1.0 && i > 0.0;
    if (1.0 + alpha * g) * i == 1.0 {
      Cancel(1.0 + alpha * g, 1.0 + q, i);
      assert alpha * g == q;
      Difference(g, q, alpha);
    } else {
      assert g != 1.0;
    }
  }

  lemma Cancel(x: real, y: real, i: real)
    requires x * i == y * i && i > 0.0
    ensures x == y
  {
    assert (x - y) * i == 0.0;
  }

  lemma Difference(g: real, q: real, p: real)
    requires q * g == p && p * g == q && p + q > 0.0
    ensures g == 1.0
  {
    FactorIsOne(g, q + p, q + p);
  }

  /** A flat stable filter can only have gain 1. */
  lemma FlatGains(c: Coefs, k: real)
    requires FlatCoefs(c) && Stable(c)
    requires DcGain(c, k) || NyquistGain(c, k)
    ensures k == 1.0
  {
    if DcGain(c, k) {
      FactorIsOne(k, c.b0 + c.b1 + c.b2, 1.0 + c.a1 + c.a2);
    } else {
      FactorIsOne(k, c.b0 - c.b1 + c.b2, 1.0 - c.a1 + c.a2);
    }
  }

  /** The shelves are flat exactly at 0 dB. */
  lemma ShelvesFlat(g: real, r: real, alpha: real, cosW: real)
    requires Params(g, r, alpha, cosW)
    ensures FlatCoefs(LowShelf(g, r, alpha, cosW)) <==> g == 1.0
    ensures FlatCoefs(HighShelf(g, r, alpha, cosW)) <==> g == 1.0
  {
    LowShelfFilter(g, r, alpha, cosW);
    HighShelfFilter(g, r, alpha, cosW);
    if FlatCoefs(LowShelf(g, r, alpha, cosW)) { FlatGains(LowShelf(g, r, alpha, cosW), g * g); SquareIsOne(g); }
    if FlatCoefs(HighShelf(g, r, alpha, cosW)) { FlatGains(HighShelf(g, r, alpha, cosW), g * g); SquareIsOne(g); }
    if g == 1.0 {
      ShelfPositive(g, r, alpha, cosW);
      FlatShelf(2.0, -2.0 * cosW, 2.0 * r * alpha);
    }
  }

  lemma FlatShelf(p: real, q: real, s: real)
    requires p + s > 0.0
    ensures FlatCoefs(Shelf(1.0, p, q, p, -q, s))
  {
    var i := 1.0 / (p + s);
    assert (p + s) * i == 1.0;
  }
}
