/** `Equalizer10Band`: ten peaking filters for each of two channels. */
module Equalizer {
  import opened Filters
  import opened Stereo
  import opened Tones

  /** What `configure` computes from a band frequency and the sample rate. */
  datatype Band = Band(alpha: real, cosW: real)

  /** The filters after `updateBand`: only one filter's coefficients change; gain is 10^(dB/40). */
  function Updated(fs: seq<Biquad>, bands: seq<Band>, index: int, gain: real): (r: seq<Biquad>)
    requires |fs| == |bands| && gain > 0.0 && forall b :: b in bands ==> b.alpha > 0.0
    ensures |r| == |fs|
  {
    if index < 0 || index >= |fs| then fs
    else fs[index := fs[index].(c := Peaking(gain, bands[index].alpha, bands[index].cosW))]
  }

  /** The filter multiplies a tone of the band's frequency by gain squared and leaves the two ends alone. */
  predicate Tuned(f: Biquad, band: Band, gain: real) {
    && Response(f.c, band.cosW, gain * gain, 0.0) && DcGain(f.c, 1.0) && NyquistGain(f.c, 1.0)
    && (1.0 - f.c.a2) * gain == band.alpha * (1.0 + f.c.a2) && Stable(f.c)
  }

  /** Nothing but these coefficients is different. */
  predicate Retuned(was: seq<Biquad>, now: seq<Biquad>, index: int) {
    && |now| == |was|
    && (forall i | 0 <= i < |was| && i != index :: now[i] == was[i])
    && (0 <= index < |was| ==> now[index] == was[index].(c := now[index].c))
  }

  lemma UpdatedTunes(fs: seq<Biquad>, bands: seq<Band>, index: int, gain: real)
    requires |fs| == |bands| && gain > 0.0 && forall b :: b in bands ==> b.alpha > 0.0
    ensures Retuned(fs, Updated(fs, bands, index, gain), index)
    ensures 0 <= index < |fs| && -1.0 < bands[index].cosW < 1.0 ==>
      Tuned(Updated(fs, bands, index, gain)[index], bands[index], gain)
  {
    if 0 <= index < |fs| && -1.0 < bands[index].cosW < 1.0 {
      PeakingFilter(gain, bands[index].alpha, bands[index].cosW);
      PeakingTone(gain, bands[index].alpha, bands[index].cosW);
    }
  }

  /** Setting a band to 0 dB keeps flat filters flat. */
  lemma UpdatedFlat(fs: seq<Biquad>, bands: seq<Band>, index: int)
    requires |fs| == |bands| && forall b :: b in bands ==> b.alpha > 0.0
    requires forall i :: 0 <= i < |fs| && i != index ==> Flat(fs[i])
    requires 0 <= index < |fs| ==> fs[index].x1 == fs[index].y1 && fs[index].x2 == fs[index].y2
    ensures AllFlat(Updated(fs, bands, index, 1.0))
  {
    if 0 <= index < |fs| {
      PeakingFlat(1.0, bands[index].alpha, bands[index].cosW);
    }
  }

  class Equalizer10Band {
    const bands: seq<Band>
    const left: array<Biquad>
    const right: array<Biquad>

    ghost predicate Valid()
      reads this
    {
      |bands| == 10 && left.Length == 10 && right.Length == 10 && left != right
      && forall b :: b in bands ==> b.alpha > 0.0
    }

    /** Every band at 0 dB since construction. */
    ghost predicate AtZero()
      reads this, left, right
    {
      AllFlat(left[..]) && AllFlat(right[..])
    }

    constructor (bands: seq<Band>)
      requires |bands| == 10 && forall b :: b in bands ==> b.alpha > 0.0
      ensures Valid() && AtZero() && fresh(left) && fresh(right) && this.bands == bands
      ensures forall i | 0 <= i < 10 :: Silent(left[i]) && Silent(right[i])
      ensures forall i | 0 <= i < 10 :: left[i].c == right[i].c == Peaking(1.0, bands[i].alpha, bands[i].cosW)
    {
      this.bands := bands;
      left := new Biquad[10](_ => FRESH);
      right := new Biquad[10](_ => FRESH);
      new;
      var i := 0;
      while i < 10
        invariant 0 <= i <= 10 && Valid() && fresh(left) && fresh(right) && this.bands == bands
        invariant forall k :: 0 <= k < i ==> Flat(left[k]) && Flat(right[k])
        invariant forall k :: 0 <= k < 10 ==> Silent(left[k]) && Silent(right[k])
        invariant forall k :: 0 <= k < i ==> left[k].c == right[k].c == Peaking(1.0, bands[k].alpha, bands[k].cosW)
        invariant forall k :: i <= k < 10 ==> left[k] == FRESH && right[k] == FRESH
      {
        PeakingFlat(1.0, bands[i].alpha, bands[i].cosW);
        UpdateBand(i, 1.0);
        i := i + 1;
      }
    }

    method UpdateBand(index: int, gain: real)
      requires Valid() && gain > 0.0
      modifies left, right
      ensures left[..] == Updated(old(left[..]), bands, index, gain)
      ensures right[..] == Updated(old(right[..]), bands, index, gain)
      ensures Retuned(old(left[..]), left[..], index) && Retuned(old(right[..]), right[..], index)
      ensures 0 <= index < 10 && -1.0 < bands[index].cosW < 1.0 ==>
            Tuned(left[index], bands[index], gain) && Tuned(right[index], bands[index], gain)
      ensures old(AtZero()) && gain == 1.0 ==> AtZero()
    {
      UpdatedTunes(left[..], bands, index, gain);
      UpdatedTunes(right[..], bands, index, gain);
      if old(AtZero()) {
        UpdatedFlat(left[..], bands, index);
        UpdatedFlat(right[..], bands, index);
      }
      if index < 0 || index >= 10 { return; }
      left[index] := left[index].(c := Peaking(gain, bands[index].alpha, bands[index].cosW));
      right[index] := right[index].(c := Peaking(gain, bands[index].alpha, bands[index].cosW));
    }

    /** One frame through all bands. */
    method ProcessFrame(l: real, r: real) returns (x: real, y: real)
      requires Valid()
      modifies left, right
      ensures x == ChainOutput(old(left[..]), l) && left[..] == ChainNext(old(left[..]), l)
      ensures y == ChainOutput(old(right[..]), r) && right[..] == ChainNext(old(right[..]), r)
    {
      ghost var l0, r0 := left[..], right[..];
      x, y := l, r;
      var b := 0;
      while b < 10
        invariant 0 <= b <= 10
        invariant left[b..] == l0[b..] && right[b..] == r0[b..]
        invariant ChainOutput(l0, l) == ChainOutput(l0[b..], x)
        invariant ChainNext(l0, l) == left[..b] + ChainNext(l0[b..], x)
        invariant ChainOutput(r0, r) == ChainOutput(r0[b..], y)
        invariant ChainNext(r0, r) == right[..b] + ChainNext(r0[b..], y)
      {
        ChainStep(l0, left[..], b, l, x);
        ChainStep(r0, right[..], b, r, y);
        ghost var l1, r1 := left[..], right[..];
        var x1, y1 := Output(left[b], x), Output(right[b], y);
        left[b] := Shift(left[b], x);
        right[b] := Shift(right[b], y);
        assert left[..] == l1[b := Shift(l1[b], x)] && right[..] == r1[b := Shift(r1[b], y)];
        x, y := x1, y1;
        b := b + 1;
      }
    }

    /** A whole buffer of frames, in place. */
    method Process(samples: array<Sample>)
      requires Valid() && samples.Length % 2 == 0
      modifies left, right, samples
      ensures samples[..] == PlayStereo(old(left[..]), old(right[..]), old(samples[..]))
      ensures left[..] == PlayEnd(old(left[..]), Channel(old(samples[..]), false))
      ensures right[..] == PlayEnd(old(right[..]), Channel(old(samples[..]), true))
      ensures old(AtZero()) ==> AtZero() && samples[..] == old(samples[..])
    {
      ghost var l0, r0, s0 := left[..], right[..], samples[..];
      ProgressStart(l0, r0, s0);
      var i := 0;
      while i < samples.Length
        invariant 0 <= i && Progress(l0, r0, s0, i, left[..], right[..], samples[..])
      {
        ghost var s1 := samples[..];
        ProgressStep(l0, r0, s0, i, left[..], right[..], s1);
        var x, y := ProcessFrame(samples[i] as real, samples[i + 1] as real);
        samples[i] := ToSample(x);
        samples[i + 1] := ToSample(y);
        ghost var s2: seq<Sample> := s1[i := ToSample(x)];
        assert samples[..] == s2[i + 1 := ToSample(y)];
        i := i + 2;
      }
      ProgressEnd(l0, r0, s0, i, left[..], right[..], samples[..]);
      if old(AtZero()) { FlatIsIdentity(l0, r0, s0); }
    }
  }
}
