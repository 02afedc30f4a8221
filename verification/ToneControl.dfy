/** `ToneControl`: a bass shelf followed by a treble shelf on each channel. */
module ToneControl {
  import opened Filters
  import opened Stereo
  import opened Tones
  import opened Shelves

  /** A stable shelf with these gains at the two ends, and half of them, in dB, at its own frequency. */
  ghost predicate Shelved(f: Biquad, cosW: real, dc: real, nyquist: real, gain: real) {
    && Stable(f.c) && DcGain(f.c, dc) && NyquistGain(f.c, nyquist)
    && exists p, q :: Response(f.c, cosW, p, q) && PowerGain(cosW, p, q) == gain * gain
  }

  class ToneControl {
    const bass: (real, real)     // alpha and cosine of the bass cutoff
    const treble: (real, real)
    var bassL: Biquad
    var bassR: Biquad
    var trebleL: Biquad
    var trebleR: Biquad

    ghost predicate Valid()
    {
      bass.0 > 0.0 && -1.0 < bass.1 < 1.0 && treble.0 > 0.0 && -1.0 < treble.1 < 1.0
    }

    ghost function Left(): seq<Biquad>
      reads this
    {
      [bassL, trebleL]
    }

    ghost function Right(): seq<Biquad>
      reads this
    {
      [bassR, trebleR]
    }

    /** Both shelves at 0 dB since construction. */
    ghost predicate AtZero()
      reads this
    {
      AllFlat(Left()) && AllFlat(Right())
    }

    constructor (bass: (real, real), treble: (real, real))
      requires bass.0 > 0.0 && -1.0 < bass.1 < 1.0 && treble.0 > 0.0 && -1.0 < treble.1 < 1.0
      ensures Valid() && AtZero() && this.bass == bass && this.treble == treble
      ensures Silent(bassL) && Silent(bassR) && Silent(trebleL) && Silent(trebleR)
    {
      this.bass, this.treble := bass, treble;
      bassL, bassR, trebleL, trebleR := FRESH, FRESH, FRESH, FRESH;
      new;
      assert Flat(FRESH);
      SetBass(1.0, 1.0);
      SetTreble(1.0, 1.0);
    }

    method SetBass(gain: real, root: real)
      requires Valid() && gain > 0.0 && root > 0.0 && root * root == gain
      modifies this`bassL, this`bassR
      ensures bassL == old(bassL).(c := LowShelf(gain, root, bass.0, bass.1))
      ensures bassR == old(bassR).(c := LowShelf(gain, root, bass.0, bass.1))
      ensures Shelved(bassL, bass.1, gain * gain, 1.0, gain) && Shelved(bassR, bass.1, gain * gain, 1.0, gain)
      ensures old(AtZero()) && gain == 1.0 ==> AtZero()
    {
      ShelvesFlat(gain, root, bass.0, bass.1);
      assert old(AtZero()) ==> Flat(Left()[0]) && Flat(Left()[1]) && Flat(Right()[0]) && Flat(Right()[1]);
      LowShelfFilter(gain, root, bass.0, bass.1);
      var p, q := LowShelfTone(gain, root, bass.0, bass.1);
      bassL := bassL.(c := LowShelf(gain, root, bass.0, bass.1));
      bassR := bassR.(c := LowShelf(gain, root, bass.0, bass.1));
    }

    method SetTreble(gain: real, root: real)
      requires Valid() && gain > 0.0 && root > 0.0 && root * root == gain
      modifies this`trebleL, this`trebleR
      ensures trebleL == old(trebleL).(c := HighShelf(gain, root, treble.0, treble.1))
      ensures trebleR == old(trebleR).(c := HighShelf(gain, root, treble.0, treble.1))
      ensures Shelved(trebleL, treble.1, 1.0, gain * gain, gain) && Shelved(trebleR, treble.1, 1.0, gain * gain, gain)
      ensures old(AtZero()) && gain == 1.0 ==> AtZero()
    {
      ShelvesFlat(gain, root, treble.0, treble.1);
      assert old(AtZero()) ==> Flat(Left()[0]) && Flat(Left()[1]) && Flat(Right()[0]) && Flat(Right()[1]);
      HighShelfFilter(gain, root, treble.0, treble.1);
      var p, q := HighShelfTone(gain, root, treble.0, treble.1);
      trebleL := trebleL.(c := HighShelf(gain, root, treble.0, treble.1));
      trebleR := trebleR.(c := HighShelf(gain, root, treble.0, treble.1));
    }

    /** Bass, then treble, on one frame. */
    method ProcessFrame(l: real, r: real) returns (x: real, y: real)
      modifies this
      ensures x == ChainOutput(old(Left()), l) && Left() == ChainNext(old(Left()), l)
      ensures y == ChainOutput(old(Right()), r) && Right() == ChainNext(old(Right()), r)
    {
      TwoFilters(bassL, trebleL, l);
      TwoFilters(bassR, trebleR, r);
      x, y := Output(bassL, l), Output(bassR, r);
      bassL, bassR := Shift(bassL, l), Shift(bassR, r);
      var u, v := Output(trebleL, x), Output(trebleR, y);
      trebleL, trebleR := Shift(trebleL, x), Shift(trebleR, y);
      x, y := u, v;
    }

    method Process(samples: array<Sample>)
      requires samples.Length % 2 == 0
      modifies this, samples
      ensures samples[..] == PlayStereo(old(Left()), old(Right()), old(samples[..]))
      ensures Left() == PlayEnd(old(Left()), Channel(old(samples[..]), false))
      ensures Right() == PlayEnd(old(Right()), Channel(old(samples[..]), true))
      ensures old(AtZero()) ==> AtZero() && samples[..] == old(samples[..])
    {
      ghost var l0, r0, s0 := Left(), Right(), samples[..];
      ProgressStart(l0, r0, s0);
      var i := 0;
      while i < samples.Length
        invariant 0 <= i && Progress(l0, r0, s0, i, Left(), Right(), samples[..])
      {
        ghost var s1 := samples[..];
        ProgressStep(l0, r0, s0, i, Left(), Right(), s1);
        var x, y := ProcessFrame(samples[i] as real, samples[i + 1] as real);
        samples[i] := ToSample(x);
        samples[i + 1] := ToSample(y);
        ghost var s2: seq<Sample> := s1[i := ToSample(x)];
        assert samples[..] == s2[i + 1 := ToSample(y)];
        i := i + 2;
      }
      ProgressEnd(l0, r0, s0, i, Left(), Right(), samples[..]);
      if old(AtZero()) { FlatIsIdentity(l0, r0, s0); }
    }
  }

  /** A chain of two filters, spelled out. */
  lemma TwoFilters(f: Biquad, g: Biquad, x: real)
    ensures ChainOutput([f, g], x) == Output(g, Output(f, x))
    ensures ChainNext([f, g], x) == [Shift(f, x), Shift(g, Output(f, x))]
  {
    assert [f, g][1..] == [g] && [g][1..] == [];
    assert ChainOutput([g], Output(f, x)) == ChainOutput([], Output(g, Output(f, x)));
  }
}
