/** The in-place transforms `processImage` runs over the canvas's RGBA buffer
    (static/app.js): the exposure loop, `applyNoise` and `clamp`. The buffer
    is a flat array of channel samples, four per pixel (red, green, blue,
    alpha); `Math.random()` is the parameter `rand`, `rand(c)` being the value
    of the c-th call. */
module Pixels {

  /** One sample of the canvas's `Uint8ClampedArray`. */
  type Byte = x: int | 0 <= x <= 255

  /** Offsets 3, 7, 11, ... hold alpha. */
  predicate IsAlpha(k: int)
  {
    k % 4 == 3
  }

  /** The samples at `i`, `i + 1` and `i + 2` of a pixel starting at `i` are colours. */
  lemma ColoursOfPixel(i: int)
    requires i % 4 == 0
    ensures !IsAlpha(i) && !IsAlpha(i + 1) && !IsAlpha(i + 2) && IsAlpha(i + 3) && (i + 4) % 4 == 0
  {
  }

  /** In a buffer of whole pixels, a pixel that starts before the end ends
      within it, and the next one starts at a pixel offset too. */
  lemma NextPixel(i: int, n: int)
    requires i % 4 == 0 && n % 4 == 0 && i < n
    ensures i + 4 <= n && (i + 4) % 4 == 0
  {
  }

  /** A non-empty buffer of whole pixels ends with a pixel whose first three
      samples are colours. */
  lemma LastPixel(n: int)
    requires n % 4 == 0 && n > 0
    ensures n >= 4 && (n - 4) % 4 == 0 && !IsAlpha(n - 4) && !IsAlpha(n - 3) && !IsAlpha(n - 2)
  {
  }

  /** `Math.round`: the nearest integer, halves rounded up. */
  function Round(x: real): (r: int)
    ensures r as real - 0.5 <= x < r as real + 0.5
  {
    (x + 0.5).Floor
  }

  function Max(a: int, b: int): int
  {
    if a >= b then a else b
  }

  function Min(a: int, b: int): int
  {
    if a <= b then a else b
  }

  /** `clamp`: `Math.round`, then limited to 0..255. Values below 0.5 clamp
      to 0, values from 254.5 on to 255, and everything in between to its
      nearest integer. */
  function Clamp(value: real): (b: Byte)
    ensures value < 0.5 ==> b == 0
    ensures value >= 254.5 ==> b == 255
    ensures 0.5 <= value < 254.5 ==> b as real - 0.5 <= value < b as real + 0.5
  {
    Max(0, Min(255, Round(value)))
  }

  /** `clamp` is the identity on the samples themselves. */
  lemma ClampOfByte(b: Byte)
    ensures Clamp(b as real) == b
  {
  }

  /** `clamp` never reverses an order. */
  lemma ClampMonotone(u: real, v: real)
    requires u <= v
    ensures Clamp(u) <= Clamp(v)
  {
    assert Round(u) <= Round(v);
  }

  /** The buffer after the exposure loop of `processImage`: every red, green and
      blue sample multiplied by the factor and clamped, alpha as it was. */
  function Exposed(s: seq<Byte>, factor: real): (r: seq<Byte>)
    ensures |r| == |s|
    ensures forall k :: 0 <= k < |s| && IsAlpha(k) ==> r[k] == s[k]
  {
    seq(|s|, k requires 0 <= k < |s| => ExposedSample(s[k], k, factor))
  }

  /** Sample `k` of the exposed buffer, `v` being its old value. */
  function ExposedSample(v: Byte, k: int, factor: real): (r: Byte)
    ensures IsAlpha(k) || factor == 1.0 ==> r == v
  {
    ClampOfByte(v);
    if IsAlpha(k) then v else Clamp(v as real * factor)
  }

  /** The exposure loop (static/app.js, inside `processImage`), in place. */
  method ApplyExposure(data: array<Byte>, factor: real)
    requires data.Length % 4 == 0
    modifies data
    ensures data[..] == Exposed(old(data[..]), factor)
    ensures forall k :: 0 <= k < data.Length && IsAlpha(k) ==> data[k] == old(data[k])
  {
    ghost var target := Exposed(data[..], factor);
    var i := 0;
    while i < data.Length
      invariant 0 <= i <= data.Length && i % 4 == 0
      invariant forall k :: 0 <= k < i ==> data[k] == target[k]
      invariant forall k :: i <= k < data.Length ==> data[k] == old(data[k])
    {
      ColoursOfPixel(i);
      ExposePixel(data, i, factor);
      i := i + 4;
    }
  }

  /** One iteration of the exposure loop: the colours of the pixel at `i`
      scaled and clamped, nothing else touched. */
  method ExposePixel(data: array<Byte>, i: int, factor: real)
    requires 0 <= i && i + 3 < data.Length && i % 4 == 0
    modifies data
    ensures data[i] == ExposedSample(old(data[i]), i, factor)
    ensures data[i + 1] == ExposedSample(old(data[i + 1]), i + 1, factor)
    ensures data[i + 2] == ExposedSample(old(data[i + 2]), i + 2, factor)
    ensures forall k :: 0 <= k < data.Length && k != i && k != i + 1 && k != i + 2 ==> data[k] == old(data[k])
  {
    ColoursOfPixel(i);
    data[i] := Clamp(data[i] as real * factor);
    data[i + 1] := Clamp(data[i + 1] as real * factor);
    data[i + 2] := Clamp(data[i + 2] as real * factor);
  }

  /** With factor 1 (the baseline settings) the exposure loop changes nothing. */
  lemma {:induction false} UnitExposureIsIdentity(s: seq<Byte>)
    ensures Exposed(s, 1.0) == s
  {
    forall k | 0 <= k < |s|
      ensures Exposed(s, 1.0)[k] == s[k]
    {
      ClampOfByte(s[k]);
    }
  }

  /** A larger factor never darkens any sample. */
  lemma ExposureMonotone(s: seq<Byte>, low: real, high: real)
    requires 0.0 <= low <= high
    ensures forall k :: 0 <= k < |s| ==> Exposed(s, low)[k] <= Exposed(s, high)[k]
  {
    forall k | 0 <= k < |s|
      ensures Exposed(s, low)[k] <= Exposed(s, high)[k]
    {
      SampleMonotone(s[k], k, low, high);
    }
  }

  lemma SampleMonotone(v: Byte, k: int, low: real, high: real)
    requires 0.0 <= low <= high
    ensures ExposedSample(v, k, low) <= ExposedSample(v, k, high)
  {
    if !IsAlpha(k) {
      var u, w := v as real * low, v as real * high;
      ScaleByByte(v, low, high);
      ClampMonotone(u, w);
    }
  }

  lemma ScaleByByte(v: Byte, low: real, high: real)
    requires low <= high
    ensures v as real * low <= v as real * high
  {
  }

  /** `noiseLevel` of `applyNoise`: 0 at ISO 200, 19.375 at ISO 6400, and
      positive exactly above ISO 200. */
  function NoiseLevel(iso: int): (level: real)
    ensures level > 0.0 <==> iso > 200
    ensures level == 0.0 <==> iso == 200
  {
    (iso - 200) as real / 6400.0 * 20.0
  }

  /** The delta `applyNoise` adds to a perturbed pixel, from its second draw
      `u`: a draw in [0, 1) gives a delta in [-level/2, level/2). */
  function Delta(u: real, level: real): (d: real)
    ensures 0.0 <= u < 1.0 && level > 0.0 ==> -level / 2.0 <= d < level / 2.0
  {
    (u - 0.5) * level
  }

  /** Every `Math.random()` value lies in [0, 1). */
  ghost predicate IsRandomSource(rand: nat -> real)
  {
    forall c: nat :: 0.0 <= rand(c) < 1.0
  }

  /** The pixel at offset `i` with the same `d` added to red, green and blue,
      each sum clamped on its own. */
  function Shifted(s: seq<Byte>, i: nat, d: real): (r: seq<Byte>)
    requires i + 2 < |s|
    ensures |r| == |s|
  {
    s[i := Clamp(s[i] as real + d)][i + 1 := Clamp(s[i + 1] as real + d)][i + 2 := Clamp(s[i + 2] as real + d)]
  }

  /** The `applyNoise` loop from pixel offset `i` on, the next `Math.random()`
      call being number `c`: a pixel is perturbed when its first draw is below
      `level / 100`, by `(second draw - 0.5) * level`. */
  function NoisedFrom(s: seq<Byte>, i: nat, level: real, rand: nat -> real, c: nat): (r: seq<Byte>)
    requires |s| % 4 == 0 && i % 4 == 0 && i <= |s|
    ensures |r| == |s|
    decreases |s| - i
  {
    if i == |s| then s
    else
      NextPixel(i, |s|);
      if rand(c) < level / 100.0 then
        NoisedFrom(Shifted(s, i, Delta(rand(c + 1), level)), i + 4, level, rand, c + 2)
      else
        NoisedFrom(s, i + 4, level, rand, c + 1)
  }

  /** The buffer after `applyNoise(data, iso)`. */
  function Noised(s: seq<Byte>, iso: int, rand: nat -> real): (r: seq<Byte>)
    requires |s| % 4 == 0
    ensures |r| == |s|
  {
    NoisedFrom(s, 0, NoiseLevel(iso), rand, 0)
  }

  /** `applyNoise`, in place. */
  method ApplyNoise(data: array<Byte>, iso: int, rand: nat -> real)
    requires data.Length % 4 == 0
    modifies data
    ensures data[..] == Noised(old(data[..]), iso, rand)
  {
    var noiseLevel := NoiseLevel(iso);
    ghost var target := Noised(data[..], iso, rand);
    var i, c := 0, 0;
    while i < data.Length
      invariant 0 <= i <= data.Length && i % 4 == 0
      invariant NoisedFrom(data[..], i, noiseLevel, rand, c) == target
    {
      NextPixel(i, data.Length);
      c := NoisePixel(data, i, noiseLevel, rand, c);
      i := i + 4;
    }
    NoisedFromEnd(data[..], noiseLevel, rand, c);
  }

  lemma NoisedFromEnd(s: seq<Byte>, level: real, rand: nat -> real, c: nat)
    requires |s| % 4 == 0
    ensures NoisedFrom(s, |s|, level, rand, c) == s
  {
  }

  /** One iteration of the `applyNoise` loop, for the pixel at `i` with the
      next `Math.random()` call numbered `c`; returns the number of the call
      after the ones it made. */
  method NoisePixel(data: array<Byte>, i: nat, noiseLevel: real, rand: nat -> real, c: nat) returns (next: nat)
    requires data.Length % 4 == 0 && i % 4 == 0 && i + 4 <= data.Length
    modifies data
    ensures NoisedFrom(data[..], i + 4, noiseLevel, rand, next) == NoisedFrom(old(data[..]), i, noiseLevel, rand, c)
    ensures next == (if rand(c) < noiseLevel / 100.0 then c + 2 else c + 1)
  {
    if rand(c) < noiseLevel / 100.0 {
      var noise := Delta(rand(c + 1), noiseLevel);
      NoisedFromDraw(data[..], i, noiseLevel, rand, c);
      ShiftPixel(data, i, noise);
      next := c + 2;
    } else {
      NoisedFromSkip(data[..], i, noiseLevel, rand, c);
      next := c + 1;
    }
  }

  /** The perturbation of one pixel: the same `noise` added to its three
      colours, each sum clamped. */
  method ShiftPixel(data: array<Byte>, i: int, noise: real)
    requires 0 <= i && i + 2 < data.Length
    modifies data
    ensures data[..] == Shifted(old(data[..]), i, noise)
  {
    data[i] := Clamp(data[i] as real + noise);
    data[i + 1] := Clamp(data[i + 1] as real + noise);
    data[i + 2] := Clamp(data[i + 2] as real + noise);
  }

  /** A pixel whose first draw is below `level / 100` is shifted by its second draw. */
  lemma NoisedFromDraw(s: seq<Byte>, i: nat, level: real, rand: nat -> real, c: nat)
    requires |s| % 4 == 0 && i % 4 == 0 && i + 4 <= |s|
    requires rand(c) < level / 100.0
    ensures NoisedFrom(s, i, level, rand, c) == NoisedFrom(Shifted(s, i, Delta(rand(c + 1), level)), i + 4, level, rand, c + 2)
  {
  }

  /** Any other pixel is left alone, having used one draw. */
  lemma NoisedFromSkip(s: seq<Byte>, i: nat, level: real, rand: nat -> real, c: nat)
    requires |s| % 4 == 0 && i % 4 == 0 && i + 4 <= |s|
    requires !(rand(c) < level / 100.0)
    ensures NoisedFrom(s, i, level, rand, c) == NoisedFrom(s, i + 4, level, rand, c + 1)
  {
  }

  /** `applyNoise` leaves the pixels before offset `i` and every alpha sample
      as they were. */
  lemma {:induction false} NoisedFromKeeps(s: seq<Byte>, i: nat, level: real, rand: nat -> real, c: nat)
    requires |s| % 4 == 0 && i % 4 == 0 && i <= |s|
    ensures forall k :: 0 <= k < i ==> NoisedFrom(s, i, level, rand, c)[k] == s[k]
    ensures forall k :: 0 <= k < |s| && IsAlpha(k) ==> NoisedFrom(s, i, level, rand, c)[k] == s[k]
    decreases |s| - i
  {
    if i < |s| {
      ColoursOfPixel(i);
      NextPixel(i, |s|);
      if rand(c) < level / 100.0 {
        var t := Shifted(s, i, Delta(rand(c + 1), level));
        NoisedFromKeeps(t, i + 4, level, rand, c + 2);
      } else {
        NoisedFromKeeps(s, i + 4, level, rand, c + 1);
      }
    }
  }

  /** `r` is `s` with no sample moved by more than `bound`. */
  predicate Near(r: int, s: int, bound: real)
  {
    s as real - bound <= r as real <= s as real + bound
  }

  /** Each colour of `a` is within `bound` of that of `b`. */
  predicate ColourNear(a: Colour, b: Colour, bound: real)
  {
    Near(a.red, b.red, bound) && Near(a.green, b.green, bound) && Near(a.blue, b.blue, bound)
  }

  /** Adding a delta of at most `h` either way to a sample and clamping moves
      it by at most `h + 0.5`: clamping only pulls it back toward the byte range. */
  lemma ClampShiftBound(v: Byte, d: real, h: real)
    requires -h <= d <= h
    ensures Near(Clamp(v as real + d), v, h + 0.5)
  {
  }

  /** A pixel that `applyNoise` may have produced is the old one, or one whose
      colours moved by at most half the level plus the rounding of `clamp`. */
  lemma NoisyPixelIsNear(after: Colour, before: Colour, level: real)
    requires NoisyPixel(after, before, level)
    ensures after == before || ColourNear(after, before, level / 2.0 + 0.5)
  {
    if after != before {
      var h := level / 2.0;
      var d :| -h <= d < h && after == ShiftColour(before, d);
      ShiftColourNear(before, d, h);
      assert ColourNear(after, before, h + 0.5);
    }
  }

  /** Shifting a colour by at most `h` either way moves each channel by at most `h + 0.5`. */
  lemma ShiftColourNear(c: Colour, d: real, h: real)
    requires -h <= d <= h
    ensures ColourNear(ShiftColour(c, d), c, h + 0.5)
  {
    ClampShiftBound(c.red, d, h);
    ClampShiftBound(c.green, d, h);
    ClampShiftBound(c.blue, d, h);
  }

  /** Without a positive noise level (ISO 200 or below) `applyNoise` changes nothing. */
  lemma {:induction false} NoNoiseWithoutLevel(s: seq<Byte>, i: nat, level: real, rand: nat -> real, c: nat)
    requires |s| % 4 == 0 && i % 4 == 0 && i <= |s|
    requires IsRandomSource(rand) && level <= 0.0
    ensures NoisedFrom(s, i, level, rand, c) == s
    decreases |s| - i
  {
    if i < |s| {
      NoNoiseWithoutLevel(s, i + 4, level, rand, c + 1);
    }
  }

  /** At ISO 200 the noise level is 0 and the buffer is left as it was. */
  lemma NoNoiseAtIso200(s: seq<Byte>, rand: nat -> real)
    requires |s| % 4 == 0 && IsRandomSource(rand)
    ensures Noised(s, 200, rand) == s
  {
    NoNoiseWithoutLevel(s, 0, NoiseLevel(200), rand, 0);
  }

  /** A higher ISO never lowers the noise level. */
  lemma NoiseLevelMonotone(low: int, high: int)
    requires low <= high
    ensures NoiseLevel(low) <= NoiseLevel(high)
  {
  }

  /** `applyNoise` keeps every alpha sample; it leaves each pixel alone or adds
      one delta in [-level/2, level/2) to its three colours, so that no colour
      moves by more than half the noise level plus the rounding of `clamp`. */
  lemma NoiseEffect(s: seq<Byte>, iso: int, rand: nat -> real)
    requires |s| % 4 == 0 && IsRandomSource(rand)
    ensures forall k :: 0 <= k < |s| && IsAlpha(k) ==> Noised(s, iso, rand)[k] == s[k]
    ensures NoisyFrom(Noised(s, iso, rand), s, 0, NoiseLevel(iso))
    ensures forall q :: 0 <= q && q + 4 <= |s| && q % 4 == 0 ==>
      ColourAt(Noised(s, iso, rand), q) == ColourAt(s, q) ||
      ColourNear(ColourAt(Noised(s, iso, rand), q), ColourAt(s, q), NoiseLevel(iso) / 2.0 + 0.5)
  {
    var r := Noised(s, iso, rand);
    NoisedFromKeeps(s, 0, NoiseLevel(iso), rand, 0);
    NoisedFromPixels(s, 0, NoiseLevel(iso), rand, 0);
    forall q | 0 <= q && q + 4 <= |s| && q % 4 == 0
      ensures ColourAt(r, q) == ColourAt(s, q) ||
        ColourNear(ColourAt(r, q), ColourAt(s, q), NoiseLevel(iso) / 2.0 + 0.5)
    {
      NoisyPixelIsNear(ColourAt(r, q), ColourAt(s, q), NoiseLevel(iso));
    }
  }

  /** The red, green and blue samples of one pixel. */
  datatype Colour = Colour(red: Byte, green: Byte, blue: Byte)

  /** The colours of the pixel at offset `q`. */
  function ColourAt(s: seq<Byte>, q: nat): Colour
    requires q + 2 < |s|
  {
    Colour(s[q], s[q + 1], s[q + 2])
  }

  /** `d` added to each colour, each sum clamped. */
  function ShiftColour(c: Colour, d: real): (r: Colour)
    ensures d == 0.0 ==> r == c
  {
    ClampOfByte(c.red);
    ClampOfByte(c.green);
    ClampOfByte(c.blue);
    Colour(Clamp(c.red as real + d), Clamp(c.green as real + d), Clamp(c.blue as real + d))
  }

  /** `after` is `before`, or `before` shifted by one delta in [-level/2, level/2). */
  ghost predicate NoisyPixel(after: Colour, before: Colour, level: real)
  {
    after == before || exists d :: -level / 2.0 <= d < level / 2.0 && after == ShiftColour(before, d)
  }

  /** Every pixel of `r` from offset `from` on is noise on the same pixel of `s`. */
  ghost predicate NoisyFrom(r: seq<Byte>, s: seq<Byte>, from: nat, level: real)
    requires |r| == |s| && |s| % 4 == 0
  {
    forall q :: from <= q && q + 4 <= |s| && q % 4 == 0 ==> NoisyPixel(ColourAt(r, q), ColourAt(s, q), level)
  }

  /** If `r` agrees with the pixel at `i` shifted by `d` up to that pixel, and
      is noise on every later pixel of it, then `r` is noise on `s` from `i` on. */
  lemma ShiftedPixelNoisy(s: seq<Byte>, i: nat, d: real, level: real, r: seq<Byte>)
    requires |s| % 4 == 0 && i % 4 == 0 && i + 3 < |s| && |r| == |s| && -level / 2.0 <= d < level / 2.0
    requires forall k :: 0 <= k < i + 4 ==> r[k] == Shifted(s, i, d)[k]
    requires NoisyFrom(r, Shifted(s, i, d), i + 4, level)
    ensures NoisyFrom(r, s, i, level)
  {
    var t := Shifted(s, i, d);
    assert ColourAt(r, i) == ShiftColour(ColourAt(s, i), d);
    forall q | i + 4 <= q && q + 4 <= |s| && q % 4 == 0
      ensures NoisyPixel(ColourAt(r, q), ColourAt(s, q), level)
    {
      assert ColourAt(t, q) == ColourAt(s, q);
    }
  }

  lemma {:induction false} NoisedFromPixels(s: seq<Byte>, i: nat, level: real, rand: nat -> real, c: nat)
    requires |s| % 4 == 0 && i % 4 == 0 && i <= |s|
    requires IsRandomSource(rand)
    ensures NoisyFrom(NoisedFrom(s, i, level, rand, c), s, i, level)
    decreases |s| - i
  {
    if i < |s| {
      ColoursOfPixel(i);
      NextPixel(i, |s|);
      if rand(c) < level / 100.0 {
        var d := Delta(rand(c + 1), level);
        var t := Shifted(s, i, d);
        NoisedFromDraw(s, i, level, rand, c);
        NoisedFromPixels(t, i + 4, level, rand, c + 2);
        NoisedFromKeeps(t, i + 4, level, rand, c + 2);
        var r := NoisedFrom(t, i + 4, level, rand, c + 2);
        ShiftedPixelNoisy(s, i, d, level, r);
        assert NoisedFrom(s, i, level, rand, c) == r;
      } else {
        NoisedFromSkip(s, i, level, rand, c);
        NoisedFromPixels(s, i + 4, level, rand, c + 1);
        NoisedFromKeeps(s, i + 4, level, rand, c + 1);
      }
    }
  }
}
