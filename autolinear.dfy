/**
 * The auto-linear tone map of the image pipeline: an automatic exposure that
 * scales every masked pixel of the tonemapped channel by one factor chosen
 * from the image's mean luminance, on the host or on an OpenCL device.
 */
module AutoLinear {
  import opened Wrappers
  import opened UInt32

  //----------------------------------------------------------------------------
  // Pixels, luminance and the image pipeline
  //----------------------------------------------------------------------------

  /** One pixel of the RGB_TONEMAPPED channel. */
  datatype Rgb = Rgb(r: real, g: real, b: real)

  /** `scale * pixel`: every component multiplied by the same factor. */
  function Scaled(s: real, c: Rgb): Rgb {
    Rgb(s * c.r, s * c.g, s * c.b)
  }

  /** A pixel's luminance `Y()` as the float code sees it: a finite value, or infinity. */
  datatype Luma = Finite(value: real) | Infinite

  /** The luminance of a pixel; the model leaves the colour-space weights abstract. */
  type Luminance = Rgb -> Luma

  type PositiveReal = x: real | x > 0.0 witness 1.0

  /** `powf(base, exponent)`; the tone map only raises the positive base 118/255, so its result is positive. */
  type Power = (real, real) -> PositiveReal

  /** The luminance of a pixel scaled by `s`, when luminance is linear in the colour. */
  function ScaledLuma(s: real, l: Luma): Luma {
    match l
    case Finite(v) => Finite(s * v)
    case Infinite => Infinite
  }

  /** Scaling pixel `c` by `s` scales its luminance by `s`. */
  ghost predicate ScalesWith(lum: Luminance, s: real, c: Rgb) {
    lum(Scaled(s, c)) == ScaledLuma(s, lum(c))
  }

  /** Luminance is a linear function of the colour: scaling a pixel scales its luminance. */
  ghost predicate Homogeneous(lum: Luminance) {
    forall s: real, c: Rgb :: s > 0.0 ==> ScalesWith(lum, s, c)
  }

  /** A plugin of the image pipeline; only gamma correction matters to this tone map. */
  datatype PipelinePlugin = GammaCorrection(gamma: real) | OtherPlugin(kind: string)

  datatype ImagePipeline = ImagePipeline(plugins: seq<PipelinePlugin>)

  const DefaultGamma: real := 2.2

  /** The gamma of the first gamma-correction plugin of the pipeline (the lookup by type). */
  function FirstGammaCorrection(plugins: seq<PipelinePlugin>): (r: Option<real>)
    ensures r.None? <==> forall i :: 0 <= i < |plugins| ==> !plugins[i].GammaCorrection?
    ensures r.Some? ==> exists i :: 0 <= i < |plugins| && plugins[i] == GammaCorrection(r.value) &&
                                    forall j :: 0 <= j < i ==> !plugins[j].GammaCorrection?
  {
    if |plugins| == 0 then None
    else if plugins[0].GammaCorrection? then Some(plugins[0].gamma)
    else
      var r := FirstGammaCorrection(plugins[1..]);
      assert r.Some? ==> exists i :: 0 < i < |plugins| && plugins[i] == GammaCorrection(r.value) &&
                                     forall j :: 0 <= j < i ==> !plugins[j].GammaCorrection? by {
        if r.Some? {
          var i :| 0 <= i < |plugins[1..]| && plugins[1..][i] == GammaCorrection(r.value) &&
                   forall j :: 0 <= j < i ==> !plugins[1..][j].GammaCorrection?;
          assert forall j :: 0 <= j < i + 1 ==> !plugins[j].GammaCorrection? by {
            forall j | 0 <= j < i + 1 ensures !plugins[j].GammaCorrection? {
              if j > 0 { assert plugins[j] == plugins[1..][j - 1]; }
            }
          }
        }
      }
      r
  }

  /**
   * `GetGammaCorrectionValue`: the gamma of the pipeline's gamma-correction
   * plugin, or 2.2 when there is no pipeline or no such plugin in it.
   */
  function GammaCorrectionValue(pipeline: Option<ImagePipeline>): (gamma: real)
    ensures pipeline.None? ==> gamma == DefaultGamma
    ensures pipeline.Some? && (forall i :: 0 <= i < |pipeline.value.plugins| ==> !pipeline.value.plugins[i].GammaCorrection?)
            ==> gamma == DefaultGamma
    ensures pipeline.Some? && (exists i :: 0 <= i < |pipeline.value.plugins| && pipeline.value.plugins[i].GammaCorrection?)
            ==> exists i :: 0 <= i < |pipeline.value.plugins| && pipeline.value.plugins[i] == GammaCorrection(gamma) &&
                            forall j :: 0 <= j < i ==> !pipeline.value.plugins[j].GammaCorrection?
  {
    match pipeline
    case None => DefaultGamma
    case Some(ip) =>
      match FirstGammaCorrection(ip.plugins)
      case None => DefaultGamma
      case Some(g) => g
  }

  //----------------------------------------------------------------------------
  // The exposure estimate
  //----------------------------------------------------------------------------

  /** A pixel takes part in the luminance sum when it is masked and its luminance is finite and positive. */
  predicate Counted(lum: Luminance, c: Rgb, masked: bool) {
    masked && lum(c).Finite? && lum(c).value > 0.0
  }

  /** What one pixel adds to the luminance sum: its luminance when counted, nothing otherwise. */
  function Contribution(lum: Luminance, c: Rgb, masked: bool): real {
    if Counted(lum, c, masked) then lum(c).value else 0.0
  }

  /** The luminance sum over the first `n` pixels, in the order the host loop adds them. */
  function LuminanceSum(lum: Luminance, px: seq<Rgb>, mask: seq<bool>, n: nat): real
    requires n <= |px| && n <= |mask|
  {
    if n == 0 then 0.0 else LuminanceSum(lum, px, mask, n - 1) + Contribution(lum, px[n - 1], mask[n - 1])
  }

  /** How many of the first `n` pixels take part in the luminance sum. */
  function CountedPixels(lum: Luminance, px: seq<Rgb>, mask: seq<bool>, n: nat): nat
    requires n <= |px| && n <= |mask|
  {
    if n == 0 then 0
    else CountedPixels(lum, px, mask, n - 1) + if Counted(lum, px[n - 1], mask[n - 1]) then 1 else 0
  }

  /** The mean luminance `Y`: the sum divided by the number of pixels, whether counted or not. */
  function MeanLuminance(lum: Luminance, px: seq<Rgb>, mask: seq<bool>, n: nat): (y: real)
    requires 0 < n <= |px| && n <= |mask|
    ensures y >= 0.0
  {
    LuminanceSumZeroIffNoneCounted(lum, px, mask, n);
    LuminanceSum(lum, px, mask, n) / n as real
  }

  const ExposureBase: real := 118.0 / 255.0

  /**
   * `CalcLinearToneMapScale`: the factor `1.25 / Y * (118/255)^gamma`, which
   * brings a mean luminance `y` to the target `1.25 * (118/255)^gamma`.
   */
  function LinearToneMapScale(powf: Power, pipeline: Option<ImagePipeline>, y: real): (scale: real)
    requires y > 0.0
    ensures scale > 0.0
    ensures scale * y == 1.25 * powf(ExposureBase, GammaCorrectionValue(pipeline))
  {
    var gamma := GammaCorrectionValue(pipeline);
    1.25 / y * powf(ExposureBase, gamma)
  }

  /** The pixels after every masked one among the first `n` is multiplied by `s`. */
  function ScaleMasked(s: real, px: seq<Rgb>, mask: seq<bool>, n: nat): (r: seq<Rgb>)
    requires n <= |px| && n <= |mask|
    ensures |r| == |px|
  {
    seq(|px|, k requires 0 <= k < |px| => if k < n && mask[k] then Scaled(s, px[k]) else px[k])
  }

  /** The channel contents that the host path `Apply` leaves behind, over `n` pixels. */
  function ToneMapped(lum: Luminance, powf: Power, pipeline: Option<ImagePipeline>,
                      px: seq<Rgb>, mask: seq<bool>, n: nat): (r: seq<Rgb>)
    requires n <= |px| && n <= |mask|
    ensures |r| == |px|
    ensures forall k :: 0 <= k < |px| && !(k < n && mask[k]) ==> r[k] == px[k]
  {
    if n == 0 then px
    else
      var y := MeanLuminance(lum, px, mask, n);
      if y <= 0.0 then px else ScaleMasked(LinearToneMapScale(powf, pipeline, y), px, mask, n)
  }

  //----------------------------------------------------------------------------
  // Properties of the exposure estimate
  //----------------------------------------------------------------------------

  /** The luminance sum is never negative, and it is zero exactly when no pixel is counted. */
  lemma {:induction false} LuminanceSumZeroIffNoneCounted(lum: Luminance, px: seq<Rgb>, mask: seq<bool>, n: nat)
    requires n <= |px| && n <= |mask|
    ensures LuminanceSum(lum, px, mask, n) >= 0.0
    ensures LuminanceSum(lum, px, mask, n) == 0.0 <==> forall k :: 0 <= k < n ==> !Counted(lum, px[k], mask[k])
  {
    if n > 0 {
      LuminanceSumZeroIffNoneCounted(lum, px, mask, n - 1);
    }
  }

  /**
   * Each pixel adds its own luminance when it is counted and nothing otherwise:
   * unmasking pixel `k` lowers the sum by exactly what `k` contributed.
   */
  lemma {:induction false} LuminanceSumAtPixel(lum: Luminance, px: seq<Rgb>, mask: seq<bool>, n: nat, k: nat)
    requires n <= |px| && n <= |mask| && k < n
    ensures LuminanceSum(lum, px, mask, n) ==
            LuminanceSum(lum, px, mask[k := false], n) + (if Counted(lum, px[k], mask[k]) then lum(px[k]).value else 0.0)
  {
    if k < n - 1 {
      LuminanceSumAtPixel(lum, px, mask, n - 1, k);
    } else {
      LuminanceSumPrefix(lum, px, mask, mask[k := false], n - 1);
    }
  }

  /** The sum over the first `n` pixels depends only on the first `n` mask entries. */
  lemma {:induction false} LuminanceSumPrefix(lum: Luminance, px: seq<Rgb>, mask: seq<bool>, mask': seq<bool>, n: nat)
    requires n <= |px| && n <= |mask| && n <= |mask'|
    requires mask[..n] == mask'[..n]
    ensures LuminanceSum(lum, px, mask, n) == LuminanceSum(lum, px, mask', n)
  {
    if n > 0 {
      assert mask[n - 1] == mask[..n][n - 1] && mask'[n - 1] == mask'[..n][n - 1];
      assert mask[..n - 1] == mask[..n][..n - 1] && mask'[..n - 1] == mask'[..n][..n - 1];
      LuminanceSumPrefix(lum, px, mask, mask', n - 1);
    }
  }

  /** At most the counted pixels' number of pixels is summed, and each is positive. */
  lemma {:induction false} CountedPixelsBound(lum: Luminance, px: seq<Rgb>, mask: seq<bool>, n: nat)
    requires n <= |px| && n <= |mask|
    ensures CountedPixels(lum, px, mask, n) <= n
    ensures CountedPixels(lum, px, mask, n) == 0 <==> LuminanceSum(lum, px, mask, n) == 0.0
  {
    if n > 0 {
      CountedPixelsBound(lum, px, mask, n - 1);
      LuminanceSumZeroIffNoneCounted(lum, px, mask, n - 1);
    }
  }

  /**
   * The mean divides by all `n` pixels, not by the counted ones: whenever some
   * pixel is left out of the sum, `Y` is strictly below the average luminance
   * of the pixels that were summed.
   */
  lemma MeanDividesByAllPixels(lum: Luminance, px: seq<Rgb>, mask: seq<bool>, n: nat)
    requires 0 < n <= |px| && n <= |mask|
    requires 0 < CountedPixels(lum, px, mask, n) < n
    ensures MeanLuminance(lum, px, mask, n) * n as real == LuminanceSum(lum, px, mask, n)
    ensures MeanLuminance(lum, px, mask, n) <
            LuminanceSum(lum, px, mask, n) / CountedPixels(lum, px, mask, n) as real
  {
    var sum, c := LuminanceSum(lum, px, mask, n), CountedPixels(lum, px, mask, n);
    CountedPixelsBound(lum, px, mask, n);
    LuminanceSumZeroIffNoneCounted(lum, px, mask, n);
    QuotientDecreases(sum, c as real, n as real);
  }

  lemma QuotientDecreases(sum: real, c: real, n: real)
    requires sum > 0.0 && 0.0 < c < n
    ensures (sum / n) * n == sum
    ensures sum / n < sum / c
  {
    var a, b := sum / n, sum / c;
    assert a * n == sum && b * c == sum;
    assert b > 0.0;
    if a >= b {
      assert a * n >= b * n;
      assert b * n > b * c;
    }
  }

  /** With no counted pixel (all masked out, dark or infinite) the host path changes nothing. */
  lemma DarkImageUnchanged(lum: Luminance, powf: Power, pipeline: Option<ImagePipeline>,
                           px: seq<Rgb>, mask: seq<bool>, n: nat)
    requires n <= |px| && n <= |mask|
    requires forall k :: 0 <= k < n ==> !Counted(lum, px[k], mask[k])
    ensures ToneMapped(lum, powf, pipeline, px, mask, n) == px
  {
    LuminanceSumZeroIffNoneCounted(lum, px, mask, n);
  }

  /**
   * The host path multiplies every masked pixel among the first `n` by one
   * common positive factor and leaves every other pixel as it was; the factor
   * is not 1 only when some pixel is counted.
   */
  lemma ToneMappedScalesMaskedPixels(lum: Luminance, powf: Power, pipeline: Option<ImagePipeline>,
                                     px: seq<Rgb>, mask: seq<bool>, n: nat)
    requires n <= |px| && n <= |mask|
    ensures var out := ToneMapped(lum, powf, pipeline, px, mask, n);
            |out| == |px| &&
            (forall k :: 0 <= k < |px| && !(k < n && mask[k]) ==> out[k] == px[k]) &&
            exists s: real :: s > 0.0 && MaskedScaledBy(s, px, mask, n, out)
  {
    var out := ToneMapped(lum, powf, pipeline, px, mask, n);
    if n == 0 || MeanLuminance(lum, px, mask, n) <= 0.0 {
      assert MaskedScaledBy(1.0, px, mask, n, out);
    } else {
      var s := LinearToneMapScale(powf, pipeline, MeanLuminance(lum, px, mask, n));
      assert MaskedScaledBy(s, px, mask, n, out);
    }
  }

  /** Every masked pixel among the first `n` of `out` is the matching pixel of `px` times `s`. */
  ghost predicate MaskedScaledBy(s: real, px: seq<Rgb>, mask: seq<bool>, n: nat, out: seq<Rgb>)
    requires n <= |px| && n <= |mask| && |out| == |px|
  {
    forall k :: 0 <= k < n && mask[k] ==> out[k] == Scaled(s, px[k])
  }

  /** With a linear luminance, scaling the masked pixels by `s` scales the luminance sum by `s`. */
  lemma {:induction false} LuminanceSumScales(lum: Luminance, s: real, px: seq<Rgb>, mask: seq<bool>, n: nat, m: nat)
    requires Homogeneous(lum) && s > 0.0
    requires m <= n <= |px| && n <= |mask|
    ensures LuminanceSum(lum, ScaleMasked(s, px, mask, n), mask, m) == s * LuminanceSum(lum, px, mask, m)
  {
    if m > 0 {
      LuminanceSumScales(lum, s, px, mask, n, m - 1);
      LuminanceSumScalesStep(lum, s, px, mask, n, m);
    }
  }

  lemma LuminanceSumScalesStep(lum: Luminance, s: real, px: seq<Rgb>, mask: seq<bool>, n: nat, m: nat)
    requires Homogeneous(lum) && s > 0.0
    requires 0 < m <= n <= |px| && n <= |mask|
    requires LuminanceSum(lum, ScaleMasked(s, px, mask, n), mask, m - 1) == s * LuminanceSum(lum, px, mask, m - 1)
    ensures LuminanceSum(lum, ScaleMasked(s, px, mask, n), mask, m) == s * LuminanceSum(lum, px, mask, m)
  {
    var scaled := ScaleMasked(s, px, mask, n);
    var c, masked := px[m - 1], mask[m - 1];
    ContributionScales(lum, s, c, masked);
    assert scaled[m - 1] == if masked then Scaled(s, c) else c;
    SumStepScales(lum, s, px, scaled, mask, m);
  }

  /** One more pixel keeps the ratio `s` between two sums when its contributions have that ratio. */
  lemma SumStepScales(lum: Luminance, s: real, px: seq<Rgb>, out: seq<Rgb>, mask: seq<bool>, m: nat)
    requires 0 < m <= |px| && m <= |out| && m <= |mask|
    requires LuminanceSum(lum, out, mask, m - 1) == s * LuminanceSum(lum, px, mask, m - 1)
    requires Contribution(lum, out[m - 1], mask[m - 1]) == s * Contribution(lum, px[m - 1], mask[m - 1])
    ensures LuminanceSum(lum, out, mask, m) == s * LuminanceSum(lum, px, mask, m)
  {
    var a, b := LuminanceSum(lum, px, mask, m - 1), Contribution(lum, px[m - 1], mask[m - 1]);
    assert s * (a + b) == s * a + s * b;
  }

  /** A pixel scaled by a positive factor, or left alone when unmasked, contributes that factor times as much. */
  lemma ContributionScales(lum: Luminance, s: real, c: Rgb, masked: bool)
    requires Homogeneous(lum) && s > 0.0
    ensures Contribution(lum, if masked then Scaled(s, c) else c, masked) == s * Contribution(lum, c, masked)
  {
    if masked {
      ScaledPixelCounted(lum, s, c);
    }
  }

  /** Scaling a pixel by a positive factor keeps it counted or not, and scales what it adds. */
  lemma ScaledPixelCounted(lum: Luminance, s: real, c: Rgb)
    requires Homogeneous(lum) && s > 0.0
    ensures Counted(lum, Scaled(s, c), true) == Counted(lum, c, true)
    ensures Counted(lum, c, true) ==> lum(Scaled(s, c)).value == s * lum(c).value
  {
    assert ScalesWith(lum, s, c);
    if lum(c).Finite? {
      var v := lum(c).value;
      if v > 0.0 {
        assert s * v > 0.0;
      } else {
        assert s * v <= 0.0;
      }
    }
  }

  /**
   * The auto exposure reaches its target: with a linear luminance and a
   * positive mean, the mean luminance after the host path is exactly
   * `1.25 * (118/255)^gamma`.
   */
  lemma ToneMapReachesTarget(lum: Luminance, powf: Power, pipeline: Option<ImagePipeline>,
                             px: seq<Rgb>, mask: seq<bool>, n: nat)
    requires Homogeneous(lum)
    requires 0 < n <= |px| && n <= |mask|
    requires MeanLuminance(lum, px, mask, n) > 0.0
    ensures MeanLuminance(lum, ToneMapped(lum, powf, pipeline, px, mask, n), mask, n) ==
            1.25 * powf(ExposureBase, GammaCorrectionValue(pipeline))
  {
    var y := MeanLuminance(lum, px, mask, n);
    var s := LinearToneMapScale(powf, pipeline, y);
    assert ToneMapped(lum, powf, pipeline, px, mask, n) == ScaleMasked(s, px, mask, n);
    MeanScales(lum, s, px, mask, n);
  }

  /** With a linear luminance, scaling the masked pixels by `s` scales the mean by `s`. */
  lemma MeanScales(lum: Luminance, s: real, px: seq<Rgb>, mask: seq<bool>, n: nat)
    requires Homogeneous(lum) && s > 0.0
    requires 0 < n <= |px| && n <= |mask|
    ensures MeanLuminance(lum, ScaleMasked(s, px, mask, n), mask, n) == s * MeanLuminance(lum, px, mask, n)
  {
    var scaled := ScaleMasked(s, px, mask, n);
    var sum, sum', d := LuminanceSum(lum, px, mask, n), LuminanceSum(lum, scaled, mask, n), n as real;
    LuminanceSumScales(lum, s, px, mask, n, n);
    assert sum' / d == s * (sum / d);
  }

  /**
   * In exact arithmetic a second application changes nothing: after one pass
   * the mean is on target, so the second pass computes the factor 1.
   */
  lemma ToneMapIdempotent(lum: Luminance, powf: Power, pipeline: Option<ImagePipeline>,
                          px: seq<Rgb>, mask: seq<bool>, n: nat)
    requires Homogeneous(lum)
    requires n <= |px| && n <= |mask|
    ensures var once := ToneMapped(lum, powf, pipeline, px, mask, n);
            ToneMapped(lum, powf, pipeline, once, mask, n) == once
  {
    var once := ToneMapped(lum, powf, pipeline, px, mask, n);
    if n > 0 && MeanLuminance(lum, px, mask, n) > 0.0 {
      ToneMapReachesTarget(lum, powf, pipeline, px, mask, n);
      var target := MeanLuminance(lum, once, mask, n);
      var s := LinearToneMapScale(powf, pipeline, target);
      assert s == 1.0 by {
        assert s * target == target;
      }
      assert ScaleMasked(1.0, once, mask, n) == once;
    }
  }

  //----------------------------------------------------------------------------
  // Device-side sizes
  //----------------------------------------------------------------------------

  const ReduceGroupSize: u32 := 64
  const ApplyGroupSize: u32 := 256

  /**
   * Work-items of the reduce kernel: each one reduces two pixels, so the range
   * covers every pixel, in whole half-groups of 32.
   */
  function WorkSize(pixelCount: u32): (w: u32)
    ensures pixelCount + 64 <= Modulus ==> 2 * w >= pixelCount && w % 32 == 0
  {
    RoundUp(pixelCount, ReduceGroupSize) / 2
  }

  /** RGB triples the accumulation buffer holds: the number of whole reduce work-groups. */
  function AccumSlots(pixelCount: u32): (slots: nat)
    ensures slots * 64 <= WorkSize(pixelCount) < (slots + 1) * 64
  {
    WorkSize(pixelCount) / ReduceGroupSize
  }

  /**
   * The global range of the apply kernel: a multiple of the 256-wide work-group
   * that covers every pixel with fewer than 256 work-items to spare.
   */
  function ApplyRange(pixelCount: u32): (range: u32)
    ensures pixelCount + 256 <= Modulus ==> range % 256 == 0 && pixelCount <= range < pixelCount + 256
  {
    RoundUp(pixelCount, ApplyGroupSize)
  }

  /** Bytes of the accumulation buffer: `(workSize / 64) * sizeof(float) * 3`. */
  function AccumBufferBytes(pixelCount: u32): nat {
    AccumSlots(pixelCount) * 4 * 3
  }

  /**
   * `workSize` is a multiple of 32 but not always of 64: when
   * `RoundUp(pixelCount, 64) / 64` is odd the reduce range ends in half a
   * work-group that has no slot in the accumulation buffer (for 64 pixels the
   * buffer holds no triple at all and the range is narrower than one group).
   */
  lemma AccumBufferShortOfGroups(pixelCount: u32)
    requires pixelCount + 64 <= Modulus
    requires (RoundUp(pixelCount, 64) / 64) % 2 == 1
    ensures WorkSize(pixelCount) % 64 == 32
    ensures AccumSlots(pixelCount) < (WorkSize(pixelCount) + 63) / 64
  {
    var k := RoundUp(pixelCount, 64) / 64;
    assert RoundUp(pixelCount, 64) == 64 * k;
    assert WorkSize(pixelCount) == 32 * k;
    var h := k / 2;
    assert k == 2 * h + 1;
    assert WorkSize(pixelCount) == 64 * h + 32;
  }

  /** The smallest image that shows it: 8x8 pixels. */
  lemma SmallImageHasNoAccumSlot()
    ensures WorkSize(64) == 32 && AccumSlots(64) == 0 && AccumBufferBytes(64) == 0
  {
  }
}
