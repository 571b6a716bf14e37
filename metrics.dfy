/**
 * The figures reported after a conversion: the percentage by which the
 * vector output is smaller than the raster input, and the speed in
 * thousands of pixels per second. Sizes are byte counts and the arithmetic
 * is exact.
 */
module Metrics {
  import opened Wrappers

  /**
   * Percentage reduction from `inputSize` to `outputSize`; 0 when the input
   * is empty, so there is never a division by zero.
   */
  function CompressionRatio(inputSize: nat, outputSize: nat): (r: real)
    ensures inputSize == 0 ==> r == 0.0
    ensures inputSize > 0 ==> r * inputSize as real == 100.0 * (inputSize - outputSize) as real
  {
    if inputSize > 0 then (1.0 - outputSize as real / inputSize as real) * 100.0 else 0.0
  }

  /** The sign of the ratio says whether the output shrank, kept or grew the size. */
  lemma CompressionRatioSign(inputSize: nat, outputSize: nat)
    requires inputSize > 0
    ensures CompressionRatio(inputSize, outputSize) > 0.0 <==> outputSize < inputSize
    ensures CompressionRatio(inputSize, outputSize) == 0.0 <==> outputSize == inputSize
    ensures CompressionRatio(inputSize, outputSize) < 0.0 <==> outputSize > inputSize
  {
  }

  /** Nothing shrinks by more than all of it: at most 100, reached only by an empty output. */
  lemma CompressionRatioAtMost100(inputSize: nat, outputSize: nat)
    ensures CompressionRatio(inputSize, outputSize) <= 100.0
    ensures CompressionRatio(inputSize, outputSize) == 100.0 <==> inputSize > 0 && outputSize == 0
  {
  }

  /** For a fixed input, a larger output never reports a larger reduction. */
  lemma CompressionRatioAntitone(inputSize: nat, smaller: nat, larger: nat)
    requires smaller <= larger
    ensures CompressionRatio(inputSize, larger) <= CompressionRatio(inputSize, smaller)
  {
  }

  /** Worked values: halving, growing by half, shrinking 10000 bytes to 4000. */
  lemma CompressionRatioExamples()
    ensures CompressionRatio(1000, 500) == 50.0
    ensures CompressionRatio(1000, 1500) == -50.0
    ensures CompressionRatio(10000, 4000) == 60.0
    ensures forall out: nat :: CompressionRatio(0, out) == 0.0
  {
  }

  /**
   * Speed in thousands of pixels per second. The division by the elapsed
   * time is not guarded, so a zero elapsed time has no value (the division
   * raises); otherwise the speed times the time gives the pixel count.
   */
  function KilopixelsPerSecond(width: nat, height: nat, elapsed: real): (r: Option<real>)
    ensures r.None? <==> elapsed == 0.0
    ensures r.Some? ==> r.value * elapsed * 1000.0 == (width * height) as real
  {
    if elapsed == 0.0 then None else Some((width * height) as real / elapsed / 1000.0)
  }

  /** A 100 by 100 image traced in 2 seconds runs at 5 thousand pixels per second. */
  lemma KilopixelsPerSecondExample()
    ensures KilopixelsPerSecond(100, 100, 2.0) == Some(5.0)
    ensures forall w: nat, h: nat :: KilopixelsPerSecond(w, h, 0.0) == None
  {
  }
}
