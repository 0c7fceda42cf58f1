/**
 * The image processor: loading and saving through the image codec, the
 * three-stage pipeline (grayscale, Gaussian blur, Canny or Sobel edges) with
 * the guard that each stage runs first, kernel-size normalisation, and the
 * benchmark record the pipeline fills in place.
 */
module ImageProcessor {
  import opened Wrappers
  import opened OpenCv

  /** The edge detector run by the third stage. */
  datatype EdgeMethod = Canny | Sobel

  /**
   * What the processor throws: one kind per `std::runtime_error` message it
   * raises itself ("Failed to load image: <path>", "Cannot save an empty
   * image: <path>", "Failed to save image: <path>", "Input image is empty.",
   * "Grayscale image is empty.", "Blurred image is empty.", "Invalid Canny
   * thresholds."), and `LibraryRaised` for a `cv::Exception` escaping a
   * library call.
   */
  datatype Error =
    | LoadFailed(path: string)
    | SaveEmpty(path: string)
    | SaveFailed(path: string)
    | InputEmpty
    | GrayscaleEmpty
    | BlurredEmpty
    | InvalidCannyThresholds
    | LibraryRaised

  /** A library call's output, with a raised `cv::Exception` as `LibraryRaised`. */
  function FromCall(c: Option<Mat>): (r: Result<Mat, Error>)
    ensures r.Failure? <==> c.None?
    ensures r.Failure? ==> r.error == LibraryRaised
    ensures r.Success? ==> c == Some(r.value)
  {
    match c
    case Some(m) => Success(m)
    case None => Failure(LibraryRaised)
  }

  // ---------------------------------------------------------------------
  // Kernel-size normalisation
  // ---------------------------------------------------------------------

  /** The kernel sizes the blur and Sobel calls may receive: odd and at least 3. */
  predicate IsNormalisedKernel(k: int) {
    3 <= k && k % 2 == 1
  }

  /**
   * Forces a kernel-size hint to an odd value of at least 3. The result is
   * the least odd number that is at least both 3 and `k`, and it is again a
   * 32-bit `int`: the largest `int` is odd, so the increment never overflows.
   */
  function MakeOddAndMin3(k: Int32): (r: Int32)
    ensures IsNormalisedKernel(r)
    ensures k <= r
    ensures r - 2 < 3 || r - 2 < k
  {
    var atLeast3 := if k < 3 then 3 else k;
    if atLeast3 % 2 == 0 then atLeast3 + 1 else atLeast3
  }

  lemma MakeOddAndMin3Cases(k: Int32)
    ensures k < 3 ==> MakeOddAndMin3(k) == 3
    ensures k >= 3 && k % 2 == 1 ==> MakeOddAndMin3(k) == k
    ensures k >= 3 && k % 2 == 0 ==> MakeOddAndMin3(k) == k + 1
  {
  }

  lemma MakeOddAndMin3Idempotent(k: Int32)
    ensures MakeOddAndMin3(MakeOddAndMin3(k)) == MakeOddAndMin3(k)
  {
  }

  /** A hint that is already normalised passes through unchanged. */
  lemma MakeOddAndMin3KeepsNormalised(k: Int32)
    requires IsNormalisedKernel(k)
    ensures MakeOddAndMin3(k) == k
  {
  }

  /** No normalised kernel size at least `k` is smaller than the one chosen. */
  lemma MakeOddAndMin3IsLeast(k: Int32, m: int)
    requires IsNormalisedKernel(m) && k <= m
    ensures MakeOddAndMin3(k) <= m
  {
  }

  // ---------------------------------------------------------------------
  // Loading and saving
  // ---------------------------------------------------------------------

  /**
   * `loadImage`: decodes `path` as a colour image and refuses an empty result;
   * an exception raised by the decoder passes through.
   */
  function LoadImage(lib: Library, path: string): (r: Result<Mat, Error>)
    ensures lib.imread(path).None? ==> r == Failure(LibraryRaised)
    ensures r == Failure(LoadFailed(path)) <==> lib.imread(path).Some? && lib.imread(path).value.IsEmpty()
    ensures r.Success? <==> lib.imread(path).Some? && !lib.imread(path).value.IsEmpty()
    ensures r.Success? ==> lib.imread(path) == Some(r.value)
  {
    match lib.imread(path)
    case None => Failure(LibraryRaised)
    case Some(img) => if img.IsEmpty() then Failure(LoadFailed(path)) else Success(img)
  }

  /**
   * `saveImage`: refuses an empty image before any write is attempted, and
   * reports a write the encoder rejected as a different error.
   */
  function SaveImage(lib: Library, path: string, image: Mat): (r: Result<(), Error>)
    ensures !image.IsEmpty() ==> (r.Success? <==> lib.imwrite(path, image) == Some(true))
    ensures !image.IsEmpty() && lib.imwrite(path, image) == Some(false) ==> r == Failure(SaveFailed(path))
    ensures r != Failure(SaveEmpty(path)) <==> !image.IsEmpty()
  {
    if image.IsEmpty() then Failure(SaveEmpty(path))
    else
      match lib.imwrite(path, image)
      case None => Failure(LibraryRaised)
      case Some(written) => if written then Success(()) else Failure(SaveFailed(path))
  }

  // ---------------------------------------------------------------------
  // The three stages
  // ---------------------------------------------------------------------

  /** `toGrayscale`: a bare library call, with no guard of its own. */
  function ToGrayscale(lib: Library, inputBgr: Mat): (r: Result<Mat, Error>)
    ensures r.Failure? ==> r.error == LibraryRaised
    ensures r.Success? <==> lib.cvtColorBgrToGray(inputBgr).Some?
  {
    FromCall(lib.cvtColorBgrToGray(inputBgr))
  }

  /**
   * `gaussianBlur`: refuses an empty image before anything else, then blurs
   * with a square kernel of the normalised size and a spread the library
   * derives (sigma 0).
   */
  function GaussianBlur(lib: Library, gray: Mat, kernelSize: Int32): (r: Result<Mat, Error>)
    ensures r == Failure(GrayscaleEmpty) <==> gray.IsEmpty()
    ensures r.Failure? && !gray.IsEmpty() ==> r.error == LibraryRaised
    ensures !gray.IsEmpty()
            ==> r == FromCall(lib.gaussianBlur(gray, MakeOddAndMin3(kernelSize), MakeOddAndMin3(kernelSize), 0.0))
  {
    if gray.IsEmpty() then Failure(GrayscaleEmpty)
    else
      var k := MakeOddAndMin3(kernelSize);
      FromCall(lib.gaussianBlur(gray, k, k, 0.0))
  }

  /**
   * The thresholds `cannyEdges` accepts: both non-negative and low not above
   * high, which is exactly the complement of the guard it rejects with.
   */
  predicate CannyThresholdsValid(low: real, high: real)
    ensures CannyThresholdsValid(low, high) <==> !(low < 0.0 || high < 0.0 || high < low)
    ensures CannyThresholdsValid(low, high) ==> 0.0 <= high
  {
    0.0 <= low <= high
  }

  /**
   * `cannyEdges`: the emptiness check comes first, then the threshold check,
   * which rejects exactly the threshold pairs that are not valid (equal
   * thresholds are accepted).
   */
  function CannyEdges(lib: Library, blurred: Mat, low: real, high: real): (r: Result<Mat, Error>)
    ensures r == Failure(BlurredEmpty) <==> blurred.IsEmpty()
    ensures !blurred.IsEmpty() ==> (r == Failure(InvalidCannyThresholds) <==> !CannyThresholdsValid(low, high))
    ensures r.Success? ==> CannyThresholdsValid(low, high)
    ensures r.Failure? && !blurred.IsEmpty() && CannyThresholdsValid(low, high) ==> r.error == LibraryRaised
    ensures !blurred.IsEmpty() && CannyThresholdsValid(low, high) ==> r == FromCall(lib.canny(blurred, low, high))
  {
    if blurred.IsEmpty() then Failure(BlurredEmpty)
    else if low < 0.0 || high < 0.0 || high < low then Failure(InvalidCannyThresholds)
    else FromCall(lib.canny(blurred, low, high))
  }

  /**
   * `sobelEdges`: refuses an empty image first, then takes the horizontal and
   * vertical 16-bit gradients with the normalised kernel size, their absolute
   * values, and blends the two with equal weights 0.5 and offset 0.
   */
  function SobelEdges(lib: Library, blurred: Mat, ksize: Int32): (r: Result<Mat, Error>)
    ensures r == Failure(BlurredEmpty) <==> blurred.IsEmpty()
    ensures r.Failure? && !blurred.IsEmpty() ==> r.error == LibraryRaised
    ensures r.Success? ==> (lib.sobel16S(blurred, 1, 0, MakeOddAndMin3(ksize)).Some?
                            && lib.sobel16S(blurred, 0, 1, MakeOddAndMin3(ksize)).Some?)
    ensures !blurred.IsEmpty() && (lib.sobel16S(blurred, 1, 0, MakeOddAndMin3(ksize)).None?
                                   || lib.sobel16S(blurred, 0, 1, MakeOddAndMin3(ksize)).None?)
            ==> r == Failure(LibraryRaised)
  {
    if blurred.IsEmpty() then Failure(BlurredEmpty)
    else
      var k := MakeOddAndMin3(ksize);
      var gradX :- FromCall(lib.sobel16S(blurred, 1, 0, k));
      var gradY :- FromCall(lib.sobel16S(blurred, 0, 1, k));
      var absX :- FromCall(lib.convertScaleAbs(gradX));
      var absY :- FromCall(lib.convertScaleAbs(gradY));
      FromCall(lib.addWeighted(absX, 0.5, absY, 0.5, 0.0))
  }

  /**
   * When both gradients and both absolute values are computed, the Sobel
   * result is the equal-weight blend of the two absolute gradients.
   */
  lemma SobelEdgesBlendsGradients(lib: Library, blurred: Mat, ksize: Int32,
                                  gradX: Mat, gradY: Mat, absX: Mat, absY: Mat)
    requires !blurred.IsEmpty()
    requires lib.sobel16S(blurred, 1, 0, MakeOddAndMin3(ksize)) == Some(gradX)
    requires lib.sobel16S(blurred, 0, 1, MakeOddAndMin3(ksize)) == Some(gradY)
    requires lib.convertScaleAbs(gradX) == Some(absX)
    requires lib.convertScaleAbs(gradY) == Some(absY)
    ensures SobelEdges(lib, blurred, ksize) == FromCall(lib.addWeighted(absX, 0.5, absY, 0.5, 0.0))
  {
  }

  /**
   * Both Sobel calls receive the normalised kernel size: two libraries whose
   * gradients agree at that one size give the same Sobel result, whatever
   * they do at any other size.
   */
  lemma SobelUsesNormalisedKsize(a: Library, b: Library, blurred: Mat, ksize: Int32)
    requires a.convertScaleAbs == b.convertScaleAbs && a.addWeighted == b.addWeighted
    requires a.sobel16S(blurred, 1, 0, MakeOddAndMin3(ksize)) == b.sobel16S(blurred, 1, 0, MakeOddAndMin3(ksize))
    requires a.sobel16S(blurred, 0, 1, MakeOddAndMin3(ksize)) == b.sobel16S(blurred, 0, 1, MakeOddAndMin3(ksize))
    ensures SobelEdges(a, blurred, ksize) == SobelEdges(b, blurred, ksize)
  {
  }

  // ---------------------------------------------------------------------
  // The pipeline
  // ---------------------------------------------------------------------

  /** The pipeline up to and including the grayscale stage. */
  function GrayscaleStage(lib: Library, inputBgr: Mat): (r: Result<Mat, Error>)
    ensures r == Failure(InputEmpty) <==> inputBgr.IsEmpty()
  {
    if inputBgr.IsEmpty() then Failure(InputEmpty) else ToGrayscale(lib, inputBgr)
  }

  /** The pipeline up to and including the blur stage. */
  function BlurStage(lib: Library, inputBgr: Mat, gaussianKernelSize: Int32): (r: Result<Mat, Error>)
    ensures r == Failure(InputEmpty) <==> inputBgr.IsEmpty()
    ensures r.Success? ==> GrayscaleStage(lib, inputBgr).Success?
  {
    var gray :- GrayscaleStage(lib, inputBgr);
    GaussianBlur(lib, gray, gaussianKernelSize)
  }

  /**
   * The edge image `processWithBenchmark` returns, or the error it throws.
   * An empty input fails with `InputEmpty` whatever the other arguments are;
   * only the Canny method can fail on its thresholds, and it succeeds only
   * with valid ones.
   */
  function Process(lib: Library, inputBgr: Mat, edgeMethod: EdgeMethod, gaussianKernelSize: Int32,
                   cannyLow: real, cannyHigh: real, sobelKsize: Int32): (r: Result<Mat, Error>)
    ensures r == Failure(InputEmpty) <==> inputBgr.IsEmpty()
    ensures r == Failure(InvalidCannyThresholds) ==> edgeMethod == Canny && !CannyThresholdsValid(cannyLow, cannyHigh)
    ensures edgeMethod == Canny && r.Success? ==> CannyThresholdsValid(cannyLow, cannyHigh)
    ensures r.Success? ==> BlurStage(lib, inputBgr, gaussianKernelSize).Success?
  {
    var blurred :- BlurStage(lib, inputBgr, gaussianKernelSize);
    if edgeMethod == Canny then CannyEdges(lib, blurred, cannyLow, cannyHigh)
    else SobelEdges(lib, blurred, sobelKsize)
  }

  /**
   * The pipeline composes its stages: once grayscale produced a non-empty
   * image and the blur at the normalised kernel size returned, the result is
   * the selected edge stage's on the blurred image, so an empty blurred image
   * fails with `BlurredEmpty`.
   */
  lemma ProcessComposesStages(lib: Library, inputBgr: Mat, edgeMethod: EdgeMethod, gaussianKernelSize: Int32,
                              cannyLow: real, cannyHigh: real, sobelKsize: Int32, gray: Mat, blurred: Mat)
    requires !inputBgr.IsEmpty()
    requires lib.cvtColorBgrToGray(inputBgr) == Some(gray) && !gray.IsEmpty()
    requires lib.gaussianBlur(gray, MakeOddAndMin3(gaussianKernelSize), MakeOddAndMin3(gaussianKernelSize), 0.0)
             == Some(blurred)
    ensures Process(lib, inputBgr, edgeMethod, gaussianKernelSize, cannyLow, cannyHigh, sobelKsize)
         == if edgeMethod == Canny then CannyEdges(lib, blurred, cannyLow, cannyHigh)
            else SobelEdges(lib, blurred, sobelKsize)
    ensures blurred.IsEmpty() ==>
              Process(lib, inputBgr, edgeMethod, gaussianKernelSize, cannyLow, cannyHigh, sobelKsize)
              == Failure(BlurredEmpty)
  {
  }

  /**
   * A grayscale conversion that returns an empty image stops the pipeline at
   * the blur stage's guard, whatever the method and parameters.
   */
  lemma EmptyGrayscaleFailsPipeline(lib: Library, inputBgr: Mat, edgeMethod: EdgeMethod, gaussianKernelSize: Int32,
                                    cannyLow: real, cannyHigh: real, sobelKsize: Int32)
    requires !inputBgr.IsEmpty()
    requires lib.cvtColorBgrToGray(inputBgr).Some? && lib.cvtColorBgrToGray(inputBgr).value.IsEmpty()
    ensures Process(lib, inputBgr, edgeMethod, gaussianKernelSize, cannyLow, cannyHigh, sobelKsize)
         == Failure(GrayscaleEmpty)
  {
  }

  /**
   * Two libraries that differ only where the pipeline never calls them:
   * blur and Sobel at a kernel size that is not odd and at least 3, and
   * Canny at thresholds that are not valid.
   */
  ghost predicate AgreeOnAdmissibleCalls(a: Library, b: Library) {
    && a.cvtColorBgrToGray == b.cvtColorBgrToGray
    && a.convertScaleAbs == b.convertScaleAbs
    && a.addWeighted == b.addWeighted
    && (forall m: Mat, w: Int32, h: Int32, sigma: real
          | IsNormalisedKernel(w) && IsNormalisedKernel(h)
          :: a.gaussianBlur(m, w, h, sigma) == b.gaussianBlur(m, w, h, sigma))
    && (forall m: Mat, dx: Int32, dy: Int32, k: Int32
          | IsNormalisedKernel(k)
          :: a.sobel16S(m, dx, dy, k) == b.sobel16S(m, dx, dy, k))
    && (forall m: Mat, low: real, high: real
          | CannyThresholdsValid(low, high)
          :: a.canny(m, low, high) == b.canny(m, low, high))
  }

  /**
   * Kernel sizes are normalised, and Canny thresholds validated, before they
   * reach the library: what the library does with any other argument cannot
   * change the pipeline's result.
   */
  lemma OnlyAdmissibleArgumentsReachLibrary(a: Library, b: Library, inputBgr: Mat, edgeMethod: EdgeMethod,
                                            gaussianKernelSize: Int32, cannyLow: real, cannyHigh: real,
                                            sobelKsize: Int32)
    requires AgreeOnAdmissibleCalls(a, b)
    ensures Process(a, inputBgr, edgeMethod, gaussianKernelSize, cannyLow, cannyHigh, sobelKsize)
         == Process(b, inputBgr, edgeMethod, gaussianKernelSize, cannyLow, cannyHigh, sobelKsize)
  {
    if !inputBgr.IsEmpty() {
      var bk := MakeOddAndMin3(gaussianKernelSize);
      var sk := MakeOddAndMin3(sobelKsize);
      assert GrayscaleStage(a, inputBgr) == GrayscaleStage(b, inputBgr);
      var gray := GrayscaleStage(a, inputBgr);
      if gray.Success? && !gray.value.IsEmpty() {
        assert a.gaussianBlur(gray.value, bk, bk, 0.0) == b.gaussianBlur(gray.value, bk, bk, 0.0);
      }
      assert BlurStage(a, inputBgr, gaussianKernelSize) == BlurStage(b, inputBgr, gaussianKernelSize);
      var blurred := BlurStage(a, inputBgr, gaussianKernelSize);
      if blurred.Success? && !blurred.value.IsEmpty() {
        var bl := blurred.value;
        assert a.sobel16S(bl, 1, 0, sk) == b.sobel16S(bl, 1, 0, sk);
        assert a.sobel16S(bl, 0, 1, sk) == b.sobel16S(bl, 0, 1, sk);
        if CannyThresholdsValid(cannyLow, cannyHigh) {
          assert a.canny(bl, cannyLow, cannyHigh) == b.canny(bl, cannyLow, cannyHigh);
        }
      }
    }
  }

  /** Two kernel-size hints with the same normalisation give the same result. */
  lemma KernelHintsWithSameNormalisation(lib: Library, inputBgr: Mat, edgeMethod: EdgeMethod,
                                         blur1: Int32, blur2: Int32, cannyLow: real, cannyHigh: real,
                                         sobel1: Int32, sobel2: Int32)
    requires MakeOddAndMin3(blur1) == MakeOddAndMin3(blur2)
    requires MakeOddAndMin3(sobel1) == MakeOddAndMin3(sobel2)
    ensures Process(lib, inputBgr, edgeMethod, blur1, cannyLow, cannyHigh, sobel1)
         == Process(lib, inputBgr, edgeMethod, blur2, cannyLow, cannyHigh, sobel2)
  {
  }

  /** The Sobel method never looks at the Canny thresholds, valid or not. */
  lemma SobelIgnoresCannyThresholds(lib: Library, inputBgr: Mat, gaussianKernelSize: Int32,
                                    low1: real, high1: real, low2: real, high2: real, sobelKsize: Int32)
    ensures Process(lib, inputBgr, Sobel, gaussianKernelSize, low1, high1, sobelKsize)
         == Process(lib, inputBgr, Sobel, gaussianKernelSize, low2, high2, sobelKsize)
    ensures Process(lib, inputBgr, Sobel, gaussianKernelSize, low1, high1, sobelKsize) != Failure(InvalidCannyThresholds)
  {
  }

  /** The Canny method never looks at the Sobel kernel size. */
  lemma CannyIgnoresSobelKsize(lib: Library, inputBgr: Mat, gaussianKernelSize: Int32,
                               cannyLow: real, cannyHigh: real, sobel1: Int32, sobel2: Int32)
    ensures Process(lib, inputBgr, Canny, gaussianKernelSize, cannyLow, cannyHigh, sobel1)
         == Process(lib, inputBgr, Canny, gaussianKernelSize, cannyLow, cannyHigh, sobel2)
  {
  }

  /**
   * With Canny selected, invalid thresholds fail the run as soon as the image
   * reaches the edge stage non-empty, whatever the library computes.
   */
  lemma InvalidThresholdsFailCanny(lib: Library, inputBgr: Mat, gaussianKernelSize: Int32,
                                   cannyLow: real, cannyHigh: real, sobelKsize: Int32)
    requires !CannyThresholdsValid(cannyLow, cannyHigh)
    requires BlurStage(lib, inputBgr, gaussianKernelSize).Success?
    requires !BlurStage(lib, inputBgr, gaussianKernelSize).value.IsEmpty()
    ensures Process(lib, inputBgr, Canny, gaussianKernelSize, cannyLow, cannyHigh, sobelKsize)
         == Failure(InvalidCannyThresholds)
  {
  }

  // ---------------------------------------------------------------------
  // Benchmark record
  // ---------------------------------------------------------------------

  /** The four durations of one run, in milliseconds. */
  datatype Timings = Timings(grayscaleMs: real, blurMs: real, edgeMs: real, totalMs: real) {

    function Plus(other: Timings): Timings {
      Timings(grayscaleMs + other.grayscaleMs, blurMs + other.blurMs,
              edgeMs + other.edgeMs, totalMs + other.totalMs)
    }

    /** Each duration multiplied by `n`. */
    function Scaled(n: real): Timings {
      Timings(n * grayscaleMs, n * blurMs, n * edgeMs, n * totalMs)
    }

    function DividedBy(n: real): Timings
      requires n != 0.0
    {
      Timings(grayscaleMs / n, blurMs / n, edgeMs / n, totalMs / n)
    }
  }

  /** A value-initialised `BenchmarkResult`. */
  const NoTime: Timings := Timings(0.0, 0.0, 0.0, 0.0)

  /**
   * The clock readings (milliseconds) one pipeline run takes: around the
   * whole pipeline (t0, t1) and around each stage.
   */
  datatype Readings = Readings(t0: real, g0: real, g1: real, b0: real, b1: real,
                               e0: real, e1: real, t1: real)

  /** Readings taken in program order from a clock that never goes back. */
  predicate Monotone(c: Readings) {
    c.t0 <= c.g0 <= c.g1 <= c.b0 <= c.b1 <= c.e0 <= c.e1 <= c.t1
  }

  /** `msSince`: the time elapsed between two readings. */
  function MsSince(start: real, end: real): (r: real)
    ensures start + r == end
    ensures start <= end ==> 0.0 <= r
  {
    end - start
  }

  /** The durations a completed run records: each spans the readings around its stage. */
  function Measured(c: Readings): (m: Timings)
    ensures c.g0 + m.grayscaleMs == c.g1 && c.b0 + m.blurMs == c.b1
    ensures c.e0 + m.edgeMs == c.e1 && c.t0 + m.totalMs == c.t1
  {
    Timings(MsSince(c.g0, c.g1), MsSince(c.b0, c.b1), MsSince(c.e0, c.e1), MsSince(c.t0, c.t1))
  }

  /**
   * On a clock that never goes back every duration is non-negative and the
   * total brackets the three stages.
   */
  lemma MeasuredBracketsStages(c: Readings)
    requires Monotone(c)
    ensures var m := Measured(c);
      0.0 <= m.grayscaleMs && 0.0 <= m.blurMs && 0.0 <= m.edgeMs
      && m.grayscaleMs + m.blurMs + m.edgeMs <= m.totalMs
  {
  }

  /** `BenchmarkResult`, filled in place by `ProcessWithBenchmark`. */
  class BenchmarkResult {
    var grayscaleMs: real
    var blurMs: real
    var edgeMs: real
    var totalMs: real

    constructor ()
      ensures Value() == NoTime
    {
      grayscaleMs, blurMs, edgeMs, totalMs := 0.0, 0.0, 0.0, 0.0;
    }

    function Value(): Timings
      reads this
    {
      Timings(grayscaleMs, blurMs, edgeMs, totalMs)
    }
  }

  /**
   * `processWithBenchmark`: returns what `Process` specifies, and writes each
   * duration into `outBench` as soon as its stage completes, so a failing
   * stage leaves its own field and every later one as they were.
   */
  method ProcessWithBenchmark(lib: Library, inputBgr: Mat, outBench: BenchmarkResult, edgeMethod: EdgeMethod,
                              gaussianKernelSize: Int32, cannyLow: real, cannyHigh: real,
                              sobelKsize: Int32, clock: Readings)
    returns (r: Result<Mat, Error>)
    modifies outBench
    ensures r == Process(lib, inputBgr, edgeMethod, gaussianKernelSize, cannyLow, cannyHigh, sobelKsize)
    ensures r.Success? ==> outBench.Value() == Measured(clock)
    ensures outBench.grayscaleMs
         == if GrayscaleStage(lib, inputBgr).Success? then MsSince(clock.g0, clock.g1) else old(outBench.grayscaleMs)
    ensures outBench.blurMs
         == if BlurStage(lib, inputBgr, gaussianKernelSize).Success? then MsSince(clock.b0, clock.b1) else old(outBench.blurMs)
    ensures r.Failure? ==> outBench.edgeMs == old(outBench.edgeMs) && outBench.totalMs == old(outBench.totalMs)
  {
    if inputBgr.IsEmpty() {
      return Failure(InputEmpty);
    }

    var gray := ToGrayscale(lib, inputBgr);
    if gray.Failure? {
      return Failure(gray.error);
    }
    outBench.grayscaleMs := MsSince(clock.g0, clock.g1);

    var blurred := GaussianBlur(lib, gray.value, gaussianKernelSize);
    if blurred.Failure? {
      return Failure(blurred.error);
    }
    outBench.blurMs := MsSince(clock.b0, clock.b1);

    var edges;
    if edgeMethod == Canny {
      edges := CannyEdges(lib, blurred.value, cannyLow, cannyHigh);
    } else {
      edges := SobelEdges(lib, blurred.value, sobelKsize);
    }
    if edges.Failure? {
      return edges;
    }
    outBench.edgeMs := MsSince(clock.e0, clock.e1);
    outBench.totalMs := MsSince(clock.t0, clock.t1);
    return edges;
  }
}
