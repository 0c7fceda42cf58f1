/**
 * The command-line driver: option lookup, option resolution with defaults,
 * the benchmark loop that runs the pipeline `repeat` times and averages the
 * timings, saving the last edge image, and the exit code.
 */
module Cli {
  import opened Wrappers
  import opened OpenCv
  import opened ImageProcessor

  // ---------------------------------------------------------------------
  // Option lookup
  // ---------------------------------------------------------------------

  /** `key` stands at index `i` and has a value after it. */
  ghost predicate KeyAt(args: seq<string>, key: string, i: int) {
    0 <= i && i + 1 < |args| && args[i] == key
  }

  /** The first index at or after `from` where `key` stands with a value after it. */
  function FirstKeyIndex(args: seq<string>, key: string, from: nat): (r: Option<nat>)
    decreases |args| - from
    ensures r.Some? ==> from <= r.value && KeyAt(args, key, r.value)
    ensures r.Some? ==> forall j :: from <= j < r.value ==> args[j] != key
    ensures r.None? ==> forall i :: from <= i ==> !KeyAt(args, key, i)
  {
    if from + 1 >= |args| then None
    else if args[from] == key then Some(from)
    else FirstKeyIndex(args, key, from + 1)
  }

  /**
   * What `getArgValue` finds: the argument after the first occurrence of
   * `key` that has a successor. A key that appears only as the last argument
   * is not found.
   */
  function ArgValue(args: seq<string>, key: string): (r: Option<string>)
    ensures r.Some? ==> exists i :: KeyAt(args, key, i) && r.value == args[i + 1]
  {
    match FirstKeyIndex(args, key, 0)
    case Some(i) => Some(args[i + 1])
    case None => None
  }

  /**
   * `key` is found exactly when it stands somewhere with a value after it,
   * and then the value is the one after its first such occurrence.
   */
  lemma ArgValueIsFirstMatch(args: seq<string>, key: string)
    ensures ArgValue(args, key).Some? <==> exists i :: KeyAt(args, key, i)
    ensures forall i :: KeyAt(args, key, i) && (forall j :: 0 <= j < i ==> args[j] != key)
                        ==> ArgValue(args, key) == Some(args[i + 1])
  {
  }

  /**
   * `getArgValue`: scans for `key` and, on the first hit that has a
   * successor, returns true and that successor; otherwise returns false and
   * leaves the out-parameter (`current`) as it was.
   */
  method GetArgValue(args: seq<string>, key: string, current: string) returns (found: bool, value: string)
    ensures found <==> ArgValue(args, key).Some?
    ensures value == if found then ArgValue(args, key).value else current
  {
    ArgValueIsFirstMatch(args, key);
    var i := 0;
    while i + 1 < |args|
      invariant 0 <= i <= |args|
      invariant forall j :: 0 <= j < i ==> args[j] != key
    {
      if args[i] == key {
        assert KeyAt(args, key, i);
        return true, args[i + 1];
      }
      i := i + 1;
    }
    assert forall k :: !KeyAt(args, key, k);
    return false, current;
  }

  /** A key present only as the last argument has no value and is not found. */
  lemma TrailingKeyNotFound(args: seq<string>, key: string)
    requires |args| > 0 && args[|args| - 1] == key
    requires forall j :: 0 <= j < |args| - 1 ==> args[j] != key
    ensures ArgValue(args, key).None?
  {
  }

  /**
   * Values are scanned like keys: in `--output --input a.png` the output path
   * is "--input" and the input path is "a.png".
   */
  lemma ValuesAreScannedAsKeys()
    ensures ArgValue(["--output", "--input", "a.png"], "--output") == Some("--input")
    ensures ArgValue(["--output", "--input", "a.png"], "--input") == Some("a.png")
  {
    var args := ["--output", "--input", "a.png"];
    assert KeyAt(args, "--output", 0);
    assert KeyAt(args, "--input", 1);
  }

  // ---------------------------------------------------------------------
  // Option resolution
  // ---------------------------------------------------------------------

  /**
   * `std::stoi` and `std::stod`; `None` when the conversion throws
   * (`std::invalid_argument` or `std::out_of_range`).
   */
  datatype Parsers = Parsers(stoi: string -> Option<Int32>, stod: string -> Option<real>)

  /** An exception `main` catches. */
  datatype Exception =
    | ConversionFailed(text: string)
    | ProcessorError(error: Error)

  /** The pipeline parameters and paths `main` resolves from the command line. */
  datatype Options = Options(
    inputPath: string,
    outputPath: string,
    edgeMethod: EdgeMethod,
    blurK: Int32,
    cannyLow: real,
    cannyHigh: real,
    sobelKsize: Int32,
    repeat: Int32
  )

  /** The outcome of reading the command line. */
  datatype Resolution =
    | MissingPath
    | ResolveFailed(fault: Exception)
    | Resolved(options: Options)

  /** `key` has a value on the command line that `std::stoi` refuses. */
  predicate IntConversionFails(p: Parsers, args: seq<string>, key: string) {
    ArgValue(args, key).Some? && p.stoi(ArgValue(args, key).value).None?
  }

  /** `key` has a value on the command line that `std::stod` refuses. */
  predicate RealConversionFails(p: Parsers, args: seq<string>, key: string) {
    ArgValue(args, key).Some? && p.stod(ArgValue(args, key).value).None?
  }

  /** Some option `main` converts has a value its conversion refuses. */
  predicate SomeConversionFails(p: Parsers, args: seq<string>) {
    || IntConversionFails(p, args, "--blur")
    || RealConversionFails(p, args, "--canny-low")
    || RealConversionFails(p, args, "--canny-high")
    || IntConversionFails(p, args, "--sobel-ksize")
    || IntConversionFails(p, args, "--repeat")
  }

  /** An integer option: `default` unless present, then its `std::stoi` conversion. */
  function IntArg(p: Parsers, args: seq<string>, key: string, default: Int32): (r: Result<Int32, Exception>)
    ensures ArgValue(args, key).None? ==> r == Success(default)
    ensures r.Failure? <==> IntConversionFails(p, args, key)
    ensures r.Failure? ==> r.error == ConversionFailed(ArgValue(args, key).value)
    ensures r.Success? && ArgValue(args, key).Some? ==> p.stoi(ArgValue(args, key).value) == Some(r.value)
  {
    match ArgValue(args, key)
    case None => Success(default)
    case Some(text) =>
      match p.stoi(text)
      case None => Failure(ConversionFailed(text))
      case Some(v) => Success(v)
  }

  /** A floating-point option: `default` unless present, then its `std::stod` conversion. */
  function RealArg(p: Parsers, args: seq<string>, key: string, default: real): (r: Result<real, Exception>)
    ensures ArgValue(args, key).None? ==> r == Success(default)
    ensures r.Failure? <==> RealConversionFails(p, args, key)
    ensures r.Failure? ==> r.error == ConversionFailed(ArgValue(args, key).value)
    ensures r.Success? && ArgValue(args, key).Some? ==> p.stod(ArgValue(args, key).value) == Some(r.value)
  {
    match ArgValue(args, key)
    case None => Success(default)
    case Some(text) =>
      match p.stod(text)
      case None => Failure(ConversionFailed(text))
      case Some(v) => Success(v)
  }

  /** The method named by the `--method` text: Sobel for exactly "sobel", Canny otherwise. */
  function SelectMethod(methodText: string): (m: EdgeMethod)
    ensures m == Sobel <==> methodText == "sobel"
  {
    if methodText == "sobel" then Sobel else Canny
  }

  /**
   * The options after both paths were found: conversions run in command-line
   * order (blur, Canny low, Canny high, Sobel size, repeat) and the first
   * that throws ends resolution; `repeat` is raised to at least 1.
   */
  function ParseOptions(args: seq<string>, p: Parsers, inputPath: string, outputPath: string)
    : (r: Result<Options, Exception>)
    ensures r.Failure? <==> SomeConversionFails(p, args)
    ensures r.Failure? ==> r.error.ConversionFailed?
  {
    var methodText := ArgValue(args, "--method").GetOr("canny");
    var blurK :- IntArg(p, args, "--blur", 5);
    var cannyLow :- RealArg(p, args, "--canny-low", 50.0);
    var cannyHigh :- RealArg(p, args, "--canny-high", 150.0);
    var sobelKsize :- IntArg(p, args, "--sobel-ksize", 3);
    var repeat :- IntArg(p, args, "--repeat", 1);
    Success(Options(inputPath, outputPath, SelectMethod(methodText), blurK, cannyLow, cannyHigh,
                    sobelKsize, if repeat < 1 then 1 else repeat))
  }

  /**
   * What `main` makes of its arguments before loading anything. Exit 1 is
   * chosen exactly when a path is missing; a resolved `repeat` is at least
   * 1; the method is Sobel exactly when `--method` is given as "sobel".
   */
  function Resolve(args: seq<string>, p: Parsers): (r: Resolution)
    ensures r.MissingPath? <==> ArgValue(args, "--input").None? || ArgValue(args, "--output").None?
    ensures r.Resolved? ==> (Some(r.options.inputPath) == ArgValue(args, "--input")
                          && Some(r.options.outputPath) == ArgValue(args, "--output"))
    ensures r.Resolved? ==> r.options.repeat >= 1
    ensures r.Resolved? ==> (r.options.edgeMethod == Sobel <==> ArgValue(args, "--method") == Some("sobel"))
    ensures r.ResolveFailed? <==> (ArgValue(args, "--input").Some? && ArgValue(args, "--output").Some?
                                  && SomeConversionFails(p, args))
    ensures r.ResolveFailed? ==> r.fault.ConversionFailed?
  {
    match (ArgValue(args, "--input"), ArgValue(args, "--output"))
    case (Some(inputPath), Some(outputPath)) =>
      (match ParseOptions(args, p, inputPath, outputPath)
       case Success(options) => Resolved(options)
       case Failure(fault) => ResolveFailed(fault))
    case _ => MissingPath
  }

  /** Options absent from the command line keep their defaults. */
  lemma AbsentOptionsKeepDefaults(args: seq<string>, p: Parsers)
    requires Resolve(args, p).Resolved?
    ensures var o := Resolve(args, p).options;
      && (ArgValue(args, "--method").None? ==> o.edgeMethod == Canny)
      && (ArgValue(args, "--blur").None? ==> o.blurK == 5)
      && (ArgValue(args, "--canny-low").None? ==> o.cannyLow == 50.0)
      && (ArgValue(args, "--canny-high").None? ==> o.cannyHigh == 150.0)
      && (ArgValue(args, "--sobel-ksize").None? ==> o.sobelKsize == 3)
      && (ArgValue(args, "--repeat").None? ==> o.repeat == 1)
  {
  }

  /**
   * Options present on the command line take their converted values, and
   * `repeat` the larger of 1 and its conversion.
   */
  lemma PresentOptionsAreConverted(args: seq<string>, p: Parsers)
    requires Resolve(args, p).Resolved?
    ensures var o := Resolve(args, p).options;
      && (ArgValue(args, "--blur").Some? ==> p.stoi(ArgValue(args, "--blur").value) == Some(o.blurK))
      && (ArgValue(args, "--canny-low").Some? ==> p.stod(ArgValue(args, "--canny-low").value) == Some(o.cannyLow))
      && (ArgValue(args, "--canny-high").Some? ==> p.stod(ArgValue(args, "--canny-high").value) == Some(o.cannyHigh))
      && (ArgValue(args, "--sobel-ksize").Some? ==> p.stoi(ArgValue(args, "--sobel-ksize").value) == Some(o.sobelKsize))
      && (ArgValue(args, "--repeat").Some? ==>
            exists n: Int32 :: p.stoi(ArgValue(args, "--repeat").value) == Some(n) && o.repeat == if n < 1 then 1 else n)
  {
  }

  /**
   * A value present for an option that fails to convert ends resolution with
   * an exception, whether the option goes through `std::stoi` or `std::stod`.
   */
  lemma ConversionFailureIsRaised(args: seq<string>, p: Parsers, key: string)
    requires ArgValue(args, "--input").Some? && ArgValue(args, "--output").Some?
    requires || (key in ["--blur", "--sobel-ksize", "--repeat"] && IntConversionFails(p, args, key))
             || (key in ["--canny-low", "--canny-high"] && RealConversionFails(p, args, key))
    ensures Resolve(args, p).ResolveFailed?
    ensures Resolve(args, p).fault.ConversionFailed?
  {
  }

  /** When every present option converts, resolution succeeds once both paths are found. */
  lemma ConvertibleOptionsResolve(args: seq<string>, p: Parsers)
    requires ArgValue(args, "--input").Some? && ArgValue(args, "--output").Some?
    requires !SomeConversionFails(p, args)
    ensures Resolve(args, p).Resolved?
  {
  }

  // ---------------------------------------------------------------------
  // The run as a whole
  // ---------------------------------------------------------------------

  /** How `main` ends: usage (exit 1), an exception (exit 2), or the image saved (exit 0). */
  datatype Exit =
    | Usage
    | Failed(fault: Exception)
    | Saved(outputPath: string, edges: Mat)

  /** The status `main` returns: 1 for usage, 2 after a caught exception, 0 after saving. */
  function ExitCode(x: Exit): (code: int)
    ensures code == 0 <==> x.Saved?
    ensures code == 1 <==> x.Usage?
    ensures code == 2 <==> x.Failed?
  {
    match x
    case Usage => 1
    case Failed(_) => 2
    case Saved(_, _) => 0
  }

  /** The edge image a run with resolved options produces from its input file. */
  function Produce(lib: Library, o: Options): (r: Result<Mat, Error>)
    ensures r.Success? ==> LoadImage(lib, o.inputPath).Success?
    ensures r.Success? && o.edgeMethod == Canny ==> CannyThresholdsValid(o.cannyLow, o.cannyHigh)
  {
    var input :- LoadImage(lib, o.inputPath);
    Process(lib, input, o.edgeMethod, o.blurK, o.cannyLow, o.cannyHigh, o.sobelKsize)
  }

  /**
   * How `main` ends for given arguments, conversions and library. It exits
   * with usage exactly when a path is missing, and it saves only a non-empty
   * image the pipeline produced, under the output path.
   */
  function Outcome(args: seq<string>, p: Parsers, lib: Library): (x: Exit)
    ensures x.Usage? <==> Resolve(args, p).MissingPath?
    ensures x.Saved? ==> (Resolve(args, p).Resolved?
                       && x.outputPath == Resolve(args, p).options.outputPath
                       && Produce(lib, Resolve(args, p).options) == Success(x.edges)
                       && !x.edges.IsEmpty())
    ensures x.Saved? <==> (Resolve(args, p).Resolved?
                          && Produce(lib, Resolve(args, p).options).Success?
                          && SaveImage(lib, Resolve(args, p).options.outputPath,
                                       Produce(lib, Resolve(args, p).options).value).Success?)
    ensures Resolve(args, p).ResolveFailed? ==> x == Failed(Resolve(args, p).fault)
  {
    match Resolve(args, p)
    case MissingPath => Usage
    case ResolveFailed(fault) => Failed(fault)
    case Resolved(o) =>
      match Produce(lib, o)
      case Failure(e) => Failed(ProcessorError(e))
      case Success(edges) =>
        match SaveImage(lib, o.outputPath, edges)
        case Failure(e) => Failed(ProcessorError(e))
        case Success(_) => Saved(o.outputPath, edges)
  }

  /**
   * A run whose save fails ends with exit code 2 and the save's error, even
   * though the pipeline produced its image.
   */
  lemma SaveFailureExitsTwo(args: seq<string>, p: Parsers, lib: Library)
    requires Resolve(args, p).Resolved?
    requires Produce(lib, Resolve(args, p).options).Success?
    requires SaveImage(lib, Resolve(args, p).options.outputPath, Produce(lib, Resolve(args, p).options).value).Failure?
    ensures ExitCode(Outcome(args, p, lib)) == 2
    ensures Outcome(args, p, lib).fault
         == ProcessorError(SaveImage(lib, Resolve(args, p).options.outputPath,
                                     Produce(lib, Resolve(args, p).options).value).error)
  {
  }

  /** A run that resolves, produces its image and saves it ends with exit code 0. */
  lemma CompletedRunExitsZero(args: seq<string>, p: Parsers, lib: Library)
    requires Resolve(args, p).Resolved?
    requires Produce(lib, Resolve(args, p).options).Success?
    requires SaveImage(lib, Resolve(args, p).options.outputPath, Produce(lib, Resolve(args, p).options).value).Success?
    ensures ExitCode(Outcome(args, p, lib)) == 0
    ensures Outcome(args, p, lib)
         == Saved(Resolve(args, p).options.outputPath, Produce(lib, Resolve(args, p).options).value)
  {
  }

  /** With Canny selected, invalid thresholds never let a run succeed. */
  lemma InvalidCannyThresholdsNeverExitZero(args: seq<string>, p: Parsers, lib: Library)
    requires Resolve(args, p).Resolved?
    requires Resolve(args, p).options.edgeMethod == Canny
    requires !CannyThresholdsValid(Resolve(args, p).options.cannyLow, Resolve(args, p).options.cannyHigh)
    ensures ExitCode(Outcome(args, p, lib)) == 2
  {
  }

  // ---------------------------------------------------------------------
  // Averaging
  // ---------------------------------------------------------------------

  /** The timings of the first `n` runs added up, run by run, from zero. */
  function SumOfRuns(clock: nat -> Readings, n: nat): (s: Timings)
    ensures n == 0 ==> s == NoTime
    ensures n == 1 ==> s == Measured(clock(0))
  {
    if n == 0 then NoTime else SumOfRuns(clock, n - 1).Plus(Measured(clock(n - 1)))
  }

  /** The per-field mean of the first `n` runs' timings. */
  function Average(clock: nat -> Readings, n: int): (a: Timings)
    requires n >= 1
    ensures n == 1 ==> a == Measured(clock(0))
  {
    SumOfRuns(clock, n).DividedBy(n as real)
  }

  lemma {:induction false} SumOfEqualRuns(clock: nat -> Readings, n: nat, t: Timings)
    requires forall i: nat :: i < n ==> Measured(clock(i)) == t
    ensures SumOfRuns(clock, n) == t.Scaled(n as real)
  {
    if n > 0 {
      SumOfEqualRuns(clock, n - 1, t);
      assert Measured(clock(n - 1)) == t;
      ScaledStep(t, (n - 1) as real);
    }
  }

  /** Adding one more copy of `t` to `m` copies gives `m + 1` copies. */
  lemma ScaledStep(t: Timings, m: real)
    ensures t.Scaled(m).Plus(t) == t.Scaled(m + 1.0)
  {
    assert m * t.grayscaleMs + t.grayscaleMs == (m + 1.0) * t.grayscaleMs;
    assert m * t.blurMs + t.blurMs == (m + 1.0) * t.blurMs;
    assert m * t.edgeMs + t.edgeMs == (m + 1.0) * t.edgeMs;
    assert m * t.totalMs + t.totalMs == (m + 1.0) * t.totalMs;
  }

  /** When every run measured the same durations, their average is those durations. */
  lemma AverageOfEqualRuns(clock: nat -> Readings, n: int, t: Timings)
    requires n >= 1
    requires forall i: nat :: i < n ==> Measured(clock(i)) == t
    ensures Average(clock, n) == t
  {
    SumOfEqualRuns(clock, n, t);
    ScaledDividedBack(t, n as real);
  }

  /** Scaling by a positive factor and dividing by it again gives back the timings. */
  lemma ScaledDividedBack(t: Timings, r: real)
    requires r > 0.0
    ensures t.Scaled(r).DividedBy(r) == t
  {
    MultipleDividedBack(t.grayscaleMs, r);
    MultipleDividedBack(t.blurMs, r);
    MultipleDividedBack(t.edgeMs, r);
    MultipleDividedBack(t.totalMs, r);
  }

  lemma {:induction false} SumOfMonotoneRuns(clock: nat -> Readings, n: nat)
    requires forall i: nat :: i < n ==> Monotone(clock(i))
    ensures var s := SumOfRuns(clock, n);
      0.0 <= s.grayscaleMs && 0.0 <= s.blurMs && 0.0 <= s.edgeMs
      && s.grayscaleMs + s.blurMs + s.edgeMs <= s.totalMs
  {
    if n > 0 {
      SumOfMonotoneRuns(clock, n - 1);
      MeasuredBracketsStages(clock(n - 1));
    }
  }

  /**
   * On a clock that never goes back the averaged timings are non-negative and
   * the averaged total brackets the averaged stages.
   */
  lemma AverageOfMonotoneRuns(clock: nat -> Readings, n: int)
    requires n >= 1
    requires forall i: nat :: i < n ==> Monotone(clock(i))
    ensures var a := Average(clock, n);
      0.0 <= a.grayscaleMs && 0.0 <= a.blurMs && 0.0 <= a.edgeMs
      && a.grayscaleMs + a.blurMs + a.edgeMs <= a.totalMs
  {
    SumOfMonotoneRuns(clock, n);
    var s := SumOfRuns(clock, n);
    var r := n as real;
    QuotientKeepsOrder(0.0, s.grayscaleMs, r);
    QuotientKeepsOrder(0.0, s.blurMs, r);
    QuotientKeepsOrder(0.0, s.edgeMs, r);
    QuotientKeepsOrder(s.grayscaleMs + s.blurMs + s.edgeMs, s.totalMs, r);
    QuotientOfSum(s.grayscaleMs, s.blurMs, s.edgeMs, r);
  }

  lemma MultipleDividedBack(x: real, r: real)
    requires r > 0.0
    ensures r * x / r == x
  {
  }

  lemma QuotientKeepsOrder(a: real, b: real, r: real)
    requires a <= b && r > 0.0
    ensures a / r <= b / r
  {
    assert b / r - a / r == (b - a) / r;
  }

  lemma QuotientOfSum(a: real, b: real, c: real, r: real)
    requires r > 0.0
    ensures (a + b + c) / r == a / r + b / r + c / r
  {
  }

  // ---------------------------------------------------------------------
  // main
  // ---------------------------------------------------------------------

  /** What `main` does that the model records: the options it looks up, the file it reads, the write it attempts. */
  datatype Effect =
    | LookedUp(key: string)
    | Loaded(path: string)
    | WriteAttempted(path: string, image: Mat)

  /**
   * The pattern `int v = default; std::string s; if (getArgValue(args, key, s))
   * v = std::stoi(s);` that `main` uses for each integer option.
   */
  method ReadIntOption(args: seq<string>, p: Parsers, key: string, default: Int32)
    returns (r: Result<Int32, Exception>)
    ensures r == IntArg(p, args, key, default)
  {
    var text := "";
    var found;
    found, text := GetArgValue(args, key, text);
    r := Success(default);
    if found {
      match p.stoi(text)
      case None => r := Failure(ConversionFailed(text));
      case Some(v) => r := Success(v);
    }
  }

  /** The same pattern with `std::stod`, for the Canny thresholds. */
  method ReadRealOption(args: seq<string>, p: Parsers, key: string, default: real)
    returns (r: Result<real, Exception>)
    ensures r == RealArg(p, args, key, default)
  {
    var text := "";
    var found;
    found, text := GetArgValue(args, key, text);
    r := Success(default);
    if found {
      match p.stod(text)
      case None => r := Failure(ConversionFailed(text));
      case Some(v) => r := Success(v);
    }
  }

  /**
   * Lines 40-60 of `main`, once both paths are known: reassigns each option
   * from its default as the command line says, in the order `main` reads
   * them, and
   * stops at the first conversion that throws. `keys` lists the options
   * looked up, in order.
   */
  method ReadOptions(args: seq<string>, p: Parsers, inputPath: string, outputPath: string)
    returns (r: Result<Options, Exception>, ghost keys: seq<string>)
    ensures r == ParseOptions(args, p, inputPath, outputPath)
    ensures keys <= ["--method", "--blur", "--canny-low", "--canny-high", "--sobel-ksize", "--repeat"]
    ensures r.Success? ==> |keys| == 6
  {
    var found: bool;
    var methodText := "canny";
    keys := ["--method"];
    found, methodText := GetArgValue(args, "--method", methodText);

    keys := keys + ["--blur"];
    var blurK := ReadIntOption(args, p, "--blur", 5);
    if blurK.Failure? {
      return Failure(blurK.error), keys;
    }
    keys := keys + ["--canny-low"];
    var cannyLow := ReadRealOption(args, p, "--canny-low", 50.0);
    if cannyLow.Failure? {
      return Failure(cannyLow.error), keys;
    }
    keys := keys + ["--canny-high"];
    var cannyHigh := ReadRealOption(args, p, "--canny-high", 150.0);
    if cannyHigh.Failure? {
      return Failure(cannyHigh.error), keys;
    }
    keys := keys + ["--sobel-ksize"];
    var sobelKsize := ReadIntOption(args, p, "--sobel-ksize", 3);
    if sobelKsize.Failure? {
      return Failure(sobelKsize.error), keys;
    }
    keys := keys + ["--repeat"];
    var repeat := ReadIntOption(args, p, "--repeat", 1);
    if repeat.Failure? {
      return Failure(repeat.error), keys;
    }
    var atLeastOnce: Int32 := if repeat.value < 1 then 1 else repeat.value;

    var edgeMethod := SelectMethod(methodText);
    r := Success(Options(inputPath, outputPath, edgeMethod, blurK.value, cannyLow.value, cannyHigh.value,
                         sobelKsize.value, atLeastOnce));
  }

  /**
   * Lines 32-60 of `main`: finds the two paths, then reads the options.
   * `effects` lists the keys looked up, in order: when `--input` is missing,
   * `--output` is never looked up.
   */
  method ParseCommandLine(args: seq<string>, p: Parsers) returns (res: Resolution, ghost effects: seq<Effect>)
    ensures res == Resolve(args, p)
    ensures forall e :: e in effects ==> e.LookedUp?
    ensures ArgValue(args, "--input").None? ==> effects == [LookedUp("--input")]
  {
    var found: bool;
    var inputPath, outputPath := "", "";
    effects := [LookedUp("--input")];
    found, inputPath := GetArgValue(args, "--input", inputPath);
    if !found {
      return MissingPath, effects;
    }
    effects := effects + [LookedUp("--output")];
    found, outputPath := GetArgValue(args, "--output", outputPath);
    if !found {
      return MissingPath, effects;
    }

    var options, keys := ReadOptions(args, p, inputPath, outputPath);
    effects := effects + seq(|keys|, i requires 0 <= i < |keys| => LookedUp(keys[i]));
    match options
    case Success(o) => res := Resolved(o);
    case Failure(fault) => res := ResolveFailed(fault);
  }

  /**
   * Lines 64-77 of `main`: runs the pipeline `o.repeat` times on the same
   * input, each run with a fresh `BenchmarkResult` that the pipeline fills
   * by reference, adding each run's timings into the local value `sum`. The
   * edges kept are the last run's; since the pipeline is deterministic they
   * are what one run produces, and a failure in any run is the failure of
   * the first.
   */
  method RunRepeatedly(lib: Library, input: Mat, o: Options, clock: nat -> Readings)
    returns (edges: Result<Mat, Error>, sum: Timings)
    requires o.repeat >= 1
    ensures edges == Process(lib, input, o.edgeMethod, o.blurK, o.cannyLow, o.cannyHigh, o.sobelKsize)
    ensures edges.Success? ==> sum == SumOfRuns(clock, o.repeat)
  {
    sum := NoTime;
    var last := EmptyMat;
    ghost var expected := Process(lib, input, o.edgeMethod, o.blurK, o.cannyLow, o.cannyHigh, o.sobelKsize);
    var i: Int32 := 0;
    while i < o.repeat
      invariant 0 <= i <= o.repeat
      invariant sum == SumOfRuns(clock, i)
      invariant i > 0 ==> expected == Success(last)
    {
      var bench := new BenchmarkResult();
      var r := ProcessWithBenchmark(lib, input, bench, o.edgeMethod, o.blurK, o.cannyLow, o.cannyHigh,
                                    o.sobelKsize, clock(i));
      if r.Failure? {
        return r, sum;
      }
      last := r.value;
      sum := sum.(grayscaleMs := sum.grayscaleMs + bench.grayscaleMs);
      sum := sum.(blurMs := sum.blurMs + bench.blurMs);
      sum := sum.(edgeMs := sum.edgeMs + bench.edgeMs);
      sum := sum.(totalMs := sum.totalMs + bench.totalMs);
      i := i + 1;
    }
    return Success(last), sum;
  }

  /**
   * `main`: resolves the options, loads the input, runs the pipeline
   * `repeat` times adding up each run's timings, saves the last run's edges
   * and returns the exit code. `avg` is the report of averaged timings.
   * Exit 1 happens without loading anything; a write is attempted only with
   * the non-empty image the pipeline produced, and a successful run reports the mean
   * of the per-run timings.
   */
  method Run(args: seq<string>, p: Parsers, lib: Library, clock: nat -> Readings)
    returns (exitCode: int, avg: Timings, ghost effects: seq<Effect>)
    ensures exitCode == ExitCode(Outcome(args, p, lib))
    ensures Outcome(args, p, lib).Saved? ==> avg == Average(clock, Resolve(args, p).options.repeat)
    ensures ArgValue(args, "--input").None? ==> effects == [LookedUp("--input")]
    ensures exitCode == 1 ==> forall e :: e in effects ==> e.LookedUp?
    ensures forall e :: e in effects && e.WriteAttempted? ==>
              Resolve(args, p).Resolved?
              && e.path == Resolve(args, p).options.outputPath
              && Produce(lib, Resolve(args, p).options) == Success(e.image)
              && !e.image.IsEmpty()
    ensures Resolve(args, p).Resolved? && Produce(lib, Resolve(args, p).options).Success?
            && !Produce(lib, Resolve(args, p).options).value.IsEmpty() ==>
              WriteAttempted(Resolve(args, p).options.outputPath, Produce(lib, Resolve(args, p).options).value) in effects
  {
    avg := NoTime;
    var res;
    res, effects := ParseCommandLine(args, p);
    if res.MissingPath? {
      return 1, avg, effects;
    }
    if res.ResolveFailed? {
      assert Outcome(args, p, lib) == Failed(res.fault);
      return 2, avg, effects;
    }
    var o := res.options;
    ghost var outcome := Outcome(args, p, lib);
    assert outcome == match Produce(lib, o)
                      case Failure(e) => Failed(ProcessorError(e))
                      case Success(edges) =>
                        (match SaveImage(lib, o.outputPath, edges)
                         case Failure(e) => Failed(ProcessorError(e))
                         case Success(_) => Saved(o.outputPath, edges));

    effects := effects + [Loaded(o.inputPath)];
    var loaded := LoadImage(lib, o.inputPath);
    if loaded.Failure? {
      assert Produce(lib, o).Failure?;
      return 2, avg, effects;
    }
    var input := loaded.value;
    assert Produce(lib, o) == Process(lib, input, o.edgeMethod, o.blurK, o.cannyLow, o.cannyHigh, o.sobelKsize);

    var edges, sum := RunRepeatedly(lib, input, o, clock);
    if edges.Failure? {
      return 2, avg, effects;
    }
    assert Produce(lib, o) == edges;

    var runs := o.repeat as real;
    avg := Timings(sum.grayscaleMs / runs, sum.blurMs / runs, sum.edgeMs / runs, sum.totalMs / runs);

    if !edges.value.IsEmpty() {
      effects := effects + [WriteAttempted(o.outputPath, edges.value)];
    }
    var saved := SaveImage(lib, o.outputPath, edges.value);
    if saved.Failure? {
      return 2, avg, effects;
    }
    return 0, avg, effects;
  }
}
