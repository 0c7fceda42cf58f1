# Edge-detection benchmark: a Dafny model

This project models a small command-line benchmarking tool built on OpenCV.
The tool loads a colour image and converts it to grayscale. It applies a
Gaussian blur and then finds edges with Canny or Sobel. It repeats this
`--repeat` times, averages the per-stage wall-clock timings, saves the last
edge image and reports the averages.

The pixel work is done by OpenCV and is not modelled. Every library call the
program makes is a field of `OpenCv.Library`, a total function that returns
its output or reports that it raised `cv::Exception`. The model and every
proof are parameterised by that record, so each property holds whatever the
library computes. The same goes for `std::stoi`/`std::stod` (`Cli.Parsers`)
and for the clock: `ImageProcessor.Readings` holds the eight clock readings of
one pipeline run, and `Run` takes one set of readings per iteration.

Files and modules:

- `wrappers.dfy` (`Wrappers`): `Option` and a failure-compatible `Result`.
- `opencv.dfy` (`OpenCv`): C++ `int` as `Int32`, `cv::Mat` as `Mat` (its
  dimensions, its channel count and opaque samples), and the `Library`
  record.
- `image_processor.dfy` (`ImageProcessor`): models `src/image_processor.cpp`
  and the types of `include/image_processor.h`. This covers kernel-size
  normalisation, `loadImage` and `saveImage`, and the three stages with
  their guards. It also holds `Process`, the function that specifies what
  `processWithBenchmark` returns. `ProcessWithBenchmark` is the imperative
  model: it writes the `BenchmarkResult` class in place.
- `main.dfy` (`Cli`): models `src/main.cpp`. `GetArgValue` is the scanning
  loop, specified by `ArgValue`. `ParseCommandLine` finds the paths and
  `ReadOptions` reassigns the option variables, specified by `Resolve` and
  `ParseOptions`. `RunRepeatedly` is the benchmark loop.
  `Run` is `main` as a whole, specified by `Outcome` and `ExitCode`. A
  ghost trace of effects records which keys were looked up, whether the
  input was read, and which image was handed to the image writer (an empty
  image never is: `saveImage` refuses it first).

## Model

| member | source | states |
|---|---|---|
| `ImageProcessor.MakeOddAndMin3` | src/image_processor.cpp:81-85 | the result is odd and at least 3, at least `k`, and the least such odd number; it is again a 32-bit `int`, so it never overflows |
| `ImageProcessor.MakeOddAndMin3Cases` | src/image_processor.cpp:81-85 | 3 when `k < 3`; `k` when `k >= 3` is odd; `k + 1` when `k >= 3` is even |
| `ImageProcessor.MakeOddAndMin3Idempotent` | src/image_processor.cpp:81-85 | normalising twice gives the same as normalising once |
| `ImageProcessor.MakeOddAndMin3KeepsNormalised` | src/image_processor.cpp:81-85 | an odd hint of at least 3 passes through unchanged |
| `ImageProcessor.MakeOddAndMin3IsLeast` | src/image_processor.cpp:81-85 | no odd kernel size of at least 3 that is also at least `k` is smaller than the result |
| `ImageProcessor.FromCall` | src/image_processor.cpp:77 | a library call fails exactly when it raised, and then with `LibraryRaised`; on success the result is the call's own output |
| `ImageProcessor.LoadImage` | src/image_processor.cpp:17-23 | a decoder exception passes through as `LibraryRaised`; fails with `LoadFailed(path)` exactly when the decoded image is empty; succeeds exactly when the decoded image is non-empty, and then returns it |
| `ImageProcessor.SaveImage` | src/image_processor.cpp:25-32 | an empty image fails with `SaveEmpty` whatever the writer would do, so no write is attempted; a non-empty image succeeds exactly when the write succeeds, and a rejected write gives `SaveFailed`, a different error |
| `ImageProcessor.ToGrayscale` | src/image_processor.cpp:75-79 | has no guard of its own: it fails only when the library call raises |
| `ImageProcessor.GaussianBlur` | src/image_processor.cpp:87-96 | fails with `GrayscaleEmpty` exactly when the input is empty, whatever the kernel hint or the library; otherwise the result is the library blur called with the square kernel `MakeOddAndMin3(kernelSize)` and sigma 0, so any other failure is the library's |
| `ImageProcessor.CannyEdges` | src/image_processor.cpp:98-109 | the emptiness check comes before the threshold check; a non-empty input is rejected with `InvalidCannyThresholds` exactly when `low < 0`, `high < 0` or `high < low` (equal thresholds are accepted); with a non-empty input and valid thresholds the result is the library Canny call on exactly those thresholds, so its only failure there is `LibraryRaised` |
| `ImageProcessor.SobelEdges` | src/image_processor.cpp:111-128 | fails with `BlurredEmpty` exactly when the input is empty, and any other failure is the library's; success needs both gradient calls at kernel size `MakeOddAndMin3(ksize)` to succeed, and either of them raising fails the stage |
| `ImageProcessor.SobelEdgesBlendsGradients` | src/image_processor.cpp:115-126 | once both gradients at the normalised size and both absolute values are computed, the result is their blend with weights 0.5 and 0.5 and offset 0 |
| `ImageProcessor.SobelUsesNormalisedKsize` | src/image_processor.cpp:115-119 | libraries whose gradients agree at `MakeOddAndMin3(ksize)` give the same Sobel result whatever they do at other sizes: both calls receive exactly the normalised size |
| `ImageProcessor.CannyThresholdsValid` | src/image_processor.cpp:102 | the accepted thresholds are exactly the complement of the guard that rejects when `low < 0`, `high < 0` or `high < low` |
| `ImageProcessor.GrayscaleStage` | src/image_processor.cpp:43-52 | the pipeline fails with `InputEmpty` exactly when its input is empty, before the grayscale call |
| `ImageProcessor.BlurStage` | src/image_processor.cpp:43-57 | `InputEmpty` exactly for an empty input; the blur stage succeeds only after the grayscale stage has |
| `ImageProcessor.Process` | src/image_processor.cpp:34-73 | an empty input fails with `InputEmpty` whatever the other arguments are; `InvalidCannyThresholds` arises only with Canny selected and invalid thresholds; Canny succeeds only with valid thresholds; success needs the blur stage to have succeeded |
| `ImageProcessor.ProcessComposesStages` | src/image_processor.cpp:43-65 | once grayscale produced a non-empty image and the blur at the normalised kernel size returned, the pipeline's result is the selected edge stage's on the blurred image; an empty blurred image therefore fails with `BlurredEmpty` |
| `ImageProcessor.EmptyGrayscaleFailsPipeline` | src/image_processor.cpp:49-55 | a grayscale conversion that returns an empty image fails the pipeline with `GrayscaleEmpty`, whatever the method and parameters |
| `ImageProcessor.OnlyAdmissibleArgumentsReachLibrary` | src/image_processor.cpp:91-94 | two libraries that differ only at kernel sizes that are not odd-and-at-least-3, or at invalid Canny thresholds, give the same pipeline result: kernel sizes are normalised, and thresholds checked, before use |
| `ImageProcessor.KernelHintsWithSameNormalisation` | src/image_processor.cpp:91 | blur and Sobel hints with the same normalisation (4 and 5, -7 and 3) give the same result |
| `ImageProcessor.SobelIgnoresCannyThresholds` | src/image_processor.cpp:61-65 | with Sobel selected the thresholds never matter and never cause `InvalidCannyThresholds` |
| `ImageProcessor.CannyIgnoresSobelKsize` | src/image_processor.cpp:61-65 | with Canny selected the Sobel kernel size never matters |
| `ImageProcessor.InvalidThresholdsFailCanny` | src/image_processor.cpp:102-104 | with Canny selected and invalid thresholds, a non-empty blurred image always ends in `InvalidCannyThresholds` |
| `ImageProcessor.MeasuredBracketsStages` | src/image_processor.cpp:47-70 | on a clock that never goes back, every recorded duration is non-negative and the total is at least the sum of the three stage durations |
| `ImageProcessor.MsSince` | src/image_processor.cpp:12-14 | the elapsed time added to the start reading gives the end reading, and it is non-negative when the end is not before the start |
| `ImageProcessor.Measured` | src/image_processor.cpp:47-70 | each recorded duration spans the two clock readings around its own stage, and the total spans the whole pipeline |
| `ImageProcessor.BenchmarkResult.constructor` | include/image_processor.h:6-11 | a new record has all four durations 0 |
| `ImageProcessor.ProcessWithBenchmark` | src/image_processor.cpp:34-73 | returns what `Process` specifies; on success the record holds the four measured durations; each stage's duration is written only once that stage has completed, so a failing stage leaves its own field and every later one unchanged |
| `Cli.FirstKeyIndex` | src/main.cpp:21-26 | the index found is the first one at or after `from` where `key` stands with a value after it; when there is none, no such index exists |
| `Cli.ArgValue` | src/main.cpp:20-28 | a value found is the argument right after some occurrence of the key that has a successor |
| `Cli.ArgValueIsFirstMatch` | src/main.cpp:20-28 | a key is found exactly when it stands somewhere with a value after it, and its value is the argument after its first such occurrence |
| `Cli.GetArgValue` | src/main.cpp:20-28 | returns true and the first match's value exactly when `ArgValue` finds one; otherwise returns false and leaves the out-parameter unchanged |
| `Cli.TrailingKeyNotFound` | src/main.cpp:21 | a key that appears only as the last argument is not found |
| `Cli.ValuesAreScannedAsKeys` | src/main.cpp:21-26 | values are scanned like keys: in `--output --input a.png` the output path is "--input" |
| `Cli.Resolve` | src/main.cpp:35-60 | resolution stops with usage exactly when `--input` or `--output` is not found; it ends with a conversion exception exactly when both paths are found and some present option's conversion throws; the resolved paths are the values found; `repeat` is at least 1; the method is Sobel exactly when `--method` is given as "sobel" |
| `Cli.IntArg` | src/main.cpp:43-45 | the default when the key is absent; fails with the text exactly when the key is present and `std::stoi` throws on its value; otherwise the conversion of that value |
| `Cli.RealArg` | src/main.cpp:47-50 | the same for `std::stod` |
| `Cli.SelectMethod` | src/main.cpp:60 | the method is Sobel exactly when the text is "sobel", Canny for any other text |
| `Cli.ParseOptions` | src/main.cpp:40-58 | fails exactly when some present option's conversion throws, and then with a conversion exception |
| `Cli.ConvertibleOptionsResolve` | src/main.cpp:35-60 | when both paths are found and every present option converts, resolution succeeds |
| `Cli.AbsentOptionsKeepDefaults` | src/main.cpp:40-58 | absent options keep method Canny, blur 5, Canny low 50, Canny high 150, Sobel kernel size 3, repeat 1 |
| `Cli.PresentOptionsAreConverted` | src/main.cpp:45-58 | present options take their converted values; `repeat` takes the larger of 1 and its conversion |
| `Cli.ConversionFailureIsRaised` | src/main.cpp:43-58 | an option, integer or floating-point, whose text fails to convert ends resolution with a conversion exception |
| `Cli.ReadIntOption` | src/main.cpp:43-45 | reading one integer option gives its default when absent, its conversion when present, and the conversion's exception when that throws |
| `Cli.ReadRealOption` | src/main.cpp:47-50 | the same for the floating-point Canny thresholds |
| `Cli.ReadOptions` | src/main.cpp:40-60 | computes `ParseOptions`, looking the options up in the order `main` reads them and stopping at the first conversion that throws |
| `Cli.ParseCommandLine` | src/main.cpp:32-60 | computes `Resolve`; it only looks keys up; when `--input` is missing, `--output` is never looked up |
| `Cli.Produce` | src/main.cpp:62-71 | the edge image exists only when the input loaded, and with Canny only for valid thresholds |
| `Cli.SumOfRuns` | src/main.cpp:65-77 | the accumulated timings start at zero, and after one run they are that run's durations |
| `Cli.Average` | src/main.cpp:79-83 | a single run reports its own durations as the average |
| `Cli.ExitCode` | src/main.cpp:37-97 | 0 exactly for a saved image, 1 exactly for usage, 2 exactly for a caught exception |
| `Cli.Outcome` | src/main.cpp:30-98 | usage exactly when a path is missing; a failed conversion ends the run with that exception; the image is saved exactly when the options resolve, the pipeline produces an image from the input file and saving it succeeds, and then it is that non-empty image under the output path |
| `Cli.SaveFailureExitsTwo` | src/main.cpp:85-97 | a save that fails after the pipeline succeeded ends the run with exit code 2 and the save's error |
| `Cli.CompletedRunExitsZero` | src/main.cpp:62-94 | a run that resolves, produces its image and saves it ends with exit code 0, having saved that image under the output path |
| `Cli.InvalidCannyThresholdsNeverExitZero` | src/main.cpp:60-71 | with Canny selected, invalid thresholds always end the run with exit code 2 |
| `Cli.SumOfEqualRuns` | src/main.cpp:68-77 | when every run measures the same durations, the accumulated sum is `n` times those durations |
| `Cli.AverageOfEqualRuns` | src/main.cpp:79-83 | when every run measures the same durations, their average is those durations |
| `Cli.SumOfMonotoneRuns` | src/main.cpp:68-77 | on a clock that never goes back, the accumulated durations are non-negative and the summed total brackets the summed stages |
| `Cli.AverageOfMonotoneRuns` | src/main.cpp:79-83 | on such a clock the averaged timings are non-negative and the averaged total is at least the sum of the averaged stages |
| `Cli.RunRepeatedly` | src/main.cpp:64-77 | returns the image one pipeline run produces, or its error; on success the accumulated `sum` is the sum of all `repeat` runs' measured durations |
| `Cli.Run` | src/main.cpp:30-98 | the exit code is that of `Outcome`: 1 exactly for a missing path, 2 exactly for a failed conversion, load, pipeline or save, and 0 exactly when the image was saved; a successful run reports the mean of the per-run durations; exit 1 happens without reading an image; a write is attempted only with the pipeline's non-empty image and the output path, and always when the pipeline produced a non-empty image |

## Left out

- The pixel operations (`cvtColor`, `GaussianBlur`, `Canny`, `Sobel`, `convertScaleAbs`, `addWeighted`, `imread`, `imwrite`) are OpenCV code. They are fields of `OpenCv.Library`, and nothing is assumed about what they compute. So "the edge image has the input's size and one channel" cannot be stated.
- `cv::Exception` raised inside a library call is modelled as `LibraryRaised`, without the library's message text. Such an exception happens, for example, for a Sobel kernel size OpenCV does not support.
- The library is treated as deterministic: every iteration of the repeat loop produces the same image from the same input. Because of this, "the image saved is the final iteration's" and "it is what one run produces" are the same statement.
- Timing is modelled only as given clock readings. `Clock::now` is not modelled. `msSince` is exact subtraction over `real`, and the averages use exact division over `real`, so double rounding is not modelled.
- `std::stoi`/`std::stod` text parsing is not modelled. They are parameters that return a value or fail, and the model does not tell `std::invalid_argument` from `std::out_of_range`.
- NaN and infinite thresholds are not modelled. `std::stod` accepts "nan" and "inf", but thresholds are `real`, so a NaN that slips past the comparison at src/image_processor.cpp:102, or an infinite high threshold that passes it, has no counterpart.
- Console output is not modelled: the usage text, the report lines and the `Error: ...` line on the error stream. The report's four averages are returned by `Run` as `avg`.
- `Run` takes the arguments after the program name. `argv[0]` is used only by the usage text.
