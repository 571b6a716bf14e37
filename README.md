# Vectorizer prediction core, modelled in Dafny

The vectorizer wraps the external `vtracer` tracing engine as a single
prediction operation. The operation takes a raster image and nine tuning
parameters. It runs the engine once on a temporary SVG path and returns that
path. It also reports how much smaller the output is than the input. This
project models the part of that operation that makes decisions:

- **Parameter domain** (`params.dfy`, module `Params`). The two choice
  parameters (`color_mode` in {color, binary}, `hierarchical` in {stacked,
  cutout}) and the six closed numeric intervals, with their defaults. A raw
  `Request` holds the choices as text. `Validate` is the gate that turns a
  `Request` into `TracingParameters` or refuses it, naming every parameter
  outside its domain.
- **Command line** (`command.dfy`, module `Command`; `decimal.dfy`, module
  `Decimal`). The 21-element argument vector: `vtracer` followed by ten
  flag/value pairs in a fixed order. Integers are written as Python's
  `str(int)` writes them. `ParseCommand` is a positional reader defined by
  this model, not the engine's own option parser. Its round trip shows that
  the builder loses, swaps or merges nothing.
- **Reported figures** (`metrics.dfy`, module `Metrics`). The compression
  ratio over exact rationals: `(1 - out/in) * 100`, or 0 for an empty
  input. The speed in thousands of pixels per second, which has no value
  when the elapsed time is zero, because that division is unguarded.
- **Engine outcome and the whole operation** (`vectorize.dfy`, module
  `Vectorize`). The engine is a function from argument vector to
  `Exit(code, stderr, outputFile)`. A non-zero status is an error carrying
  the status and the standard-error text. After status 0 the operation reads
  the output file's size and computes the figures. It fails when there is no
  output file, and when the elapsed time is zero. Otherwise it returns the
  output path. `Predict` chains validation, command building, the engine and
  the figures.

`wrappers.dfy` holds the `Option` and `Result` types.

Two things the code does not do:

- It does not check that the output file is non-empty. An empty output file
  still yields the output path.
- It does not guard the speed figure against a zero elapsed time. The
  division raises, and the operation fails after the engine has succeeded.

## Model

| member | source | states |
|---|---|---|
| `Params.ColorModeName` | predict.py:31-35 | the text of a colour mode is one of the declared choices |
| `Params.ParseColorMode` | predict.py:31-35 | a text is accepted exactly when it is one of the declared choices `color`, `binary`, and it reads back to the same text |
| `Params.HierarchicalName` | predict.py:36-40 | the text of a hierarchical mode is one of the declared choices |
| `Params.ParseHierarchical` | predict.py:36-40 | a text is accepted exactly when it is one of `stacked`, `cutout`, and it reads back to the same text |
| `Params.ChoiceNamesRoundTrip` | predict.py:31-40 | each choice's text reads back as that choice |
| `Params.ValidRequest` | predict.py:31-76 | a request is valid exactly when both choices are among their declared texts and filter_speckle is in [0,100], color_precision in [1,8], layer_difference in [0,100], corner_threshold in [0,180], segment_length in [3.5,50.0] and splice_threshold in [0,180], ends included |
| `Params.DefaultRequest` | predict.py:31-76 | the request made of the declared defaults (color, stacked, 4, 6, 16, 60, 10.0, 45) is valid |
| `Params.Violations` | predict.py:31-76 | a parameter is listed exactly when its value is outside its domain; the list is empty exactly when the request is valid |
| `Params.ToRequest` | predict.py:31-76 | validated parameters stand for a valid request exactly when they are within the numeric bounds, and their choice texts read back to the same choices |
| `Params.Validate` | predict.py:31-76 | succeeds exactly on valid requests, and then the parameters are in bounds and stand for that very request; otherwise it fails with a non-empty list naming exactly the out-of-domain parameters |
| `Params.ValidateToRequest` | predict.py:31-76 | validation inverts `ToRequest` on in-bounds parameters |
| `Params.DefaultsValid` | predict.py:31-76 | the declared defaults validate to the parameters (color, stacked, 4, 6, 16, 60, 10.0, 45) |
| `Params.SingleViolationNamed` | predict.py:31-76 | a request with a single out-of-domain parameter is refused naming exactly that parameter |
| `Params.BoundsAreClosed` | predict.py:41-76 | each numeric bound is accepted, and the integer one step outside is refused naming its parameter |
| `Params.OutsideValuesRefused` | predict.py:31-70 | any segment length outside [3.5, 50.0] and any choice outside its set is refused naming that parameter |
| `Decimal.NatToString` | predict.py:116-121 | the text of a natural number is non-empty, all digits, and begins with 0 only for zero |
| `Decimal.IntToString` | predict.py:116-121 | the text is non-empty and starts with '-' exactly for negative numbers |
| `Decimal.ParseInt` | predict.py:116-121 | an accepted text is non-empty and a negative result comes from a leading '-' |
| `Decimal.DigitsValueOfNatToString` | predict.py:116-121 | the digits of n denote n |
| `Decimal.ParseIntToString` | predict.py:116-121 | parsing the text of any integer gives that integer back |
| `Decimal.IntToStringInjective` | predict.py:116-121 | distinct integers have distinct texts |
| `Command.BuildCommand` | predict.py:110-122 | 21 elements, `vtracer` first, the ten flags at odd indices in their fixed order, the input and output paths verbatim as single elements at 2 and 4, and `segment_length` sent under `--length_threshold` (index 17) with its text at 18 |
| `Command.ParseCommand` | predict.py:110-122 | a command line the positional reader accepts has 21 elements, `vtracer` first, and the two paths at 2 and 4 |
| `Command.ParseBuildCommand` | predict.py:110-122 | the positional reader gives back exactly the paths and parameters a built command line came from, whatever the paths contain |
| `Command.IntegerValuesReadBack` | predict.py:116-121 | each of the five integer parameters follows its own flag and parses back to its value |
| `Command.ChoiceValuesReadBack` | predict.py:114-115 | the choices follow `--colormode` and `--hierarchical` as their declared texts and read back to the same choices |
| `Command.BuildCommandInjective` | predict.py:110-122 | different paths or parameters never give the same command line |
| `Metrics.CompressionRatio` | predict.py:160 | 0 for an empty input (no division); otherwise ratio times input size equals 100 times the bytes saved |
| `Metrics.CompressionRatioSign` | predict.py:160 | for a non-empty input the ratio is positive, zero or negative exactly when the output is smaller, equal or larger |
| `Metrics.CompressionRatioAtMost100` | predict.py:160 | the ratio never exceeds 100, and equals 100 exactly for a non-empty input and an empty output |
| `Metrics.CompressionRatioAntitone` | predict.py:160 | for a fixed input, a larger output never gives a larger ratio |
| `Metrics.CompressionRatioExamples` | predict.py:160 | 1000 to 500 gives 50, 1000 to 1500 gives -50, 10000 to 4000 gives 60, and an empty input gives 0 |
| `Metrics.KilopixelsPerSecond` | predict.py:173 | no value exactly when the elapsed time is zero (the unguarded division); otherwise speed times time times 1000 equals the pixel count |
| `Metrics.KilopixelsPerSecondExample` | predict.py:173 | 100 by 100 pixels in 2 seconds gives 5; a zero time gives no value for any image |
| `Vectorize.ExitFailure` | predict.py:143-155 | the operation goes on exactly when the exit status is 0; any other status is an error carrying that status and the standard-error text verbatim |
| `Vectorize.Measure` | predict.py:158-173 | the figures exist exactly when there is an output file and the elapsed time is not zero; a missing file is its own error, then a zero time; the figures are the output size, its compression ratio and the speed |
| `Vectorize.Predict` | predict.py:110-185 | refused by validation exactly when the request is invalid, naming exactly the bad parameters; a success returns the chosen output path |
| `Vectorize.ValidationPrecedesEngine` | predict.py:26-77 | an invalid request gives the same validation error whatever the engine and the measurements, so the engine is never consulted |
| `Vectorize.ValidRequestRunsEngine` | predict.py:143-185 | a valid request runs the engine on the built command line; success exactly on status 0 with an output file and a non-zero elapsed time, otherwise the engine's status and text, the missing output, or the zero time, in that order |
| `Vectorize.CommandReadsBackRequest` | predict.py:110-122 | the positional reader gives back the caller's paths and request unchanged from the command line the operation builds |
| `Vectorize.SpeckleTooLargeRefused` | predict.py:41-46 | `filter_speckle = 101` is refused naming that parameter, whatever the engine |
| `Vectorize.FailingEngineReported` | predict.py:152-155 | an engine exiting 1 with "invalid color mode" yields an error with that status and text and no output path |
| `Vectorize.SilentEngineWithoutOutputFails` | predict.py:143-159 | an engine exiting 0 without writing the output file makes the operation fail when the size is read |
| `Vectorize.SucceedingEngineReturnsPath` | predict.py:143-185 | 10000 bytes at 100 by 100 pixels, traced in 2 seconds into 4000 bytes, returns the output path, with a size change of 60 and a speed of 5 thousand pixels per second |

## Left out

- Command.BuildCommand: the text of `segment_length` comes from a caller-supplied `formatReal` standing for Python's `str(float)`. The shortest round-trip float formatting is not modelled. The round trip assumes a parser that undoes it at the value used.
- Params.Validate: the `cog` framework enforces the choices and bounds, and its code is not part of this model. The model reports every violated parameter in declaration order. The framework's error text and its coercion of input types are not modelled.
- Omitted parameters: the framework gives a parameter the caller leaves out its declared default. `Request` always carries all eight values, so this filling-in is not modelled. `DefaultRequest` is the request in which every parameter takes its default.
- The engine's own reading of its arguments: how `vtracer` parses its flags, including values that begin with '-', is not part of this model. `ParseCommand` is a positional reader, and `Predict`'s `engine` parameter is not tied to it.
- Floating point: `segment_length`, the compression ratio, the elapsed time and the speed are exact reals. Rounding of the Python float computation is not modelled.
- Image decoding and metadata (format, size, mode) through PIL: a foreign library. The image dimensions are inputs. A failure to open the image is not modelled.
- Console output: the panels, tables, the simulated progress bar, and the printing of the engine's standard error before re-raising. These are presentation only. The figures the results table prints are modelled as `Report`.
- Choosing the output path with `tempfile.mktemp`: filesystem I/O. The path is an input to `Predict`.
- Reading the input size with `os.path.getsize`: filesystem I/O. The size is an input, and a failure to read it is not modelled. The output size is what the engine run left, and its absence is the `OutputMissing` error.
- Running the engine process and the tracing algorithm: an external program. The engine is a function parameter. An engine binary that is missing raises before any exit status exists, and that case is not modelled.
- Reading the clock: the elapsed time is an input.
- The one-time setup announcement: presentation only.
