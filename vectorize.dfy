/**
 * The `predict` operation end to end, without its console output: validate
 * the request, build the command line, run the engine once with its exit
 * status checked, then read the output size and compute the reported
 * figures. The engine is a function from command line to how it ended, so
 * any engine, including a stub, can stand in for it; the sizes, image
 * dimensions and elapsed time the operation reads are inputs.
 */
module Vectorize {
  import opened Wrappers
  import opened Params
  import opened Command
  import opened Metrics

  /**
   * How an engine run ended: its exit status, its standard-error text, and
   * the size of the file it left at the output path, if any.
   */
  datatype EngineRun = Exit(code: int, stderr: string, outputFile: Option<nat>)

  /** What the operation reads besides the engine: input size, image dimensions, elapsed seconds. */
  datatype Measurements = Measurements(inputSize: nat, width: nat, height: nat, elapsed: real)

  /** The figures printed after a successful conversion. */
  datatype Report = Report(outputSize: nat, compressionRatio: real, kilopixelsPerSecond: real)

  /** The returned output path, with the figures printed alongside it. */
  datatype Vectorization = Vectorization(outputPath: string, shown: Report)

  datatype Failure =
    | ValidationError(fields: seq<Field>)
    | EngineError(code: int, stderr: string)
    | OutputMissing     // reading the size of an output file the engine did not write
    | ZeroElapsedTime   // dividing the pixel count by an elapsed time of zero

  /**
   * The engine is run with its exit status checked: any non-zero status is
   * an error carrying the status and the standard-error text verbatim; a
   * zero status lets the operation go on.
   */
  function ExitFailure(run: EngineRun): (f: Option<Failure>)
    ensures f.None? <==> run.code == 0
    ensures f.Some? ==> f.value.EngineError? && f.value.code == run.code && f.value.stderr == run.stderr
  {
    if run.code != 0 then Some(EngineError(run.code, run.stderr)) else None
  }

  /**
   * The figures computed after the engine succeeded. Reading the output
   * size fails when there is no output file; the speed fails when the
   * elapsed time is zero; an empty output file is not refused.
   */
  function Measure(m: Measurements, outputFile: Option<nat>): (r: Result<Report, Failure>)
    ensures r.Ok? <==> outputFile.Some? && m.elapsed != 0.0
    ensures outputFile.None? ==> r == Err(OutputMissing)
    ensures outputFile.Some? && m.elapsed == 0.0 ==> r == Err(ZeroElapsedTime)
    ensures r.Ok? ==> && r.value.outputSize == outputFile.value
                      && r.value.compressionRatio == CompressionRatio(m.inputSize, outputFile.value)
                      && KilopixelsPerSecond(m.width, m.height, m.elapsed) == Some(r.value.kilopixelsPerSecond)
  {
    match outputFile
    case None => Err(OutputMissing)
    case Some(size) =>
      match KilopixelsPerSecond(m.width, m.height, m.elapsed)
      case None => Err(ZeroElapsedTime)
      case Some(speed) => Ok(Report(size, CompressionRatio(m.inputSize, size), speed))
  }

  /** The whole operation, for an engine `engine` and a rendering `formatReal` of reals. */
  function Predict(req: Request, inputPath: string, outputPath: string,
                   formatReal: real -> string, engine: seq<string> -> EngineRun,
                   m: Measurements): (r: Result<Vectorization, Failure>)
    ensures (r.Err? && r.error.ValidationError?) <==> !ValidRequest(req)
    ensures r.Err? && r.error.ValidationError? ==>
      r.error.fields != [] && forall f :: f in r.error.fields <==> !FieldOk(req, f)
    ensures r.Ok? ==> r.value.outputPath == outputPath
  {
    match Validate(req)
    case Err(fields) => Err(ValidationError(fields))
    case Ok(p) =>
      var run := engine(BuildCommand(inputPath, outputPath, p, formatReal));
      match ExitFailure(run)
      case Some(failure) => Err(failure)
      case None =>
        match Measure(m, run.outputFile)
        case Err(failure) => Err(failure)
        case Ok(report) => Ok(Vectorization(outputPath, report))
  }

  /** An invalid request is refused before the engine runs: no engine and no measurement change the result. */
  lemma ValidationPrecedesEngine(req: Request, inputPath: string, outputPath: string,
                                 formatReal: real -> string,
                                 engine1: seq<string> -> EngineRun, engine2: seq<string> -> EngineRun,
                                 m1: Measurements, m2: Measurements)
    requires !ValidRequest(req)
    ensures Predict(req, inputPath, outputPath, formatReal, engine1, m1)
         == Predict(req, inputPath, outputPath, formatReal, engine2, m2)
         == Err(ValidationError(Violations(req)))
  {
  }

  /**
   * A valid request runs the engine exactly once, on the command line built
   * from the validated parameters. The output path is returned exactly when
   * the engine exits with status 0, leaves an output file, and the elapsed
   * time is not zero; each other case is its own error, checked in that
   * order.
   */
  lemma ValidRequestRunsEngine(req: Request, inputPath: string, outputPath: string,
                               formatReal: real -> string, engine: seq<string> -> EngineRun,
                               m: Measurements)
    requires ValidRequest(req)
    ensures var p := Validate(req).value;
      var run := engine(BuildCommand(inputPath, outputPath, p, formatReal));
      var r := Predict(req, inputPath, outputPath, formatReal, engine, m);
      && ToRequest(p) == req
      && (r.Ok? <==> run.code == 0 && run.outputFile.Some? && m.elapsed != 0.0)
      && (run.code != 0 ==> r == Err(EngineError(run.code, run.stderr)))
      && (run.code == 0 && run.outputFile.None? ==> r == Err(OutputMissing))
      && (run.code == 0 && run.outputFile.Some? && m.elapsed == 0.0 ==> r == Err(ZeroElapsedTime))
      && (r.Ok? ==> r.value.outputPath == outputPath
                    && r.value.shown.outputSize == run.outputFile.value
                    && r.value.shown.compressionRatio == CompressionRatio(m.inputSize, run.outputFile.value))
  {
  }

  /**
   * The positional reader gives back, from the command line the operation
   * builds, the caller's paths and request unchanged.
   */
  lemma CommandReadsBackRequest(req: Request, inputPath: string, outputPath: string,
                                formatReal: real -> string, parseReal: string -> Option<real>)
    requires ValidRequest(req)
    requires parseReal(formatReal(req.segmentLength)) == Some(req.segmentLength)
    ensures var argv := BuildCommand(inputPath, outputPath, Validate(req).value, formatReal);
      var inv := ParseCommand(argv, parseReal);
      && inv.Some? && inv.value.input == inputPath && inv.value.output == outputPath
      && ToRequest(inv.value.params) == req
  {
    var p := Validate(req).value;
    ParseBuildCommand(inputPath, outputPath, p, formatReal, parseReal);
  }

  /** A speckle filter of 101 is refused naming `filter_speckle`, whatever the engine would do. */
  lemma SpeckleTooLargeRefused(inputPath: string, outputPath: string, formatReal: real -> string,
                               engine: seq<string> -> EngineRun, m: Measurements)
    ensures Predict(DefaultRequest().(filterSpeckle := 101), inputPath, outputPath, formatReal, engine, m)
         == Err(ValidationError([FilterSpeckleField]))
  {
    BoundsAreClosed(DefaultRequest());
  }

  /** An engine failing with status 1 yields its diagnostic text and no output path. */
  lemma FailingEngineReported(inputPath: string, outputPath: string, formatReal: real -> string,
                              m: Measurements)
    ensures Predict(DefaultRequest(), inputPath, outputPath, formatReal,
                    _ => Exit(1, "invalid color mode", None), m)
         == Err(EngineError(1, "invalid color mode"))
  {
  }

  /** An engine that exits with status 0 but writes no file still fails, when its size is read. */
  lemma SilentEngineWithoutOutputFails(inputPath: string, outputPath: string, formatReal: real -> string,
                                       m: Measurements)
    ensures Predict(DefaultRequest(), inputPath, outputPath, formatReal, _ => Exit(0, "", None), m)
         == Err(OutputMissing)
  {
  }

  /**
   * A 100 by 100 image of 10000 bytes, traced in 2 seconds into a file of
   * 4000 bytes: the output path is returned, with a size change of 60 and
   * a speed of 5 thousand pixels per second.
   */
  lemma SucceedingEngineReturnsPath(inputPath: string, outputPath: string, formatReal: real -> string)
    ensures Predict(DefaultRequest(), inputPath, outputPath, formatReal,
                    _ => Exit(0, "", Some(4000)), Measurements(10000, 100, 100, 2.0))
         == Ok(Vectorization(outputPath, Report(4000, 60.0, 5.0)))
  {
  }
}
