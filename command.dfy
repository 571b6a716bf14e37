/**
 * The command line handed to the `vtracer` engine: the program name then ten
 * flag/value pairs, each a separate argument (the list is run without a
 * shell). `ParseCommand` is a positional reader of such a list, defined here
 * and not the engine's own option parser; its round trip shows that the
 * builder loses, swaps or merges nothing.
 */
module Command {
  import opened Wrappers
  import opened Decimal
  import opened Params

  const Program: string := "vtracer"

  /** The flags, in the order they are emitted; `segment_length` goes out as `--length_threshold`. */
  const Flags: seq<string> := [
    "--input", "--output", "--colormode", "--hierarchical", "--filter_speckle",
    "--color_precision", "--layer_difference", "--corner_threshold",
    "--length_threshold", "--splice_threshold"]

  /**
   * The argument vector for converting `input` into `output` with `p`.
   * `formatReal` stands for Python's `str(float)`, whose exact digits are
   * not modelled.
   */
  function BuildCommand(input: string, output: string, p: TracingParameters,
                        formatReal: real -> string): (argv: seq<string>)
    requires InBounds(p)
    ensures |argv| == 2 * |Flags| + 1 == 21 && argv[0] == Program
    ensures forall k :: 0 <= k < |Flags| ==> argv[2 * k + 1] == Flags[k]
    ensures argv[2] == input && argv[4] == output
    ensures argv[17] == "--length_threshold" && argv[18] == formatReal(p.segmentLength)
  {
    [ Program,
      "--input", input,
      "--output", output,
      "--colormode", ColorModeName(p.colorMode),
      "--hierarchical", HierarchicalName(p.hierarchical),
      "--filter_speckle", IntToString(p.filterSpeckle),
      "--color_precision", IntToString(p.colorPrecision),
      "--layer_difference", IntToString(p.layerDifference),
      "--corner_threshold", IntToString(p.cornerThreshold),
      "--length_threshold", formatReal(p.segmentLength),
      "--splice_threshold", IntToString(p.spliceThreshold) ]
  }

  /** What a command line says: where to read, where to write, and how. */
  datatype Invocation = Invocation(input: string, output: string, params: TracingParameters)

  predicate FlagsInPlace(argv: seq<string>)
    requires |argv| == 2 * |Flags| + 1
  {
    forall k :: 0 <= k < |Flags| ==> argv[2 * k + 1] == Flags[k]
  }

  /**
   * Reads a command line by position: the program name, each flag at its
   * odd index, each value right after its flag. `parseReal` reads the
   * segment length.
   */
  function ParseCommand(argv: seq<string>, parseReal: string -> Option<real>): (r: Option<Invocation>)
    ensures r.Some? ==> |argv| == 21 && argv[0] == Program
    ensures r.Some? ==> argv[2] == r.value.input && argv[4] == r.value.output
  {
    if |argv| != 2 * |Flags| + 1 || argv[0] != Program || !FlagsInPlace(argv) then None
    else
      match (ParseColorMode(argv[6]), ParseHierarchical(argv[8]), ParseInt(argv[10]),
             ParseInt(argv[12]), ParseInt(argv[14]), ParseInt(argv[16]),
             parseReal(argv[18]), ParseInt(argv[20]))
      case (Some(cm), Some(h), Some(fs), Some(cp), Some(ld), Some(ct), Some(sl), Some(st)) =>
        Some(Invocation(argv[2], argv[4], TracingParameters(cm, h, fs, cp, ld, ct, sl, st)))
      case _ => None
  }

  /**
   * Round trip: whatever the two paths contain (spaces, flag-like text), the
   * positional reader gives back exactly the paths and parameters the command was
   * built from, provided `parseReal` undoes `formatReal` at the segment
   * length.
   */
  lemma ParseBuildCommand(input: string, output: string, p: TracingParameters,
                          formatReal: real -> string, parseReal: string -> Option<real>)
    requires InBounds(p)
    requires parseReal(formatReal(p.segmentLength)) == Some(p.segmentLength)
    ensures ParseCommand(BuildCommand(input, output, p, formatReal), parseReal)
         == Some(Invocation(input, output, p))
  {
    var argv := BuildCommand(input, output, p, formatReal);
    ChoiceNamesRoundTrip(p.colorMode, p.hierarchical);
    ParseIntToString(p.filterSpeckle);
    ParseIntToString(p.colorPrecision);
    ParseIntToString(p.layerDifference);
    ParseIntToString(p.cornerThreshold);
    ParseIntToString(p.spliceThreshold);
  }

  /** Every integer parameter is emitted as its decimal text, right after its own flag. */
  lemma IntegerValuesReadBack(input: string, output: string, p: TracingParameters,
                              formatReal: real -> string)
    requires InBounds(p)
    ensures var argv := BuildCommand(input, output, p, formatReal);
      && argv[9] == "--filter_speckle" && ParseInt(argv[10]) == Some(p.filterSpeckle)
      && argv[11] == "--color_precision" && ParseInt(argv[12]) == Some(p.colorPrecision)
      && argv[13] == "--layer_difference" && ParseInt(argv[14]) == Some(p.layerDifference)
      && argv[15] == "--corner_threshold" && ParseInt(argv[16]) == Some(p.cornerThreshold)
      && argv[19] == "--splice_threshold" && ParseInt(argv[20]) == Some(p.spliceThreshold)
  {
    ParseIntToString(p.filterSpeckle);
    ParseIntToString(p.colorPrecision);
    ParseIntToString(p.layerDifference);
    ParseIntToString(p.cornerThreshold);
    ParseIntToString(p.spliceThreshold);
  }

  /** The choices go out as their declared texts, after `--colormode` and `--hierarchical`. */
  lemma ChoiceValuesReadBack(input: string, output: string, p: TracingParameters,
                             formatReal: real -> string)
    requires InBounds(p)
    ensures var argv := BuildCommand(input, output, p, formatReal);
      && argv[5] == "--colormode" && argv[6] in ColorModeChoices
      && ParseColorMode(argv[6]) == Some(p.colorMode)
      && argv[7] == "--hierarchical" && argv[8] in HierarchicalChoices
      && ParseHierarchical(argv[8]) == Some(p.hierarchical)
  {
  }

  /** Different paths or parameters never produce the same command line. */
  lemma BuildCommandInjective(in1: string, out1: string, p1: TracingParameters,
                              in2: string, out2: string, p2: TracingParameters,
                              formatReal: real -> string, parseReal: string -> Option<real>)
    requires InBounds(p1) && InBounds(p2)
    requires parseReal(formatReal(p1.segmentLength)) == Some(p1.segmentLength)
    requires parseReal(formatReal(p2.segmentLength)) == Some(p2.segmentLength)
    requires BuildCommand(in1, out1, p1, formatReal) == BuildCommand(in2, out2, p2, formatReal)
    ensures in1 == in2 && out1 == out2 && p1 == p2
  {
    ParseBuildCommand(in1, out1, p1, formatReal, parseReal);
    ParseBuildCommand(in2, out2, p2, formatReal, parseReal);
  }
}
