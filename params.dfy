/**
 * The nine tuning inputs of the vectorizer's `predict` operation: the two
 * choice parameters, the six bounded numeric ones, their defaults, and the
 * validation gate that turns the raw inputs into the engine-facing
 * `TracingParameters`. Every violated parameter is reported.
 */
module Params {
  import opened Wrappers

  datatype ColorMode = Color | Binary

  datatype Hierarchical = Stacked | Cutout

  /** The allowed texts of `color_mode` and `hierarchical`, in declaration order. */
  const ColorModeChoices: seq<string> := ["color", "binary"]
  const HierarchicalChoices: seq<string> := ["stacked", "cutout"]

  function ColorModeName(m: ColorMode): (s: string)
    ensures s in ColorModeChoices
  {
    match m
    case Color => "color"
    case Binary => "binary"
  }

  function ParseColorMode(s: string): (r: Option<ColorMode>)
    ensures r.Some? <==> s in ColorModeChoices
    ensures r.Some? ==> ColorModeName(r.value) == s
  {
    if s == "color" then Some(Color)
    else if s == "binary" then Some(Binary)
    else None
  }

  function HierarchicalName(h: Hierarchical): (s: string)
    ensures s in HierarchicalChoices
  {
    match h
    case Stacked => "stacked"
    case Cutout => "cutout"
  }

  function ParseHierarchical(s: string): (r: Option<Hierarchical>)
    ensures r.Some? <==> s in HierarchicalChoices
    ensures r.Some? ==> HierarchicalName(r.value) == s
  {
    if s == "stacked" then Some(Stacked)
    else if s == "cutout" then Some(Cutout)
    else None
  }

  /** Each choice's text reads back as that choice. */
  lemma ChoiceNamesRoundTrip(m: ColorMode, h: Hierarchical)
    ensures ParseColorMode(ColorModeName(m)) == Some(m)
    ensures ParseHierarchical(HierarchicalName(h)) == Some(h)
  {
  }

  // Closed intervals of the numeric parameters; both ends are allowed.
  predicate FilterSpeckleOk(n: int) { 0 <= n <= 100 }
  predicate ColorPrecisionOk(n: int) { 1 <= n <= 8 }
  predicate LayerDifferenceOk(n: int) { 0 <= n <= 100 }
  predicate CornerThresholdOk(n: int) { 0 <= n <= 180 }
  predicate SegmentLengthOk(x: real) { 3.5 <= x <= 50.0 }
  predicate SpliceThresholdOk(n: int) { 0 <= n <= 180 }

  /** The inputs as the operation receives them: choices as text, numbers unchecked. */
  datatype Request = Request(
    colorMode: string,
    hierarchical: string,
    filterSpeckle: int,
    colorPrecision: int,
    layerDifference: int,
    cornerThreshold: int,
    segmentLength: real,
    spliceThreshold: int)

  /** The inputs after validation, choices as enumerations. */
  datatype TracingParameters = TracingParameters(
    colorMode: ColorMode,
    hierarchical: Hierarchical,
    filterSpeckle: int,
    colorPrecision: int,
    layerDifference: int,
    cornerThreshold: int,
    segmentLength: real,
    spliceThreshold: int)

  /** The parameters, named for validation errors. */
  datatype Field =
    | ColorModeField
    | HierarchicalField
    | FilterSpeckleField
    | ColorPrecisionField
    | LayerDifferenceField
    | CornerThresholdField
    | SegmentLengthField
    | SpliceThresholdField

  /** The name under which each parameter is declared. */
  function FieldName(f: Field): string {
    match f
    case ColorModeField => "color_mode"
    case HierarchicalField => "hierarchical"
    case FilterSpeckleField => "filter_speckle"
    case ColorPrecisionField => "color_precision"
    case LayerDifferenceField => "layer_difference"
    case CornerThresholdField => "corner_threshold"
    case SegmentLengthField => "segment_length"
    case SpliceThresholdField => "splice_threshold"
  }

  /** Whether the request's value for `f` lies in that parameter's domain. */
  predicate FieldOk(r: Request, f: Field) {
    match f
    case ColorModeField => r.colorMode in ColorModeChoices
    case HierarchicalField => r.hierarchical in HierarchicalChoices
    case FilterSpeckleField => FilterSpeckleOk(r.filterSpeckle)
    case ColorPrecisionField => ColorPrecisionOk(r.colorPrecision)
    case LayerDifferenceField => LayerDifferenceOk(r.layerDifference)
    case CornerThresholdField => CornerThresholdOk(r.cornerThreshold)
    case SegmentLengthField => SegmentLengthOk(r.segmentLength)
    case SpliceThresholdField => SpliceThresholdOk(r.spliceThreshold)
  }

  /**
   * A request is valid exactly when every parameter is in its domain: both
   * choices among their declared texts, and each number in its closed
   * interval.
   */
  predicate ValidRequest(r: Request): (valid: bool)
    ensures valid <==>
      && r.colorMode in ColorModeChoices
      && r.hierarchical in HierarchicalChoices
      && FilterSpeckleOk(r.filterSpeckle)
      && ColorPrecisionOk(r.colorPrecision)
      && LayerDifferenceOk(r.layerDifference)
      && CornerThresholdOk(r.cornerThreshold)
      && SegmentLengthOk(r.segmentLength)
      && SpliceThresholdOk(r.spliceThreshold)
  {
    assert (forall f :: FieldOk(r, f)) ==>
      && FieldOk(r, ColorModeField) && FieldOk(r, HierarchicalField) && FieldOk(r, FilterSpeckleField)
      && FieldOk(r, ColorPrecisionField) && FieldOk(r, LayerDifferenceField)
      && FieldOk(r, CornerThresholdField) && FieldOk(r, SegmentLengthField)
      && FieldOk(r, SpliceThresholdField);
    forall f :: FieldOk(r, f)
  }

  /**
   * Validated parameters within the numeric bounds (the choices hold by
   * type); the same intervals as `ValidRequest`, see `ToRequest`.
   */
  predicate InBounds(p: TracingParameters) {
    && FilterSpeckleOk(p.filterSpeckle)
    && ColorPrecisionOk(p.colorPrecision)
    && LayerDifferenceOk(p.layerDifference)
    && CornerThresholdOk(p.cornerThreshold)
    && SegmentLengthOk(p.segmentLength)
    && SpliceThresholdOk(p.spliceThreshold)
  }

  function Check(r: Request, f: Field): seq<Field> {
    if FieldOk(r, f) then [] else [f]
  }

  /** The violated parameters of `r`, in declaration order. */
  function Violations(r: Request): (errs: seq<Field>)
    ensures forall f :: f in errs <==> !FieldOk(r, f)
    ensures errs == [] <==> ValidRequest(r)
  {
    Check(r, ColorModeField) + Check(r, HierarchicalField) + Check(r, FilterSpeckleField)
    + Check(r, ColorPrecisionField) + Check(r, LayerDifferenceField)
    + Check(r, CornerThresholdField) + Check(r, SegmentLengthField)
    + Check(r, SpliceThresholdField)
  }

  /** The request that validated parameters stand for. */
  function ToRequest(p: TracingParameters): (r: Request)
    ensures InBounds(p) <==> ValidRequest(r)
    ensures ParseColorMode(r.colorMode) == Some(p.colorMode)
    ensures ParseHierarchical(r.hierarchical) == Some(p.hierarchical)
  {
    Request(ColorModeName(p.colorMode), HierarchicalName(p.hierarchical),
            p.filterSpeckle, p.colorPrecision, p.layerDifference,
            p.cornerThreshold, p.segmentLength, p.spliceThreshold)
  }

  /**
   * The validation gate: a valid request becomes `TracingParameters` that
   * stand for exactly that request; an invalid one is refused with every
   * parameter out of its domain, and with nothing else.
   */
  function Validate(r: Request): (res: Result<TracingParameters, seq<Field>>)
    ensures res.Ok? <==> ValidRequest(r)
    ensures res.Ok? ==> InBounds(res.value) && ToRequest(res.value) == r
    ensures res.Err? ==> res.error != [] && forall f :: f in res.error <==> !FieldOk(r, f)
  {
    var errs := Violations(r);
    if errs != [] then Err(errs)
    else
      Ok(TracingParameters(ParseColorMode(r.colorMode).value, ParseHierarchical(r.hierarchical).value,
                           r.filterSpeckle, r.colorPrecision, r.layerDifference,
                           r.cornerThreshold, r.segmentLength, r.spliceThreshold))
  }

  /** Validating the request that in-bounds parameters stand for gives those parameters back. */
  lemma ValidateToRequest(p: TracingParameters)
    requires InBounds(p)
    ensures Validate(ToRequest(p)) == Ok(p)
  {
  }

  /** The request made of the declared defaults. */
  function DefaultRequest(): (r: Request)
    ensures ValidRequest(r)
  {
    Request("color", "stacked", 4, 6, 16, 60, 10.0, 45)
  }

  lemma DefaultsValid()
    ensures Validate(DefaultRequest()) == Ok(TracingParameters(Color, Stacked, 4, 6, 16, 60, 10.0, 45))
  {
  }

  /**
   * When a request differs from a valid one in a single parameter that is
   * out of its domain, validation names exactly that parameter.
   */
  lemma SingleViolationNamed(r: Request, f: Field)
    requires !FieldOk(r, f)
    requires forall g :: g != f ==> FieldOk(r, g)
    ensures Validate(r) == Err([f])
  {
    var errs := Violations(r);
    match f
    case ColorModeField => assert errs == Check(r, ColorModeField);
    case HierarchicalField => assert errs == Check(r, HierarchicalField);
    case FilterSpeckleField => assert errs == Check(r, FilterSpeckleField);
    case ColorPrecisionField => assert errs == Check(r, ColorPrecisionField);
    case LayerDifferenceField => assert errs == Check(r, LayerDifferenceField);
    case CornerThresholdField => assert errs == Check(r, CornerThresholdField);
    case SegmentLengthField => assert errs == Check(r, SegmentLengthField);
    case SpliceThresholdField => assert errs == Check(r, SpliceThresholdField);
  }

  /**
   * The intervals are closed: on top of a valid request, each numeric bound
   * itself is accepted and the integer one step beyond it is refused,
   * naming that parameter.
   */
  lemma BoundsAreClosed(r: Request)
    requires ValidRequest(r)
    ensures Validate(r.(filterSpeckle := 0)).Ok? && Validate(r.(filterSpeckle := 100)).Ok?
    ensures Validate(r.(filterSpeckle := -1)) == Err([FilterSpeckleField])
    ensures Validate(r.(filterSpeckle := 101)) == Err([FilterSpeckleField])
    ensures Validate(r.(colorPrecision := 1)).Ok? && Validate(r.(colorPrecision := 8)).Ok?
    ensures Validate(r.(colorPrecision := 0)) == Err([ColorPrecisionField])
    ensures Validate(r.(colorPrecision := 9)) == Err([ColorPrecisionField])
    ensures Validate(r.(layerDifference := 0)).Ok? && Validate(r.(layerDifference := 100)).Ok?
    ensures Validate(r.(layerDifference := -1)) == Err([LayerDifferenceField])
    ensures Validate(r.(layerDifference := 101)) == Err([LayerDifferenceField])
    ensures Validate(r.(cornerThreshold := 0)).Ok? && Validate(r.(cornerThreshold := 180)).Ok?
    ensures Validate(r.(cornerThreshold := -1)) == Err([CornerThresholdField])
    ensures Validate(r.(cornerThreshold := 181)) == Err([CornerThresholdField])
    ensures Validate(r.(segmentLength := 3.5)).Ok? && Validate(r.(segmentLength := 50.0)).Ok?
    ensures Validate(r.(spliceThreshold := 0)).Ok? && Validate(r.(spliceThreshold := 180)).Ok?
    ensures Validate(r.(spliceThreshold := -1)) == Err([SpliceThresholdField])
    ensures Validate(r.(spliceThreshold := 181)) == Err([SpliceThresholdField])
  {
    SingleViolationNamed(r.(filterSpeckle := -1), FilterSpeckleField);
    SingleViolationNamed(r.(filterSpeckle := 101), FilterSpeckleField);
    SingleViolationNamed(r.(colorPrecision := 0), ColorPrecisionField);
    SingleViolationNamed(r.(colorPrecision := 9), ColorPrecisionField);
    SingleViolationNamed(r.(layerDifference := -1), LayerDifferenceField);
    SingleViolationNamed(r.(layerDifference := 101), LayerDifferenceField);
    SingleViolationNamed(r.(cornerThreshold := -1), CornerThresholdField);
    SingleViolationNamed(r.(cornerThreshold := 181), CornerThresholdField);
    SingleViolationNamed(r.(spliceThreshold := -1), SpliceThresholdField);
    SingleViolationNamed(r.(spliceThreshold := 181), SpliceThresholdField);
  }

  /**
   * A segment length anywhere below 3.5 or above 50.0 is refused, naming
   * `segment_length`; a choice outside its declared set is refused, naming
   * that parameter.
   */
  lemma OutsideValuesRefused(r: Request, x: real, s: string)
    requires ValidRequest(r)
    ensures x < 3.5 || x > 50.0 ==> Validate(r.(segmentLength := x)) == Err([SegmentLengthField])
    ensures s !in ColorModeChoices ==> Validate(r.(colorMode := s)) == Err([ColorModeField])
    ensures s !in HierarchicalChoices ==> Validate(r.(hierarchical := s)) == Err([HierarchicalField])
  {
    if x < 3.5 || x > 50.0 {
      SingleViolationNamed(r.(segmentLength := x), SegmentLengthField);
    }
    if s !in ColorModeChoices {
      SingleViolationNamed(r.(colorMode := s), ColorModeField);
    }
    if s !in HierarchicalChoices {
      SingleViolationNamed(r.(hierarchical := s), HierarchicalField);
    }
  }
}
