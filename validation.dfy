/**
 * The geometric validator `validateParams`: seven checks run in a fixed
 * priority order and the first one that fails is the single reported reason.
 */
module Validation {
  import opened Vectors
  import opened Derivation

  /** Guard for geometry construction, `kEpsSketchLen`. */
  const EpsSketchLen: real := 1.0e-9

  /** The checks of `validateParams`, listed in the order they run. */
  datatype Check =
    | WidthPositive
    | NotCoincident
    | FeatAWidth
    | FeatALength
    | FeatBWidth
    | FeatBLength
    | SegmentRemains

  datatype Verdict = Pass | Fail(failed: Check)

  /** The message reported when a check fails. */
  function Message(c: Check): string
  {
    match c
    case WidthPositive => "Width of line must be > 0."
    case NotCoincident => MsgCoincident
    case FeatAWidth => "Feature A width must be >= line width."
    case FeatALength => "Feature A length must be > 0."
    case FeatBWidth => "Feature B width must be >= line width."
    case FeatBLength => "Feature B length must be > 0."
    case SegmentRemains =>
      "Leads and/or feature lengths consume the segment. Reduce leads/features or move A and B further apart."
  }

  /** Position of a check in the priority order. */
  function Rank(c: Check): nat
  {
    match c
    case WidthPositive => 0
    case NotCoincident => 1
    case FeatAWidth => 2
    case FeatALength => 3
    case FeatBWidth => 4
    case FeatBLength => 5
    case SegmentRemains => 6
  }

  /** Signed length of the main segment between the feature bases, measured along `Ldir`. */
  function SegmentLength(P: Params): real
  {
    Dot(Sub(P.Bbase, P.Abase), P.Ldir)
  }

  /** What each check demands of the bundle, independently of the order the checks run in. */
  predicate Holds(P: Params, c: Check)
  {
    match c
    case WidthPositive => P.widthCm > 0.0
    case NotCoincident => P.L > EpsCoincident
    case FeatAWidth => P.featAType == TypeNone || P.featAWCm >= P.widthCm
    case FeatALength => P.featAType == TypeNone || P.featALCm > 0.0
    case FeatBWidth => P.featBType == TypeNone || P.featBWCm >= P.widthCm
    case FeatBLength => P.featBType == TypeNone || P.featBLCm > 0.0
    case SegmentRemains => SegmentLength(P) > EpsSketchLen
  }

  /**
   * `validateParams`. The bundle passes exactly when every check holds; a failure
   * names a check that does not hold while every check ranked before it does.
   */
  function Validate(P: Params): (r: Verdict)
    ensures r.Fail? ==> !Holds(P, r.failed) && forall c :: Rank(c) < Rank(r.failed) ==> Holds(P, c)
    ensures r == Pass <==> forall c :: Holds(P, c)
  {
    if P.widthCm <= 0.0 then Fail(WidthPositive)
    else if P.L <= EpsCoincident then Fail(NotCoincident)
    else if P.featAType != TypeNone && P.featAWCm < P.widthCm then Fail(FeatAWidth)
    else if P.featAType != TypeNone && P.featALCm <= 0.0 then Fail(FeatALength)
    else if P.featBType != TypeNone && P.featBWCm < P.widthCm then Fail(FeatBWidth)
    else if P.featBType != TypeNone && P.featBLCm <= 0.0 then Fail(FeatBLength)
    else if SegmentLength(P) <= EpsSketchLen then Fail(SegmentRemains)
    else Pass
  }

  /** Only one reason is ever reported, and the verdict is fixed by the first failing check. */
  lemma FirstFailureReported(P: Params, c: Check)
    requires !Holds(P, c)
    requires forall e :: Rank(e) < Rank(c) ==> Holds(P, e)
    ensures Validate(P) == Fail(c)
  {
  }

  /** A non-positive width is reported as such whatever the other fields hold. */
  lemma WidthCheckedFirst(P: Params)
    requires P.widthCm <= 0.0
    ensures Validate(P) == Fail(WidthPositive)
    ensures Message(Validate(P).failed) == "Width of line must be > 0."
  {
    FirstFailureReported(P, WidthPositive);
  }

  /**
   * An active end whose feature is narrower than the line is reported with that
   * end's width message once width and coincidence pass (for B: once A's checks pass too).
   */
  lemma NarrowFeatureRejected(P: Params)
    requires P.widthCm > 0.0 && P.L > EpsCoincident
    ensures P.featAType != TypeNone && P.featAWCm < P.widthCm ==> Validate(P) == Fail(FeatAWidth)
    ensures (Holds(P, FeatAWidth) && Holds(P, FeatALength) &&
             P.featBType != TypeNone && P.featBWCm < P.widthCm) ==> Validate(P) == Fail(FeatBWidth)
  {
    if P.featAType != TypeNone && P.featAWCm < P.widthCm {
      FirstFailureReported(P, FeatAWidth);
    }
    if Holds(P, FeatAWidth) && Holds(P, FeatALength) && P.featBType != TypeNone && P.featBWCm < P.widthCm {
      FirstFailureReported(P, FeatBWidth);
    }
  }

  /** The checks on the raw values, i.e. every check except the coincidence and segment ones. */
  predicate SizesAcceptable(P: Params)
  {
    Holds(P, WidthPositive) && Holds(P, FeatAWidth) && Holds(P, FeatALength) &&
    Holds(P, FeatBWidth) && Holds(P, FeatBLength)
  }

  /**
   * For a derived bundle the coincidence check never fires, and once the sizes are
   * acceptable the verdict is decided by the feature lengths against the baseline
   * extended by the leads: it passes exactly when featAL + featBL < L + leadA + leadB - 1e-9,
   * and otherwise reports the segment-consumption message.
   */
  lemma DerivedVerdict(inp: Inputs, sqrt: real -> real)
    requires SqrtExactFor(inp, sqrt)
    requires Derive(inp, sqrt).Success?
    ensures var P := Derive(inp, sqrt).value;
            && Holds(P, NotCoincident)
            && (SizesAcceptable(P) ==>
                  (Validate(P) == Pass <==>
                     P.featALCm + P.featBLCm < P.L + P.leadACm + P.leadBCm - EpsSketchLen))
            && (SizesAcceptable(P) && P.featALCm + P.featBLCm >= P.L + P.leadACm + P.leadBCm - EpsSketchLen ==>
                  Validate(P) == Fail(SegmentRemains))
  {
    var P := Derive(inp, sqrt).value;
    DeriveSegment(inp, sqrt);
    if SizesAcceptable(P) && !Holds(P, SegmentRemains) {
      FirstFailureReported(P, SegmentRemains);
    }
  }

  /**
   * Consuming more of the baseline never helps: with the picks, leads and width
   * fixed, if a pair of feature lengths passes then shorter ones that keep the
   * sizes acceptable pass too.
   */
  lemma ShorterFeaturesStillPass(inp: Inputs, inp': Inputs, sqrt: real -> real)
    requires SqrtExactFor(inp, sqrt)
    requires Derive(inp, sqrt).Success?
    requires inp'.A == inp.A && inp'.B == inp.B
    requires inp'.leadACm == inp.leadACm && inp'.leadBCm == inp.leadBCm
    requires Derive(inp', sqrt).Success?
    requires SizesAcceptable(Derive(inp', sqrt).value)
    requires Derive(inp', sqrt).value.featALCm + Derive(inp', sqrt).value.featBLCm
          <= Derive(inp, sqrt).value.featALCm + Derive(inp, sqrt).value.featBLCm
    requires Validate(Derive(inp, sqrt).value) == Pass
    ensures Validate(Derive(inp', sqrt).value) == Pass
  {
    DerivedVerdict(inp, sqrt);
    DerivedVerdict(inp', sqrt);
  }
}
