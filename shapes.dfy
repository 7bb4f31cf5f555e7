/**
 * The shape generator, the geometry part of the command's execute handler:
 * the corner tuples handed to `drawThreePointRect` and `drawTriangle` for the
 * main body and for the feature at each end.
 */
module Shapes {
  import opened Wrappers
  import opened Vectors
  import opened Derivation
  import opened Validation
  import SettingsIni

  /**
   * One drawing request. A three-point rectangle is given by a corner p0, the
   * corner p1 next to it along one side and the corner p3 next to it along the
   * other; the host closes it at p1 + p3 - p0.
   */
  datatype Shape =
    | ThreePointRect(p0: V2, p1: V2, p3: V2)
    | Triangle(a: V2, b: V2, c: V2)

  /** The corner a three-point rectangle closes with, opposite p0. */
  function FourthCorner(p0: V2, p1: V2, p3: V2): V2
  {
    Sub(Add(p1, p3), p0)
  }

  function Mid(a: V2, b: V2): V2
  {
    Scale(Add(a, b), 0.5)
  }

  /** Half the line width, across the line. */
  function HalfWidth(P: Params): V2
  {
    Scale(P.Wdir, P.widthCm / 2.0)
  }

  /** The main body: the band of the line's width between the two feature bases. */
  function MainRect(P: Params): Shape
  {
    var h := HalfWidth(P);
    ThreePointRect(Add(P.Abase, h), Add(P.Bbase, h), Sub(P.Abase, h))
  }

  /**
   * The feature drawn at one end: `side` is half the feature width across the
   * line and `depth` runs from the base out to the tip. An arrow is a triangle
   * with its apex at the tip; a T is a rectangle from the base out to the tip;
   * any other type draws nothing.
   */
  function EndFeature(featType: string, base: V2, tip: V2, side: V2, depth: V2): seq<Shape>
  {
    if featType == TypeArrow then [Triangle(Add(base, side), tip, Sub(base, side))]
    else if featType == TypeT then [ThreePointRect(Add(base, side), Add(Add(base, side), depth), Sub(base, side))]
    else []
  }

  function FeatureA(P: Params): seq<Shape>
  {
    EndFeature(P.featAType, P.Abase, P.Aext, Scale(P.Wdir, P.featAWCm / 2.0), Scale(P.Ldir, -P.featALCm))
  }

  function FeatureB(P: Params): seq<Shape>
  {
    EndFeature(P.featBType, P.Bbase, P.Bext, Scale(P.Wdir, P.featBWCm / 2.0), Scale(P.Ldir, P.featBLCm))
  }

  /** Everything drawn for a valid bundle, in drawing order. */
  function AllShapes(P: Params): seq<Shape>
  {
    [MainRect(P)] + FeatureA(P) + FeatureB(P)
  }

  /** The execute handler as a specification: derive, validate, and draw only when both succeed. */
  function Run(inp: Inputs, sqrt: real -> real): Result<seq<Shape>, string>
  {
    match Derive(inp, sqrt)
    case Failure(e) => Failure(e)
    case Success(P) =>
      match Validate(P)
      case Fail(c) => Failure(Message(c))
      case Pass => Success(AllShapes(P))
  }

  /**
   * The settings remembered after a successful run: the values of the bundle, so
   * an end of type "None" is remembered with the sizes 0 the derivation gave it.
   */
  function SettingsOf(P: Params): SettingsIni.Settings
  {
    SettingsIni.Settings(P.widthCm, P.featAType, P.leadACm, P.featALCm, P.featAWCm,
                         P.featBType, P.leadBCm, P.featBLCm, P.featBWCm)
  }

  /**
   * The execute handler: extract and validate (on failure nothing is drawn and
   * the reason is what gets logged), then compute the corners step by step, issue
   * the drawing requests in order, and fill the settings to be saved from the bundle.
   * On failure the handler returns before saving, so `saved` is then only the
   * untouched default record and is not written.
   */
  method Execute(inp: Inputs, sqrt: real -> real) returns (ok: bool, drawn: seq<Shape>, err: string, saved: SettingsIni.Settings)
    ensures ok <==> Run(inp, sqrt).Success?
    ensures ok ==> drawn == Run(inp, sqrt).value
    ensures ok ==> Derive(inp, sqrt).Success? && saved == SettingsOf(Derive(inp, sqrt).value)
    ensures !ok ==> drawn == [] && err == Run(inp, sqrt).error
    ensures !ok ==> saved == SettingsIni.Defaults
  {
    drawn, saved := [], SettingsIni.Defaults;
    var P;
    ok, P, err := ExtractParams(inp, sqrt);
    if !ok {
      return;
    }
    var verdict := Validate(P);
    if verdict.Fail? {
      ok, err := false, Message(verdict.failed);
      return;
    }

    var wHalf := Scale(P.Wdir, P.widthCm * 0.5);
    var Aplus := Add(P.Abase, wHalf);
    var Aminus := Sub(P.Abase, wHalf);
    var Bplus := Add(P.Bbase, wHalf);
    drawn := drawn + [ThreePointRect(Aplus, Bplus, Aminus)];

    if P.featAType == TypeArrow {
      var aSide := Scale(P.Wdir, P.featAWCm * 0.5);
      var baseL := Add(P.Abase, aSide);
      var baseR := Add(P.Abase, Scale(aSide, -1.0));
      drawn := drawn + [Triangle(baseL, P.Aext, baseR)];
    } else if P.featAType == TypeT {
      var aSide := Scale(P.Wdir, P.featAWCm * 0.5);
      var aL0 := Add(P.Abase, aSide);
      var aR0 := Add(P.Abase, Scale(aSide, -1.0));
      var aL1 := Add(aL0, Scale(P.Ldir, -P.featALCm));
      drawn := drawn + [ThreePointRect(aL0, aL1, aR0)];
    }

    if P.featBType == TypeArrow {
      var bSide := Scale(P.Wdir, P.featBWCm * 0.5);
      var baseL := Add(P.Bbase, bSide);
      var baseR := Add(P.Bbase, Scale(bSide, -1.0));
      drawn := drawn + [Triangle(baseL, P.Bext, baseR)];
    } else if P.featBType == TypeT {
      var bSide := Scale(P.Wdir, P.featBWCm * 0.5);
      var bL0 := Add(P.Bbase, bSide);
      var bR0 := Add(P.Bbase, Scale(bSide, -1.0));
      var bL1 := Add(bL0, Scale(P.Ldir, P.featBLCm));
      drawn := drawn + [ThreePointRect(bL0, bL1, bR0)];
    }

    saved := CopySettings(P);
  }

  /** The settings record filled field by field from the bundle, starting from the defaults. */
  method CopySettings(P: Params) returns (S: SettingsIni.Settings)
    ensures S == SettingsOf(P)
  {
    S := SettingsIni.Defaults;
    S := S.(widthCm := P.widthCm);
    S := S.(leadACm := P.leadACm);
    S := S.(featAType := P.featAType);
    S := S.(featALCm := P.featALCm);
    S := S.(featAWCm := P.featAWCm);
    S := S.(leadBCm := P.leadBCm);
    S := S.(featBType := P.featBType);
    S := S.(featBLCm := P.featBLCm);
    S := S.(featBWCm := P.featBWCm);
  }

  /**
   * What a successful run remembers: the width and the leads as entered, both end
   * types, and for each end its sizes as entered when it has a feature (then at
   * least the line width wide and of positive length) and 0 and 0 when it has none.
   */
  lemma SavedAfterRun(inp: Inputs, sqrt: real -> real)
    requires Run(inp, sqrt).Success?
    ensures Derive(inp, sqrt).Success?
    ensures var S := SettingsOf(Derive(inp, sqrt).value);
            && S.widthCm == inp.widthCm && S.widthCm > 0.0
            && S.leadACm == inp.leadACm && S.leadBCm == inp.leadBCm
            && S.featAType == inp.featAType && S.featBType == inp.featBType
            && (inp.featAType == TypeNone ==> S.featAWCm == 0.0 && S.featALCm == 0.0)
            && (inp.featAType != TypeNone ==> S.featAWCm == inp.featAWCm >= inp.widthCm && S.featALCm == inp.featALCm > 0.0)
            && (inp.featBType == TypeNone ==> S.featBWCm == 0.0 && S.featBLCm == 0.0)
            && (inp.featBType != TypeNone ==> S.featBWCm == inp.featBWCm >= inp.widthCm && S.featBLCm == inp.featBLCm > 0.0)
  {
    var P := Derive(inp, sqrt).value;
    assert Validate(P) == Pass;
    assert Holds(P, WidthPositive) && Holds(P, FeatAWidth) && Holds(P, FeatALength);
    assert Holds(P, FeatBWidth) && Holds(P, FeatBLength);
  }

  /**
   * The main rectangle of a valid bundle is a true rectangle: its long side runs
   * from Abase to Bbase along the line with positive length, its short side is the
   * line width across it, its closing corner is Bbase - wHalf, and it is centred
   * on the baseline at both ends.
   */
  lemma MainRectGeometry(P: Params)
    requires Oriented(P)
    requires Validate(P) == Pass
    ensures AllShapes(P)[0] == MainRect(P)
    ensures var r := MainRect(P);
            && FourthCorner(r.p0, r.p1, r.p3) == Sub(P.Bbase, HalfWidth(P))
            && Sub(r.p1, r.p0) == Scale(P.Ldir, SegmentLength(P))
            && SegmentLength(P) > EpsSketchLen
            && Sub(r.p3, r.p0) == Scale(P.Wdir, -P.widthCm)
            && Dot(Sub(r.p1, r.p0), Sub(r.p3, r.p0)) == 0.0
            && Dot(Sub(r.p3, r.p0), Sub(r.p3, r.p0)) == P.widthCm * P.widthCm
            && Mid(r.p0, r.p3) == P.Abase
            && Mid(r.p1, FourthCorner(r.p0, r.p1, r.p3)) == P.Bbase
  {
    var r := MainRect(P);
    var h := HalfWidth(P);
    assert Holds(P, SegmentRemains);
    assert Sub(r.p1, r.p0) == Sub(P.Bbase, P.Abase);
    assert Sub(r.p3, r.p0) == Scale(P.Wdir, -P.widthCm);
    PerpendicularSides(P.Ldir, SegmentLength(P), -P.widthCm);
    DotScaleBoth(P.Wdir, -P.widthCm);
  }

  /** Two sides, one along a unit direction and one along its normal, meet at a right angle. */
  lemma PerpendicularSides(u: V2, s: real, t: real)
    ensures Dot(Scale(u, s), Scale(PerpCcw(u), t)) == 0.0
  {
    var st := s * t;
    assert (u.x * s) * (-u.y * t) == -(u.x * u.y * st);
    assert (u.y * s) * (u.x * t) == u.x * u.y * st;
  }

  /**
   * The feature at one end of a valid bundle: an arrow has its apex at the tip,
   * `featL` out from the base along the line, and a base of the feature's full
   * width centred on the feature base; a T is a rectangle of that width whose far
   * side is `featL` out from the base and centred on the tip; any other type draws nothing.
   */
  predicate EndFeatureShaped(shapes: seq<Shape>, featType: string, base: V2, tip: V2, across: V2, out: V2, featW: real, featL: real)
  {
    && (featType == TypeArrow ==>
          |shapes| == 1 && shapes[0].Triangle?
          && shapes[0].b == tip
          && Sub(tip, base) == Scale(out, featL)
          && Mid(shapes[0].a, shapes[0].c) == base
          && Sub(shapes[0].a, shapes[0].c) == Scale(across, featW))
    && (featType == TypeT ==>
          |shapes| == 1 && shapes[0].ThreePointRect?
          && Sub(shapes[0].p1, shapes[0].p0) == Scale(out, featL)
          && Sub(shapes[0].p3, shapes[0].p0) == Scale(across, -featW)
          && Mid(shapes[0].p0, shapes[0].p3) == base
          && Mid(shapes[0].p1, FourthCorner(shapes[0].p0, shapes[0].p1, shapes[0].p3)) == tip)
    && (featType != TypeArrow && featType != TypeT ==> shapes == [])
  }

  lemma FeatureAGeometry(P: Params)
    requires Oriented(P)
    requires Validate(P) == Pass
    ensures P.featAType != TypeNone ==> P.featALCm > 0.0 && P.featAWCm >= P.widthCm
    ensures EndFeatureShaped(FeatureA(P), P.featAType, P.Abase, P.Aext, P.Wdir, Scale(P.Ldir, -1.0), P.featAWCm, P.featALCm)
  {
    assert Holds(P, FeatAWidth) && Holds(P, FeatALength);
    EndFeatureFacts(P.featAType, P.Abase, P.Aext, P.Wdir, P.Ldir, -1.0, P.featAWCm, P.featALCm);
  }

  lemma FeatureBGeometry(P: Params)
    requires Oriented(P)
    requires Validate(P) == Pass
    ensures P.featBType != TypeNone ==> P.featBLCm > 0.0 && P.featBWCm >= P.widthCm
    ensures EndFeatureShaped(FeatureB(P), P.featBType, P.Bbase, P.Bext, P.Wdir, P.Ldir, P.featBWCm, P.featBLCm)
  {
    assert Holds(P, FeatBWidth) && Holds(P, FeatBLength);
    assert Scale(P.Ldir, 1.0) == P.Ldir;
    EndFeatureFacts(P.featBType, P.Bbase, P.Bext, P.Wdir, P.Ldir, 1.0, P.featBWCm, P.featBLCm);
  }

  lemma EndFeatureFacts(featType: string, base: V2, tip: V2, across: V2, dir: V2, sign: real, featW: real, featL: real)
    requires tip == Add(base, Scale(dir, sign * featL))
    ensures EndFeatureShaped(EndFeature(featType, base, tip, Scale(across, featW / 2.0), Scale(dir, sign * featL)),
                             featType, base, tip, across, Scale(dir, sign), featW, featL)
  {
    var side := Scale(across, featW / 2.0);
    var depth := Scale(dir, sign * featL);
    assert Scale(Scale(dir, sign), featL) == depth;
    assert Sub(Add(base, side), Sub(base, side)) == Scale(across, featW);
    assert Mid(Add(base, side), Sub(base, side)) == base;
    var p0, p1, p3 := Add(base, side), Add(Add(base, side), depth), Sub(base, side);
    assert Sub(p3, p0) == Scale(across, -featW);
    assert FourthCorner(p0, p1, p3) == Add(Sub(base, side), depth);
    assert Mid(p1, FourthCorner(p0, p1, p3)) == Add(base, depth);
  }

  /**
   * The pipeline reports one reason: coincident picks are reported by the
   * derivation before any check of the validator (even a non-positive width);
   * otherwise the validator's first failing check is reported; on success the
   * main rectangle comes first.
   */
  lemma RunReportsFirstFailure(inp: Inputs, sqrt: real -> real)
    requires SqrtExactFor(inp, sqrt)
    ensures var d := Sub(inp.B, inp.A);
            Dot(d, d) <= EpsCoincident * EpsCoincident ==> Run(inp, sqrt) == Failure(MsgCoincident)
    ensures var d := Sub(inp.B, inp.A);
            Dot(d, d) > EpsCoincident * EpsCoincident && inp.widthCm <= 0.0 ==>
              Run(inp, sqrt) == Failure("Width of line must be > 0.")
    ensures Run(inp, sqrt).Success? ==>
              Derive(inp, sqrt).Success? && Validate(Derive(inp, sqrt).value) == Pass &&
              |Run(inp, sqrt).value| >= 1 && Run(inp, sqrt).value[0] == MainRect(Derive(inp, sqrt).value)
  {
    DeriveFailsIffCoincident(inp, sqrt);
    if Derive(inp, sqrt).Success? && inp.widthCm <= 0.0 {
      WidthCheckedFirst(Derive(inp, sqrt).value);
    }
  }
}
