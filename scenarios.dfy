/**
 * Worked examples on picks (0,0) and (b,0) without leads, carried from the
 * dialog values through the derivation, the validator and the shape generator;
 * then the instances b = 10, width 2; last, the command run with the default
 * settings. The host's square root enters as one fact, that it returns b at
 * b * b; `RootOnX` obtains it from exactness.
 */
module Scenarios {
  import opened Wrappers
  import opened Vectors
  import opened Derivation
  import opened Validation
  import opened Shapes
  import SettingsIni

  /** The dialog for picks (0,0) and (b,0), no leads, a feature at A and none at B. */
  function OnX(b: real, width: real, featAType: string, featAW: real, featAL: real): Inputs
  {
    Inputs(V2(0.0, 0.0), V2(b, 0.0), width, 0.0, 0.0, featAType, featAW, featAL, TypeNone, 0.0, 0.0)
  }

  /**
   * The bundle derived from picks (0,0) and (b,0): length b, direction (1,0),
   * normal (0,1), the tips the leads outside the picks and the bases the
   * feature lengths inside the tips.
   */
  function OnAxis(inp: Inputs, b: real): Params
  {
    var aL := FeatureSize(inp.featAType, inp.featALCm);
    var bL := FeatureSize(inp.featBType, inp.featBLCm);
    Params(inp.A, inp.B, inp.widthCm, inp.leadACm, inp.leadBCm,
           inp.featAType, FeatureSize(inp.featAType, inp.featAWCm), aL,
           inp.featBType, FeatureSize(inp.featBType, inp.featBWCm), bL,
           b, V2(1.0, 0.0), V2(0.0, 1.0),
           V2(-inp.leadACm, 0.0), V2(b + inp.leadBCm, 0.0),
           V2(-inp.leadACm + aL, 0.0), V2(b + inp.leadBCm - bL, 0.0))
  }

  /** An exact square root returns b at b * b. */
  lemma RootOnX(b: real, sqrt: real -> real)
    requires b > 0.0
    requires SqrtExactAt(sqrt, Dot(V2(b, 0.0), V2(b, 0.0)))
    ensures Len(V2(b, 0.0), sqrt) == b
  {
    RootUnique(Len(V2(b, 0.0), sqrt), b);
  }

  /** Picks (0,0) and (b,0), b above the coincidence guard, derive the bundle `OnAxis`. */
  lemma DeriveOnAxis(inp: Inputs, b: real, sqrt: real -> real)
    requires inp.A == V2(0.0, 0.0) && inp.B == V2(b, 0.0) && b > EpsCoincident
    requires Len(V2(b, 0.0), sqrt) == b
    ensures Derive(inp, sqrt) == Success(OnAxis(inp, b))
  {
    AxisTips(inp, b, sqrt);
    BundleOnAxis(Derive(inp, sqrt).value, inp, b);
  }

  /** On the axis the baseline has length b, direction (1,0) and normal (0,1). */
  lemma AxisFrame(inp: Inputs, b: real, sqrt: real -> real)
    requires inp.A == V2(0.0, 0.0) && inp.B == V2(b, 0.0) && b > EpsCoincident
    requires Len(V2(b, 0.0), sqrt) == b
    ensures Derive(inp, sqrt).Success?
    ensures var P := Derive(inp, sqrt).value;
            P.L == b && P.Ldir == V2(1.0, 0.0) && P.Wdir == V2(0.0, 1.0)
  {
    assert Sub(inp.B, inp.A) == V2(b, 0.0);
    UnitAlongX(b);
    NormalOfUnitX();
  }

  /** On the axis the tips lie the leads outside the picks and the bases the feature lengths inside the tips. */
  lemma AxisTips(inp: Inputs, b: real, sqrt: real -> real)
    requires inp.A == V2(0.0, 0.0) && inp.B == V2(b, 0.0) && b > EpsCoincident
    requires Len(V2(b, 0.0), sqrt) == b
    ensures Derive(inp, sqrt).Success?
    ensures var P := Derive(inp, sqrt).value;
            && P.L == b && P.Ldir == V2(1.0, 0.0) && P.Wdir == V2(0.0, 1.0)
            && P.Aext == V2(-inp.leadACm, 0.0) && P.Bext == V2(b + inp.leadBCm, 0.0)
            && P.Abase == V2(-inp.leadACm + P.featALCm, 0.0) && P.Bbase == V2(b + inp.leadBCm - P.featBLCm, 0.0)
  {
    AxisFrame(inp, b, sqrt);
    var P := Derive(inp, sqrt).value;
    DeriveTips(inp, sqrt);
    AxisFacts(b, inp.leadACm, inp.leadBCm, P.featALCm, P.featBLCm);
    assert P.Aext == V2(-inp.leadACm, 0.0);
    assert P.Abase == Add(V2(-inp.leadACm, 0.0), Scale(V2(1.0, 0.0), P.featALCm));
    assert P.Bbase == Add(V2(b + inp.leadBCm, 0.0), Scale(V2(1.0, 0.0), -P.featBLCm));
  }

  /** A bundle with the picks, the dialog values and the axis geometry is `OnAxis`. */
  lemma BundleOnAxis(P: Params, inp: Inputs, b: real)
    requires P.A == inp.A && P.B == inp.B && P.widthCm == inp.widthCm
    requires P.leadACm == inp.leadACm && P.leadBCm == inp.leadBCm
    requires P.featAType == inp.featAType && P.featBType == inp.featBType
    requires P.featAWCm == FeatureSize(inp.featAType, inp.featAWCm) && P.featALCm == FeatureSize(inp.featAType, inp.featALCm)
    requires P.featBWCm == FeatureSize(inp.featBType, inp.featBWCm) && P.featBLCm == FeatureSize(inp.featBType, inp.featBLCm)
    requires P.L == b && P.Ldir == V2(1.0, 0.0) && P.Wdir == V2(0.0, 1.0)
    requires P.Aext == V2(-inp.leadACm, 0.0) && P.Bext == V2(b + inp.leadBCm, 0.0)
    requires P.Abase == V2(-inp.leadACm + P.featALCm, 0.0) && P.Bbase == V2(b + inp.leadBCm - P.featBLCm, 0.0)
    ensures P == OnAxis(inp, b)
  {
  }

  lemma NormalOfUnitX()
    ensures PerpCcw(V2(1.0, 0.0)) == V2(0.0, 1.0)
  {
  }

  /** The arithmetic of the derivation on the x axis, kept apart from the root and the division. */
  lemma AxisFacts(b: real, la: real, lb: real, aL: real, bL: real)
    ensures Add(V2(0.0, 0.0), Scale(V2(1.0, 0.0), -la)) == V2(-la, 0.0)
    ensures Add(V2(b, 0.0), Scale(V2(1.0, 0.0), lb)) == V2(b + lb, 0.0)
    ensures Add(V2(-la, 0.0), Scale(V2(1.0, 0.0), aL)) == V2(-la + aL, 0.0)
    ensures Add(V2(b + lb, 0.0), Scale(V2(1.0, 0.0), -bL)) == V2(b + lb - bL, 0.0)
  {
  }

  lemma UnitAlongX(b: real)
    requires b != 0.0
    ensures Scale(V2(b, 0.0), 1.0 / b) == V2(1.0, 0.0)
  {
    assert b * (1.0 / b) == 1.0;
  }

  lemma TypeNamesDistinct()
    ensures TypeNone != TypeArrow && TypeNone != TypeT && TypeArrow != TypeT
  {
    assert TypeNone[0] != TypeArrow[0] && TypeNone[0] != TypeT[0] && TypeArrow[0] != TypeT[0];
  }

  /** Ends of type "None" draw nothing: the main rectangle is drawn alone. */
  lemma NoEndFeatures(P: Params)
    requires P.featAType == TypeNone && P.featBType == TypeNone
    ensures AllShapes(P) == [MainRect(P)]
  {
    TypeNamesDistinct();
  }

  /**
   * A plain line from (0,0) to (b,0), b above 1e-9, of positive width w: one
   * rectangle from (0, w/2) along to (b, w/2) and across to (0, -w/2).
   */
  lemma PlainLine(b: real, width: real, sqrt: real -> real)
    requires b > EpsSketchLen && width > 0.0
    requires Len(V2(b, 0.0), sqrt) == b
    ensures Run(OnX(b, width, TypeNone, 0.0, 0.0), sqrt)
         == Success([ThreePointRect(V2(0.0, width / 2.0), V2(b, width / 2.0), V2(0.0, -(width / 2.0)))])
  {
    var inp := OnX(b, width, TypeNone, 0.0, 0.0);
    DeriveOnAxis(inp, b, sqrt);
    var P := OnAxis(inp, b);
    assert SegmentLength(P) == b;
    assert Validate(P) == Pass;
    NoEndFeatures(P);
    assert HalfWidth(P) == V2(0.0, width / 2.0);
  }

  /**
   * An arrow at A narrower than the line is reported with A's width message,
   * whatever its length: the width check runs before the length and segment checks.
   */
  lemma NarrowArrow(b: real, width: real, featAW: real, featAL: real, sqrt: real -> real)
    requires b > EpsCoincident && width > 0.0 && featAW < width
    requires Len(V2(b, 0.0), sqrt) == b
    ensures Run(OnX(b, width, TypeArrow, featAW, featAL), sqrt) == Failure("Feature A width must be >= line width.")
  {
    NarrowArrowOnAxis(OnX(b, width, TypeArrow, featAW, featAL), b, sqrt);
  }

  lemma NarrowArrowOnAxis(inp: Inputs, b: real, sqrt: real -> real)
    requires inp.A == V2(0.0, 0.0) && inp.B == V2(b, 0.0) && b > EpsCoincident
    requires Len(V2(b, 0.0), sqrt) == b
    requires inp.featAType == TypeArrow && inp.widthCm > 0.0 && inp.featAWCm < inp.widthCm
    ensures Run(inp, sqrt) == Failure(Message(FeatAWidth))
  {
    DeriveOnAxis(inp, b, sqrt);
    TypeNamesDistinct();
    var P := OnAxis(inp, b);
    assert P.featAType != TypeNone && P.featAWCm < P.widthCm;
    NarrowFeatureRejected(P);
    RunOfBundle(inp, sqrt, P);
  }

  /** Once the derivation is known, the run is the validator's verdict on it. */
  lemma RunOfBundle(inp: Inputs, sqrt: real -> real, P: Params)
    requires Derive(inp, sqrt) == Success(P)
    ensures Validate(P) == Pass ==> Run(inp, sqrt) == Success(AllShapes(P))
    ensures Validate(P).Fail? ==> Run(inp, sqrt) == Failure(Message(Validate(P).failed))
  {
  }

  lemma PlainCorner()
    ensures FourthCorner(V2(0.0, 1.0), V2(10.0, 1.0), V2(0.0, -1.0)) == V2(10.0, -1.0)
  {
    var p0, p1, p3 := V2(0.0, 1.0), V2(10.0, 1.0), V2(0.0, -1.0);
    var s := Add(p1, p3);
    assert s == V2(10.0, 0.0);
    assert Sub(s, p0) == V2(10.0, -1.0);
  }

  /**
   * Picks (0,0) and (10,0), width 2, no features: one rectangle drawn from
   * (0,1), (10,1), (0,-1), which the host closes at (10,-1).
   */
  lemma PlainLineScenario(sqrt: real -> real)
    requires SqrtExactAt(sqrt, 100.0)
    ensures Run(OnX(10.0, 2.0, TypeNone, 0.0, 0.0), sqrt)
         == Success([ThreePointRect(V2(0.0, 1.0), V2(10.0, 1.0), V2(0.0, -1.0))])
    ensures FourthCorner(V2(0.0, 1.0), V2(10.0, 1.0), V2(0.0, -1.0)) == V2(10.0, -1.0)
  {
    RootOnX(10.0, sqrt);
    PlainLine(10.0, 2.0, sqrt);
    PlainCorner();
  }

  /** Picks (0,0) and (10,0), width 2: an arrow 1 wide and 20 long at A is rejected for its width. */
  lemma NarrowArrowScenario(sqrt: real -> real)
    requires SqrtExactAt(sqrt, 100.0)
    ensures Run(OnX(10.0, 2.0, TypeArrow, 1.0, 20.0), sqrt) == Failure("Feature A width must be >= line width.")
  {
    RootOnX(10.0, sqrt);
    NarrowArrow(10.0, 2.0, 1.0, 20.0, sqrt);
  }

  /**
   * The item a type dropdown shows for a saved type: the item of that name, or no
   * item when the name is none of the three, which the handler reads as "None".
   */
  function Selected(saved: string): (r: string)
    ensures r == TypeNone || r == TypeArrow || r == TypeT
    ensures saved == TypeArrow || saved == TypeT || saved == TypeNone ==> r == saved
    ensures saved != TypeArrow && saved != TypeT ==> r == TypeNone
  {
    if saved == TypeArrow || saved == TypeT then saved else TypeNone
  }

  /** The dialog filled from saved settings, with the two picks. */
  function FromSettings(s: SettingsIni.Settings, A: V2, B: V2): Inputs
  {
    Inputs(A, B, s.widthCm, s.leadACm, s.leadBCm,
           Selected(s.featAType), s.featAWCm, s.featALCm, Selected(s.featBType), s.featBWCm, s.featBLCm)
  }

  /**
   * A saved type that names no dropdown item opens as an end without a feature:
   * its sizes are read as 0, whatever the file holds.
   */
  lemma UnknownTypeOpensAsNone(s: SettingsIni.Settings, A: V2, B: V2, sqrt: real -> real)
    requires s.featAType != TypeArrow && s.featAType != TypeT
    requires Derive(FromSettings(s, A, B), sqrt).Success?
    ensures var P := Derive(FromSettings(s, A, B), sqrt).value;
            P.featAType == TypeNone && P.featAWCm == 0.0 && P.featALCm == 0.0
  {
  }

  /**
   * With the default settings (0.2 wide, no leads, no features) the command draws
   * exactly when the picks are more than 1e-9 apart, and then it draws the main
   * rectangle alone.
   */
  lemma DefaultsDrawWhenApart(A: V2, B: V2, sqrt: real -> real)
    requires SqrtExactAt(sqrt, Dot(Sub(B, A), Sub(B, A)))
    ensures var d := Sub(B, A);
            Run(FromSettings(SettingsIni.Defaults, A, B), sqrt).Success? <==> Dot(d, d) > EpsSketchLen * EpsSketchLen
    ensures Run(FromSettings(SettingsIni.Defaults, A, B), sqrt).Success? ==>
              && Derive(FromSettings(SettingsIni.Defaults, A, B), sqrt).Success?
              && Run(FromSettings(SettingsIni.Defaults, A, B), sqrt).value
                 == [MainRect(Derive(FromSettings(SettingsIni.Defaults, A, B), sqrt).value)]
  {
    DefaultsOpenPlain(A, B);
    PlainDrawsWhenApart(FromSettings(SettingsIni.Defaults, A, B), sqrt);
  }

  /** The default settings open a dialog 0.2 wide, without leads and without features. */
  lemma DefaultsOpenPlain(A: V2, B: V2)
    ensures var inp := FromSettings(SettingsIni.Defaults, A, B);
            && inp.A == A && inp.B == B && inp.widthCm == 0.2
            && inp.leadACm == 0.0 && inp.leadBCm == 0.0
            && inp.featAType == TypeNone && inp.featBType == TypeNone
  {
    TypeNamesDistinct();
  }

  /**
   * A line without leads and without features, of positive width, draws exactly
   * when the picks are more than 1e-9 apart, and then it draws the main rectangle alone.
   */
  lemma PlainDrawsWhenApart(inp: Inputs, sqrt: real -> real)
    requires SqrtExactFor(inp, sqrt)
    requires inp.widthCm > 0.0 && inp.leadACm == 0.0 && inp.leadBCm == 0.0
    requires inp.featAType == TypeNone && inp.featBType == TypeNone
    ensures var d := Sub(inp.B, inp.A);
            Run(inp, sqrt).Success? <==> Dot(d, d) > EpsSketchLen * EpsSketchLen
    ensures Run(inp, sqrt).Success? ==>
              Derive(inp, sqrt).Success? && Run(inp, sqrt).value == [MainRect(Derive(inp, sqrt).value)]
  {
    var d := Sub(inp.B, inp.A);
    DeriveFailsIffCoincident(inp, sqrt);
    if Derive(inp, sqrt).Success? {
      var P := Derive(inp, sqrt).value;
      DeriveFrame(inp, sqrt);
      DerivedVerdict(inp, sqrt);
      assert SizesAcceptable(P);
      SquareBelow(P.L, EpsSketchLen);
      NoEndFeatures(P);
    }
  }

  /**
   * A run with no feature at A remembers A's width as 0. The next dialog opens
   * with the reloaded settings, so choosing an arrow at A and keeping that width
   * is rejected with A's width message, wherever the new picks lie.
   */
  lemma ArrowAfterNoneRejected(inp: Inputs, sqrt: real -> real, fmt: real -> string, parse: string -> Option<real>,
                               A: V2, B: V2, sqrt': real -> real)
    requires Run(inp, sqrt).Success? && inp.featAType == TypeNone
    requires parse(fmt(0.0)) == Some(0.0) && parse(fmt(inp.widthCm)) == Some(inp.widthCm)
    requires Derive(FromSettings(Reopened(inp, sqrt, fmt, parse).(featAType := TypeArrow), A, B), sqrt').Success?
    ensures Reopened(inp, sqrt, fmt, parse).featAWCm == 0.0
    ensures Run(FromSettings(Reopened(inp, sqrt, fmt, parse).(featAType := TypeArrow), A, B), sqrt')
         == Failure("Feature A width must be >= line width.")
  {
    SavedAfterRun(inp, sqrt);
    var S := SettingsOf(Derive(inp, sqrt).value);
    SettingsIni.SaveThenLoad(S, SettingsIni.Defaults, fmt, parse);
    var R := Reopened(inp, sqrt, fmt, parse);
    assert R.featAWCm == 0.0 && R.widthCm == inp.widthCm;
    TypeNamesDistinct();
    var inp' := FromSettings(R.(featAType := TypeArrow), A, B);
    ArrowWithoutWidthRejected(inp', sqrt');
  }

  /** The settings the next dialog opens with after a run: those it saved, written out and read back. */
  function Reopened(inp: Inputs, sqrt: real -> real, fmt: real -> string, parse: string -> Option<real>): SettingsIni.Settings
    requires Run(inp, sqrt).Success?
  {
    SettingsIni.LoadLines(SettingsIni.Defaults, SettingsIni.SaveLines(SettingsOf(Derive(inp, sqrt).value), fmt), parse)
  }

  /** An arrow at A of width 0 on a line of positive width is rejected for its width. */
  lemma ArrowWithoutWidthRejected(inp: Inputs, sqrt: real -> real)
    requires inp.featAType == TypeArrow && inp.featAWCm == 0.0 && inp.widthCm > 0.0
    requires Derive(inp, sqrt).Success?
    ensures Run(inp, sqrt) == Failure(Message(FeatAWidth))
  {
    TypeNamesDistinct();
    var P := Derive(inp, sqrt).value;
    assert P.featAType != TypeNone && P.featAWCm < P.widthCm && P.L > EpsCoincident;
    NarrowFeatureRejected(P);
    RunOfBundle(inp, sqrt, P);
  }
}
