/**
 * Parameter derivation (`extractParams` once the host has supplied the two
 * picked points in sketch space and the dialog values): baseline length,
 * unit direction, its normal, the tips pushed out by the leads and the
 * feature bases pulled in from the tips by the feature lengths.
 */
module Derivation {
  import opened Wrappers
  import opened Vectors

  /** Point-equality and normalisation guard, `kEpsCoincident`. */
  const EpsCoincident: real := 1.0e-12

  /** The three entries of the feature-type dropdowns. */
  const TypeNone: string := "None"
  const TypeArrow: string := "Arrow"
  const TypeT: string := "T"

  const MsgCoincident: string := "Points A and B are coincident or too close together."

  /** What the dialog supplies: the picks, already in sketch space, and the raw values. */
  datatype Inputs = Inputs(
    A: V2, B: V2,
    widthCm: real, leadACm: real, leadBCm: real,
    featAType: string, featAWCm: real, featALCm: real,
    featBType: string, featBWCm: real, featBLCm: real)

  /** The parameter bundle `ThickLineParams`: the values read plus the derived geometry. */
  datatype Params = Params(
    A: V2, B: V2,
    widthCm: real, leadACm: real, leadBCm: real,
    featAType: string, featAWCm: real, featALCm: real,
    featBType: string, featBWCm: real, featBLCm: real,
    L: real, Ldir: V2, Wdir: V2,
    Aext: V2, Bext: V2,
    Abase: V2, Bbase: V2)

  const Origin: V2 := V2(0.0, 0.0)

  /** A freshly declared `ThickLineParams`, before any field is filled. */
  const Blank: Params := Params(Origin, Origin, 0.0, 0.0, 0.0, TypeNone, 0.0, 0.0, TypeNone, 0.0, 0.0,
                                0.0, Origin, Origin, Origin, Origin, Origin, Origin)

  /** The host's square root is exact at the squared distance of the picks, the one value `vlen` needs. */
  ghost predicate SqrtExactFor(inp: Inputs, sqrt: real -> real)
  {
    SqrtExactAt(sqrt, Dot(Sub(inp.B, inp.A), Sub(inp.B, inp.A)))
  }

  /** A feature size as read: the dialog value when the end has a feature, 0 when its type is "None". */
  function FeatureSize(featType: string, size: real): real
  {
    if featType != TypeNone then size else 0.0
  }

  /**
   * The derivation as a specification: fails on coincident picks; otherwise the
   * tips lie `lead` outside the picks along the baseline and the bases lie the
   * feature length inside the tips.
   */
  function Derive(inp: Inputs, sqrt: real -> real): Result<Params, string>
  {
    var diff := Sub(inp.B, inp.A);
    var L := Len(diff, sqrt);
    if L <= EpsCoincident then Failure(MsgCoincident)
    else
      var Ldir := Scale(diff, 1.0 / L);
      var aL := FeatureSize(inp.featAType, inp.featALCm);
      var bL := FeatureSize(inp.featBType, inp.featBLCm);
      var Aext := Add(inp.A, Scale(Ldir, -inp.leadACm));
      var Bext := Add(inp.B, Scale(Ldir, inp.leadBCm));
      Success(Params(inp.A, inp.B, inp.widthCm, inp.leadACm, inp.leadBCm,
                     inp.featAType, FeatureSize(inp.featAType, inp.featAWCm), aL,
                     inp.featBType, FeatureSize(inp.featBType, inp.featBWCm), bL,
                     L, Ldir, PerpCcw(Ldir),
                     Aext, Bext, Add(Aext, Scale(Ldir, aL)), Add(Bext, Scale(Ldir, -bL))))
  }

  /** `extractParams`: fills the bundle field by field and stops at the coincidence guard. */
  method ExtractParams(inp: Inputs, sqrt: real -> real) returns (ok: bool, P: Params, err: string)
    ensures ok <==> Derive(inp, sqrt).Success?
    ensures ok ==> P == Derive(inp, sqrt).value
    ensures !ok ==> err == Derive(inp, sqrt).error
  {
    P := Blank;
    err := "";
    P := P.(widthCm := inp.widthCm);
    P := P.(leadACm := inp.leadACm);
    P := P.(leadBCm := inp.leadBCm);
    P := P.(featAType := inp.featAType);
    P := P.(featBType := inp.featBType);
    P := P.(featAWCm := if P.featAType != TypeNone then inp.featAWCm else 0.0);
    P := P.(featALCm := if P.featAType != TypeNone then inp.featALCm else 0.0);
    P := P.(featBWCm := if P.featBType != TypeNone then inp.featBWCm else 0.0);
    P := P.(featBLCm := if P.featBType != TypeNone then inp.featBLCm else 0.0);
    P := P.(A := inp.A);
    P := P.(B := inp.B);

    var diff := Sub(P.B, P.A);
    P := P.(L := Len(diff, sqrt));
    if P.L <= EpsCoincident {
      err := MsgCoincident;
      ok := false;
      return;
    }
    P := P.(Ldir := Scale(diff, 1.0 / P.L));
    P := P.(Wdir := PerpCcw(P.Ldir));

    P := P.(Aext := Add(P.A, Scale(P.Ldir, -P.leadACm)));
    P := P.(Bext := Add(P.B, Scale(P.Ldir, P.leadBCm)));

    P := P.(Abase := Add(P.Aext, Scale(P.Ldir, P.featALCm)));
    P := P.(Bbase := Add(P.Bext, Scale(P.Ldir, -P.featBLCm)));
    ok := true;
  }

  /**
   * The guard depends on the picks only: derivation fails, with the coincidence
   * message, exactly when the squared distance of A and B is at most 1e-24.
   */
  lemma DeriveFailsIffCoincident(inp: Inputs, sqrt: real -> real)
    requires SqrtExactFor(inp, sqrt)
    ensures var d := Sub(inp.B, inp.A);
            Derive(inp, sqrt).Failure? <==> Dot(d, d) <= EpsCoincident * EpsCoincident
    ensures Derive(inp, sqrt).Failure? ==> Derive(inp, sqrt).error == MsgCoincident
  {
    var d := Sub(inp.B, inp.A);
    var L := Len(d, sqrt);
    assert 0.0 <= L && L * L == Dot(d, d);
    SquareBelow(L, EpsCoincident);
  }

  /** Any two square roots that are exact where `vlen` needs them give the same bundle. */
  lemma DeriveIndependentOfSqrt(inp: Inputs, sqrt1: real -> real, sqrt2: real -> real)
    requires SqrtExactFor(inp, sqrt1) && SqrtExactFor(inp, sqrt2)
    ensures Derive(inp, sqrt1) == Derive(inp, sqrt2)
  {
    var d := Sub(inp.B, inp.A);
    RootUnique(Len(d, sqrt1), Len(d, sqrt2));
  }

  /** On success `Ldir` is the unit vector from A to B and `Wdir` its counter-clockwise normal. */
  lemma DeriveFrame(inp: Inputs, sqrt: real -> real)
    requires SqrtExactFor(inp, sqrt)
    requires Derive(inp, sqrt).Success?
    ensures var P := Derive(inp, sqrt).value;
            && P.L > EpsCoincident
            && P.L * P.L == Dot(Sub(inp.B, inp.A), Sub(inp.B, inp.A))
            && Scale(P.Ldir, P.L) == Sub(inp.B, inp.A)
            && Dot(P.Ldir, P.Ldir) == 1.0
            && P.Wdir == V2(-P.Ldir.y, P.Ldir.x)
            && Dot(P.Wdir, P.Ldir) == 0.0
            && Dot(P.Wdir, P.Wdir) == 1.0
  {
    var P := Derive(inp, sqrt).value;
    var d := Sub(inp.B, inp.A);
    assert P.L == Len(d, sqrt) && P.Ldir == Scale(d, 1.0 / P.L) && P.Wdir == PerpCcw(P.Ldir);
    UnitDirection(d, P.L);
    PerpCcwNormal(P.Ldir);
  }

  /** A vector scaled by the reciprocal of its length has length 1 and scales back to the vector. */
  lemma UnitDirection(d: V2, L: real)
    requires L > 0.0 && L * L == Dot(d, d)
    ensures Scale(Scale(d, 1.0 / L), L) == d
    ensures Dot(Scale(d, 1.0 / L), Scale(d, 1.0 / L)) == 1.0
  {
    UndoScale(d.x, L);
    UndoScale(d.y, L);
    Normalised(d.x, d.y, L);
  }

  /** Scaling by 1/L and then by L is the identity. */
  lemma UndoScale(c: real, L: real)
    requires L != 0.0
    ensures c * (1.0 / L) * L == c
  {
    assert (1.0 / L) * L == 1.0;
    assert c * (1.0 / L) * L == c * ((1.0 / L) * L);
  }

  /** A vector divided by its length has length 1. */
  lemma Normalised(dx: real, dy: real, L: real)
    requires L > 0.0 && L * L == dx * dx + dy * dy
    ensures dx * (1.0 / L) * (dx * (1.0 / L)) + dy * (1.0 / L) * (dy * (1.0 / L)) == 1.0
  {
    var inv := 1.0 / L;
    assert inv * L == 1.0;
    assert dx * inv * (dx * inv) == dx * dx * (inv * inv);
    assert dy * inv * (dy * inv) == dy * dy * (inv * inv);
    assert (dx * dx + dy * dy) * (inv * inv) == (L * inv) * (L * inv);
  }

  /**
   * On success the span between the feature bases lies along `Ldir` and its
   * signed length is L + leadA + leadB - featAL - featBL.
   */
  lemma DeriveSegment(inp: Inputs, sqrt: real -> real)
    requires SqrtExactFor(inp, sqrt)
    requires Derive(inp, sqrt).Success?
    ensures var P := Derive(inp, sqrt).value;
            var span := P.L + P.leadACm + P.leadBCm - P.featALCm - P.featBLCm;
            && Sub(P.Bbase, P.Abase) == Scale(P.Ldir, span)
            && Dot(Sub(P.Bbase, P.Abase), P.Ldir) == span
  {
    var P := Derive(inp, sqrt).value;
    DeriveFrame(inp, sqrt);
    assert P.Abase == Add(Add(inp.A, Scale(P.Ldir, -P.leadACm)), Scale(P.Ldir, P.featALCm));
    assert P.Bbase == Add(Add(inp.B, Scale(P.Ldir, P.leadBCm)), Scale(P.Ldir, -P.featBLCm));
    ShiftedSegment(inp.A, inp.B, P.Ldir, P.L, P.leadACm, P.leadBCm, P.featALCm, P.featBLCm);
  }

  /**
   * Moving the ends of a segment of length L along its unit direction u (A back by la then
   * forward by fa, B forward by lb then back by fb) leaves a segment along u of length
   * L + la + lb - fa - fb.
   */
  lemma ShiftedSegment(A: V2, B: V2, u: V2, L: real, la: real, lb: real, fa: real, fb: real)
    requires Scale(u, L) == Sub(B, A)
    requires Dot(u, u) == 1.0
    ensures var Abase := Add(Add(A, Scale(u, -la)), Scale(u, fa));
            var Bbase := Add(Add(B, Scale(u, lb)), Scale(u, -fb));
            var span := L + la + lb - fa - fb;
            && Sub(Bbase, Abase) == Scale(u, span)
            && Dot(Sub(Bbase, Abase), u) == span
  {
    ShiftedCoordinate(A.x, B.x, u.x, L, la, lb, fa, fb);
    ShiftedCoordinate(A.y, B.y, u.y, L, la, lb, fa, fb);
    DotScaleLeft(u, L + la + lb - fa - fb, u);
  }

  /** `ShiftedSegment` on one coordinate. */
  lemma ShiftedCoordinate(a: real, b: real, u: real, L: real, la: real, lb: real, fa: real, fb: real)
    requires u * L == b - a
    ensures (b + u * lb + u * -fb) - (a + u * -la + u * fa) == u * (L + la + lb - fa - fb)
  {
    assert u * (L + la + lb - fa - fb) == u * L + u * la + u * lb - u * fa - u * fb;
  }

  /** On success the tips and bases are where the derivation puts them, measured along `Ldir`. */
  lemma DeriveTips(inp: Inputs, sqrt: real -> real)
    requires Derive(inp, sqrt).Success?
    ensures var P := Derive(inp, sqrt).value;
            && P.Aext == Add(inp.A, Scale(P.Ldir, -inp.leadACm))
            && P.Bext == Add(inp.B, Scale(P.Ldir, inp.leadBCm))
            && P.Abase == Add(P.Aext, Scale(P.Ldir, P.featALCm))
            && P.Bbase == Add(P.Bext, Scale(P.Ldir, -P.featBLCm))
  {
  }

  /** An end whose type is "None" has no feature: its sizes are 0 and its base is its tip. */
  lemma DeriveInactiveEnds(inp: Inputs, sqrt: real -> real)
    requires SqrtExactFor(inp, sqrt)
    requires Derive(inp, sqrt).Success?
    ensures var P := Derive(inp, sqrt).value;
            && (inp.featAType == TypeNone ==> P.featAWCm == 0.0 && P.featALCm == 0.0 && P.Abase == P.Aext)
            && (inp.featAType != TypeNone ==> P.featAWCm == inp.featAWCm && P.featALCm == inp.featALCm)
            && (inp.featBType == TypeNone ==> P.featBWCm == 0.0 && P.featBLCm == 0.0 && P.Bbase == P.Bext)
            && (inp.featBType != TypeNone ==> P.featBWCm == inp.featBWCm && P.featBLCm == inp.featBLCm)
  {
  }

  /** The geometric facts a successfully derived bundle satisfies, as the shape generator uses them. */
  ghost predicate Oriented(P: Params)
  {
    && Dot(P.Ldir, P.Ldir) == 1.0
    && P.Wdir == PerpCcw(P.Ldir)
    && P.Aext == Sub(P.Abase, Scale(P.Ldir, P.featALCm))
    && P.Bext == Add(P.Bbase, Scale(P.Ldir, P.featBLCm))
    && Sub(P.Bbase, P.Abase) == Scale(P.Ldir, Dot(Sub(P.Bbase, P.Abase), P.Ldir))
  }

  lemma DerivedIsOriented(inp: Inputs, sqrt: real -> real)
    requires SqrtExactFor(inp, sqrt)
    requires Derive(inp, sqrt).Success?
    ensures Oriented(Derive(inp, sqrt).value)
  {
    var P := Derive(inp, sqrt).value;
    DeriveFrame(inp, sqrt);
    DeriveSegment(inp, sqrt);
    var u := P.Ldir;
    assert P.Aext == Sub(P.Abase, Scale(u, P.featALCm));
    assert P.Bext == Add(P.Bbase, Scale(u, P.featBLCm));
  }
}
