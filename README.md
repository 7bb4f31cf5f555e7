# ThickLine: a verified model of the parameter core

ThickLine is a sketch command for Autodesk Fusion. The user picks two points, A and B, and sets a
line width, a lead for each end and an optional end feature at each end: an arrow or a T. The
command then draws a "thick line": a rectangle along the baseline from A to B, plus a triangle or
a small rectangle at each end. The last-used dialog values are kept in a small `key=value`
settings file.

This project models the computational core of `ThickLine.cpp` in Dafny and proves properties of
it:

- **`Vectors`** holds the 2-D vector helpers (`vadd`, `vsub`, `vscale`, `vdot`, `vperp_ccw`,
  `vlen`). Points are exact reals. The square root is passed in as a function `sqrt`. The lemmas
  that need it require only that it is exact at the one value where `vlen` uses it.
- **`Derivation`** holds `extractParams` once the host has supplied the picks in sketch space and
  the dialog values.
  - The method `ExtractParams` fills the parameter bundle field by field, as the source does. It
    is proved equal to the specification function `Derive`.
  - The lemmas describe the coincidence guard, the unit direction and its normal, the tips moved
    out by the leads, and the feature bases moved in from the tips.
- **`Validation`** holds `validateParams`. Its seven checks run in priority order, and the first
  failing check is the reason reported.
  - `Validate` is specified against an order-free predicate `Holds(P, check)` and a rank for each
    check.
  - The lemmas state the verdict for derived bundles in terms of the picks' distance, the leads
    and the feature lengths.
- **`Shapes`** holds the execute handler. It extracts and validates, then computes the corner
  triples passed to `drawThreePointRect` and `drawTriangle`.
  - The method `Execute` records the drawing requests as a sequence of `Shape` values. It is
    proved equal to the specification function `Run`.
  - The lemmas prove the geometry: the main body is a true rectangle of the line's width centred
    on the baseline, an arrow's apex is the tip, and a T's far side is centred on the tip.
  - After drawing, the handler copies the bundle into the settings it saves (`SettingsOf`).
- **`Scenarios`** holds worked examples: picks on the x axis carried from the dialog values
  through the derivation, the validator and the shape generator; the command run with the default
  settings; and the dialog reopened with the settings a run saved.
- **`SettingsIni`** holds the settings defaults, `saveSettingsIni` as the nine lines it writes,
  and `loadSettingsIni`.
  - `loadSettingsIni` is modelled as a loop over the file's lines. It is proved equal to the
    line-by-line specification `LoadLines`.
  - The lemmas cover skipped lines, unknown keys and rejected numbers, and the save/load round
    trip.
  - Number formatting (`operator<<`) and parsing (`std::stod`) are passed in as `fmt` and
    `parse`.

The leads move the tips outward: the tip at A is `A - leadA * Ldir` and the tip at B is
`B + leadB * Ldir`. So the main segment has length `L + leadA + leadB - featAL - featBL`, and a
larger lead makes the segment longer. The message "Leads and/or feature lengths consume the
segment" suggests that leads shorten it. The model follows the code, and `Validation.DerivedVerdict`
states the pass condition that holds for the code.

The settings saved after a run come from the derived bundle, not from the dialog. An end of type
"None" has its sizes set to 0 by the derivation, so it is saved with width 0 and length 0. The next
dialog opens with those values. If the user then switches that end to an arrow or a T without
retyping its width, the run is rejected with "Feature A width must be >= line width." (or B's
message). `Shapes.SavedAfterRun` and `Scenarios.ArrowAfterNoneRejected` state this.

## Model

| member | source | states |
|---|---|---|
| Vectors.Add | ThickLine.cpp:245 | definition, no contract: componentwise sum |
| Vectors.Sub | ThickLine.cpp:246 | definition, no contract: componentwise difference |
| Vectors.Scale | ThickLine.cpp:247 | definition, no contract: both components times the factor |
| Vectors.Len | ThickLine.cpp:248 | definition, no contract: the host's square root of the squared length |
| Vectors.Dot | ThickLine.cpp:249 | definition, no contract: sum of the componentwise products |
| Vectors.PerpCcw | ThickLine.cpp:250 | definition, no contract: (-y, x) |
| Vectors.PerpCcwNormal | ThickLine.cpp:250 | the normal is orthogonal to its argument and as long; it is the counter-clockwise one: the cross product of the argument with it is the squared length, positive for a non-zero argument |
| Derivation.FeatureSize | ThickLine.cpp:322-325 | definition, no contract: the dialog size for an end with a feature, 0 for type "None" |
| Derivation.Derive | ThickLine.cpp:355-374 | definition, no contract: the coincidence guard, then L, Ldir, Wdir, the tips and the bases |
| Derivation.ExtractParams | ThickLine.cpp:322-374 | fills the bundle field by field; it succeeds exactly when the specification `Derive` does, and then yields the same bundle; otherwise it yields the same error text |
| Derivation.DeriveFailsIffCoincident | ThickLine.cpp:356-364 | derivation fails exactly when the squared distance of A and B is at most 1e-12 squared, and then it reports the coincidence message |
| Derivation.DeriveIndependentOfSqrt | ThickLine.cpp:359 | any two square roots that are exact at the squared distance produce the same bundle |
| Derivation.DeriveFrame | ThickLine.cpp:359-366 | on success L exceeds 1e-12 and is the exact length of B - A; Ldir has length 1 and L * Ldir = B - A; Wdir is (-Ldir.y, Ldir.x), orthogonal to Ldir and of length 1 |
| Derivation.UnitDirection | ThickLine.cpp:365 | a vector divided by its exact length has length 1, and multiplying back gives the vector |
| Derivation.DeriveSegment | ThickLine.cpp:369-374 | the segment from Abase to Bbase lies along Ldir with signed length L + leadA + leadB - featAL - featBL |
| Derivation.ShiftedSegment | ThickLine.cpp:369-374 | moving the ends of a segment along its unit direction by the leads and the feature lengths leaves a segment along that direction, of the stated length |
| Derivation.DeriveInactiveEnds | ThickLine.cpp:322-325 | an end of type "None" gets feature sizes 0 and a base equal to its tip; any other type keeps the dialog sizes |
| Derivation.DerivedIsOriented | ThickLine.cpp:365-374 | every derived bundle satisfies the frame facts the shape generator relies on: unit direction, normal, tips one feature length beyond the bases, and a segment along Ldir |
| Validation.Message | ThickLine.cpp:383-431 | definition, no contract: the text reported for each failing check |
| Validation.SegmentLength | ThickLine.cpp:424-428 | definition, no contract: the signed length of Bbase - Abase along Ldir |
| Validation.Holds | ThickLine.cpp:383-431 | definition, no contract: what each of the seven checks demands, independently of their order |
| Validation.Validate | ThickLine.cpp:380-434 | the bundle passes exactly when all seven checks hold; a failure names a check that does not hold, and every check ranked before it holds |
| Validation.FirstFailureReported | ThickLine.cpp:380-434 | the first failing check, in priority order, is the one reported |
| Validation.WidthCheckedFirst | ThickLine.cpp:383-387 | a non-positive width is reported with its message, whatever else the bundle holds |
| Validation.NarrowFeatureRejected | ThickLine.cpp:397-416 | a feature narrower than the line is reported with its end's width message once the earlier checks pass |
| Validation.DerivedVerdict | ThickLine.cpp:424-431 | for a derived bundle with acceptable sizes, the verdict is Pass exactly when featAL + featBL < L + leadA + leadB - 1e-9, and otherwise the segment message is reported; the coincidence check never fires |
| Validation.ShorterFeaturesStillPass | ThickLine.cpp:424-431 | with the picks and leads fixed, shorter feature lengths that keep the sizes acceptable still pass |
| Shapes.MainRect | ThickLine.cpp:562-573 | definition, no contract: the three-point rectangle (Abase + wHalf, Bbase + wHalf, Abase - wHalf) |
| Shapes.EndFeature | ThickLine.cpp:575-605 | definition, no contract: the arrow triangle or T rectangle at one end, nothing for any other type |
| Shapes.FeatureA | ThickLine.cpp:575-589 | definition, no contract: the end feature at A, its depth along -Ldir |
| Shapes.FeatureB | ThickLine.cpp:591-605 | definition, no contract: the end feature at B, its depth along +Ldir |
| Shapes.AllShapes | ThickLine.cpp:562-605 | definition, no contract: the main rectangle, then feature A, then feature B |
| Shapes.Run | ThickLine.cpp:556-605 | definition, no contract: derive, validate, and draw only when both succeed |
| Shapes.SettingsOf | ThickLine.cpp:607-616 | definition, no contract: the settings record holding the bundle's width, leads, types and feature sizes |
| Shapes.Execute | ThickLine.cpp:553-616 | draws nothing and reports the derivation's or validator's message on failure, and then leaves the settings record at its defaults (nothing is saved); otherwise issues exactly the requests of `Run` (the main rectangle, then feature A, then feature B) and fills the settings to save with `SettingsOf` of the derived bundle |
| Shapes.CopySettings | ThickLine.cpp:607-616 | filling a default settings record field by field from the bundle gives `SettingsOf` of the bundle |
| Shapes.SavedAfterRun | ThickLine.cpp:607-616 | a successful run saves the width and leads as entered and both types; an end with a feature saves its dialog sizes, at least the line width wide and of positive length; an end of type "None" saves width 0 and length 0 |
| Shapes.MainRectGeometry | ThickLine.cpp:562-573 | the main body's long side runs from Abase to Bbase along Ldir, with length above 1e-9; its short side is the line width along -Wdir, at a right angle; it closes at Bbase - wHalf and is centred on the baseline at both ends |
| Shapes.PerpendicularSides | ThickLine.cpp:573 | a side along a unit direction and a side along its normal meet at a right angle |
| Shapes.FeatureAGeometry | ThickLine.cpp:575-589 | at A, an arrow's apex is the tip Aext, featAL out from the base, with a base of full feature width centred on Abase; a T is a featAL by featAW rectangle from Abase to Aext; "None" draws nothing; an active feature is at least as wide as the line and has positive length |
| Shapes.FeatureBGeometry | ThickLine.cpp:591-605 | the same at B, with the depth along +Ldir towards Bext |
| Shapes.EndFeatureFacts | ThickLine.cpp:576-588 | the arrow and T corner formulas have the stated shape for any base, tip, direction and size |
| Shapes.RunReportsFirstFailure | ThickLine.cpp:556-560 | coincident picks are reported before anything else, even a bad width; otherwise a bad width is reported first; a successful run has validated its bundle and draws the main rectangle first |
| Scenarios.OnX | ThickLine.cpp:322-353 | definition, no contract: the dialog for picks (0,0) and (b,0) without leads, with a feature at A only |
| Scenarios.OnAxis | ThickLine.cpp:355-374 | definition, no contract: the bundle with length b, direction (1,0), normal (0,1), and tips and bases on the x axis |
| Scenarios.DeriveOnAxis | ThickLine.cpp:355-374 | for picks (0,0) and (b,0) with b above 1e-12, whatever the leads, types and sizes, the derivation yields the bundle `OnAxis` |
| Scenarios.NoEndFeatures | ThickLine.cpp:575-605 | a bundle whose two end types are "None" draws the main rectangle alone |
| Scenarios.PlainLine | ThickLine.cpp:562-573 | for picks (0,0) and (b,0), b above 1e-9, width w > 0 and no features, the run draws one rectangle given by (0, w/2), (b, w/2), (0, -w/2) |
| Scenarios.NarrowArrow | ThickLine.cpp:397-403 | for picks (0,0) and (b,0), an arrow at A narrower than the line is rejected with A's width message, whatever its length |
| Scenarios.PlainLineScenario | ThickLine.cpp:562-573 | for picks (0,0) and (10,0), width 2 and no features, the run draws one rectangle given by (0,1), (10,1), (0,-1), whose fourth corner is (10,-1) |
| Scenarios.NarrowArrowScenario | ThickLine.cpp:397-403 | for the same picks and width, an arrow 1 wide and 20 long at A is rejected with the width message |
| Scenarios.Selected | ThickLine.cpp:677-679 | the type a dropdown opens with is always one of "None", "Arrow" and "T": a saved name of one of them selects that item, and any other name selects none, which reads as "None" (ThickLine.cpp:314) |
| Scenarios.FromSettings | ThickLine.cpp:649-709 | definition, no contract: the dialog opened with the values of the saved settings, each type through `Selected`, and the picks |
| Scenarios.UnknownTypeOpensAsNone | ThickLine.cpp:677-679 | a saved type at A that names no dropdown item opens as an end without a feature, whose sizes the derivation reads as 0 whatever the file holds |
| Scenarios.PlainDrawsWhenApart | ThickLine.cpp:355-431 | a line without leads and features, of positive width, draws exactly when the picks are more than 1e-9 apart, and then it draws exactly `[MainRect(P)]` of the derived bundle P |
| Scenarios.DefaultsDrawWhenApart | ThickLine.cpp:50-60 | with the default settings (`SettingsIni.Defaults`), the command draws exactly when the picks are more than 1e-9 apart, and then it draws exactly the main rectangle of the derived bundle and nothing else |
| Scenarios.Reopened | ThickLine.cpp:607-629 | definition, no contract: the settings the next dialog opens with, i.e. those a run saved, written out and read back |
| Scenarios.ArrowWithoutWidthRejected | ThickLine.cpp:397-403 | an arrow at A of width 0 on a line of positive width is rejected with A's width message, wherever the picks lie |
| Scenarios.ArrowAfterNoneRejected | ThickLine.cpp:607-629 | after a successful run with no feature at A, if the parser reads 0 and the width back from their printed forms, the reopened dialog holds A's width as 0; choosing an arrow at A and keeping that width is rejected with A's width message |
| SettingsIni.SaveLines | ThickLine.cpp:91-101 | definition, no contract: the nine `key=value` lines, in the order written |
| SettingsIni.SetNumber | ThickLine.cpp:126-133 | definition, no contract: a number stored under its numeric key; any other key changes nothing |
| SettingsIni.ApplyLine | ThickLine.cpp:115-138 | definition, no contract: one line split at its first `=` and stored under its key |
| SettingsIni.LoadLines | ThickLine.cpp:114-139 | definition, no contract: the lines applied in file order |
| SettingsIni.IndexOf | ThickLine.cpp:115 | `find` gives no position exactly when the character is absent; otherwise it gives its first occurrence |
| SettingsIni.LoadSettingsIni | ThickLine.cpp:107-141 | without a file the result is the defaults of ThickLine.cpp:50-60; otherwise it is the defaults with every line applied in order |
| SettingsIni.EntrySplits | ThickLine.cpp:115-119 | a `key=value` line whose key has no `=` splits back into that key and that value |
| SettingsIni.LoadLinesConcat | ThickLine.cpp:114-139 | lines apply in file order: loading a file split in two is loading the first part, then continuing with the second |
| SettingsIni.LineWithoutSeparatorIgnored | ThickLine.cpp:116 | a line without `=` changes nothing |
| SettingsIni.UnknownKeyIgnored | ThickLine.cpp:121-134 | a line with an unrecognised key changes nothing, whatever its value |
| SettingsIni.BadNumberSkipped | ThickLine.cpp:126-138 | a numeric line whose value the parser rejects loads as if it were absent, and parsing carries on |
| SettingsIni.TypeEntryStored | ThickLine.cpp:122-123 | a type line stores its value verbatim in its own field |
| SettingsIni.NumberEntryStored | ThickLine.cpp:126-133 | a numeric line sets only its own field, to the parsed value, or keeps the old value when parsing fails |
| SettingsIni.LoadFirstLine | ThickLine.cpp:114 | loading applies the first line, then the rest |
| SettingsIni.SaveThenLoad | ThickLine.cpp:91-101 | loading a saved file gives back the type strings verbatim, and for each number what the parser makes of its printed form |
| SettingsIni.SaveLoadRoundTrip | ThickLine.cpp:91-101 | if the parser reads each of the seven saved numbers back from its printed form, loading what was saved gives back exactly the saved settings, whatever the starting values |
| SettingsIni.TypeStringsRoundTrip | ThickLine.cpp:93-98 | the feature types survive a save and a load, whatever the printer and parser do |

The defaults of ThickLine.cpp:50-60 are the constant `SettingsIni.Defaults`; the rows for
`SettingsIni.LoadSettingsIni` and `Scenarios.DefaultsDrawWhenApart` state what they are used for.

## Helper lemmas

These carry arithmetic or literal facts that the lemmas above use; they state nothing about the
program on their own: `Vectors.DotScaleLeft`, `Vectors.DotScaleBoth`, `Vectors.RootUnique`,
`Vectors.SquareBelow`, `Vectors.SquareMonotone`, `Derivation.UndoScale`, `Derivation.Normalised`,
`Derivation.ShiftedCoordinate`, `Derivation.DeriveTips` (the tip and base lines of `Derive`),
`Scenarios.RunOfBundle` (the match of `Run`), `Scenarios.DefaultsOpenPlain`,
`Scenarios.TypeNamesDistinct`, `Scenarios.RootOnX`, `Scenarios.AxisFrame`, `Scenarios.AxisTips`,
`Scenarios.BundleOnAxis`, `Scenarios.NormalOfUnitX`, `Scenarios.AxisFacts`, `Scenarios.UnitAlongX`,
`Scenarios.PlainCorner` and `Scenarios.NarrowArrowOnAxis`.

## Left out

- Host API reads in `extractParams` (ThickLine.cpp:293-353) and their helpers (ThickLine.cpp:210-240) are not modelled. These are the sketch and selection lookups, `worldPointFromEntity`, `modelToSketchSpace`, and their "missing input" errors. `Inputs` carries the projected picks and the raw dialog values.
- Derivation.ExtractParams: the null checks on the feature inputs at ThickLine.cpp:322-325 (`&& featAWIn`) are not modelled; the dialog always supplies the inputs.
- Drawing (`drawThreePointRect`, `drawTriangle`, ThickLine.cpp:437-465) is not modelled as sketch calls. The model records each request as a `Shape` value.
- The dialog, its event handlers, dropdown visibility, logging and add-in start-up (ThickLine.cpp:143-208, 466-552, 621-812) are UI and are not modelled, except for the values the dialog opens with (`Scenarios.FromSettings`).
- The settings path, file opening and the `false` returned when the file cannot be written (ThickLine.cpp:63-90, 103) are I/O. A file is a sequence of lines, and a missing file is `None`.
- Writing the saved settings to disk and logging the path (ThickLine.cpp:617-619) are I/O. The lines written are `SaveLines` of the record `Execute` fills.
- Doubles are exact reals. `std::sqrt`, `std::stod` and `operator<<` are parameters (`sqrt`, `parse`, `fmt`). Rounding, NaN and infinities are not modelled.
- Vectors.Len: no contract of its own. Its properties are stated where they are needed, under the assumption that `sqrt` is exact at that one value.
- The unused values in the execute handler are not modelled. These are `seg` and `Bminus` (ThickLine.cpp:566, 571) and the far T corners `aR1` and `bR1` (ThickLine.cpp:587, 603).
- SettingsIni.SaveThenLoad: assumes that a type string contains no line break. Such a string would split into two lines in the real file.
- Scenarios: the examples need the host's square root only at b * b, where it is assumed to return b; `RootOnX` obtains this from an exact root.
