/**
 * The settings codec: the fixed nine-line `key=value` file written by
 * `saveSettingsIni` and the tolerant line parser of `loadSettingsIni`.
 * The file is a sequence of lines. Number formatting (`operator<<`) and
 * number parsing (`std::stod`) are the C++ library's and are passed in as
 * `fmt` and `parse`.
 */
module SettingsIni {
  import opened Wrappers

  /** `ThickLineSettings`: the last-used dialog values. */
  datatype Settings = Settings(
    widthCm: real,
    featAType: string, leadACm: real, featALCm: real, featAWCm: real,
    featBType: string, leadBCm: real, featBLCm: real, featBWCm: real)

  const Defaults: Settings := Settings(0.2, "None", 0.0, 0.5, 0.5, "None", 0.0, 0.5, 0.5)

  const KeyWidth: string := "width_cm"
  const KeyFeatAType: string := "featAType"
  const KeyLeadA: string := "leadA_cm"
  const KeyFeatAL: string := "featAL_cm"
  const KeyFeatAW: string := "featAW_cm"
  const KeyFeatBType: string := "featBType"
  const KeyLeadB: string := "leadB_cm"
  const KeyFeatBL: string := "featBL_cm"
  const KeyFeatBW: string := "featBW_cm"

  /** The keys the parser recognises. */
  const Keys: set<string> :=
    {KeyWidth, KeyFeatAType, KeyLeadA, KeyFeatAL, KeyFeatAW, KeyFeatBType, KeyLeadB, KeyFeatBL, KeyFeatBW}

  function Entry(key: string, value: string): string
  {
    key + "=" + value
  }

  /** `saveSettingsIni`: one line per field, in a fixed order. */
  function SaveLines(s: Settings, fmt: real -> string): seq<string>
  {
    [ Entry(KeyWidth, fmt(s.widthCm)),
      Entry(KeyFeatAType, s.featAType),
      Entry(KeyLeadA, fmt(s.leadACm)),
      Entry(KeyFeatAL, fmt(s.featALCm)),
      Entry(KeyFeatAW, fmt(s.featAWCm)),
      Entry(KeyFeatBType, s.featBType),
      Entry(KeyLeadB, fmt(s.leadBCm)),
      Entry(KeyFeatBL, fmt(s.featBLCm)),
      Entry(KeyFeatBW, fmt(s.featBWCm)) ]
  }

  /** `std::string::find`: the position of the first occurrence of `c`, if any. */
  function IndexOf(line: string, c: char): (r: Option<nat>)
    ensures r.None? <==> c !in line
    ensures r.Some? ==> r.value < |line| && line[r.value] == c && c !in line[..r.value]
  {
    if |line| == 0 then None
    else if line[0] == c then Some(0)
    else
      match IndexOf(line[1..], c)
      case None => None
      case Some(i) =>
        assert line[..i + 1] == [line[0]] + line[1..][..i];
        Some(i + 1)
  }

  /** Stores a parsed number under a numeric key; any other key leaves the settings alone. */
  function SetNumber(s: Settings, key: string, v: real): Settings
  {
    if key == KeyWidth then s.(widthCm := v)
    else if key == KeyLeadA then s.(leadACm := v)
    else if key == KeyLeadB then s.(leadBCm := v)
    else if key == KeyFeatAL then s.(featALCm := v)
    else if key == KeyFeatAW then s.(featAWCm := v)
    else if key == KeyFeatBL then s.(featBLCm := v)
    else if key == KeyFeatBW then s.(featBWCm := v)
    else s
  }

  /**
   * One line of the parser: lines without `=` are skipped; the rest split at the
   * first `=`; the type keys take the value verbatim; every other key goes through
   * the number parser, and a value it rejects leaves the settings unchanged.
   */
  function ApplyLine(s: Settings, line: string, parse: string -> Option<real>): Settings
  {
    match IndexOf(line, '=')
    case None => s
    case Some(pos) =>
      var key := line[..pos];
      var value := line[pos + 1..];
      if key == KeyFeatAType then s.(featAType := value)
      else if key == KeyFeatBType then s.(featBType := value)
      else
        match parse(value)
        case None => s
        case Some(v) => SetNumber(s, key, v)
  }

  /** The settings after parsing `lines` in order, starting from `s`. */
  function LoadLines(s: Settings, lines: seq<string>, parse: string -> Option<real>): Settings
  {
    if lines == [] then s
    else ApplyLine(LoadLines(s, lines[..|lines| - 1], parse), lines[|lines| - 1], parse)
  }

  /** `loadSettingsIni`: defaults when there is no file, otherwise every line applied in turn. */
  method LoadSettingsIni(file: Option<seq<string>>, parse: string -> Option<real>) returns (s: Settings)
    ensures file.None? ==> s == Defaults
    ensures file.Some? ==> s == LoadLines(Defaults, file.value, parse)
  {
    s := Defaults;
    if file.None? {
      return;
    }
    var lines := file.value;
    var i := 0;
    while i < |lines|
      invariant 0 <= i <= |lines|
      invariant s == LoadLines(Defaults, lines[..i], parse)
    {
      var line := lines[i];
      var pos := IndexOf(line, '=');
      if pos.Some? {
        var key := line[..pos.value];
        var value := line[pos.value + 1..];
        if key == KeyFeatAType {
          s := s.(featAType := value);
        } else if key == KeyFeatBType {
          s := s.(featBType := value);
        } else {
          var v := parse(value);
          if v.Some? {
            if key == KeyWidth { s := s.(widthCm := v.value); }
            else if key == KeyLeadA { s := s.(leadACm := v.value); }
            else if key == KeyLeadB { s := s.(leadBCm := v.value); }
            else if key == KeyFeatAL { s := s.(featALCm := v.value); }
            else if key == KeyFeatAW { s := s.(featAWCm := v.value); }
            else if key == KeyFeatBL { s := s.(featBLCm := v.value); }
            else if key == KeyFeatBW { s := s.(featBWCm := v.value); }
          }
        }
      }
      assert lines[..i + 1][..i] == lines[..i];
      i := i + 1;
    }
    assert lines[..i] == lines;
  }

  /** An entry whose key has no `=` splits back into that key and value, whatever the value holds. */
  lemma EntrySplits(key: string, value: string)
    requires '=' !in key
    ensures IndexOf(Entry(key, value), '=') == Some(|key|)
    ensures Entry(key, value)[..|key|] == key
    ensures Entry(key, value)[|key| + 1..] == value
  {
    var line := Entry(key, value);
    assert line[..|key|] == key;
    assert line[|key|] == '=';
    assert line[|key| + 1..] == value;
  }

  /** Loading runs the lines in order: a file split in two loads as its first part continued with its second. */
  lemma {:induction false} LoadLinesConcat(s: Settings, front: seq<string>, back: seq<string>, parse: string -> Option<real>)
    ensures LoadLines(s, front + back, parse) == LoadLines(LoadLines(s, front, parse), back, parse)
  {
    if back == [] {
      assert front + back == front;
    } else {
      var n := |back| - 1;
      assert (front + back)[..|front + back| - 1] == front + back[..n];
      LoadLinesConcat(s, front, back[..n], parse);
    }
  }

  /** A line without `=` is skipped. */
  lemma LineWithoutSeparatorIgnored(s: Settings, line: string, parse: string -> Option<real>)
    requires '=' !in line
    ensures ApplyLine(s, line, parse) == s
  {
  }

  /** A line whose key is not recognised changes nothing, whatever its value. */
  lemma UnknownKeyIgnored(s: Settings, key: string, value: string, parse: string -> Option<real>)
    requires '=' !in key && key !in Keys
    ensures ApplyLine(s, Entry(key, value), parse) == s
  {
    EntrySplits(key, value);
  }

  /**
   * A line whose number does not parse leaves every field as it was and parsing
   * carries on: the file loads as if the line were not there.
   */
  lemma BadNumberSkipped(s: Settings, front: seq<string>, key: string, value: string, back: seq<string>,
                         parse: string -> Option<real>)
    requires '=' !in key && key != KeyFeatAType && key != KeyFeatBType
    requires parse(value).None?
    ensures LoadLines(s, front + [Entry(key, value)] + back, parse) == LoadLines(s, front + back, parse)
  {
    var bad := Entry(key, value);
    EntrySplits(key, value);
    assert ApplyLine(LoadLines(s, front, parse), bad, parse) == LoadLines(s, front, parse);
    LoadLinesConcat(s, front + [bad], back, parse);
    assert (front + [bad])[..|front|] == front;
    LoadLinesConcat(s, front, back, parse);
  }

  /** A well-formed type entry stores its value verbatim. */
  lemma TypeEntryStored(s: Settings, value: string, parse: string -> Option<real>)
    ensures ApplyLine(s, Entry(KeyFeatAType, value), parse) == s.(featAType := value)
    ensures ApplyLine(s, Entry(KeyFeatBType, value), parse) == s.(featBType := value)
  {
    EntrySplits(KeyFeatAType, value);
    EntrySplits(KeyFeatBType, value);
  }

  /** The value a numeric field holds after its entry is read: the parsed number, or the old value when parsing fails. */
  function Reparse(prior: real, text: string, parse: string -> Option<real>): real
  {
    match parse(text)
    case Some(v) => v
    case None => prior
  }

  /** A numeric entry sets only its own field, to the parsed number, and a rejected number changes nothing. */
  lemma NumberEntryStored(s: Settings, key: string, text: string, parse: string -> Option<real>)
    requires key in Keys && key != KeyFeatAType && key != KeyFeatBType
    ensures key == KeyWidth ==> ApplyLine(s, Entry(key, text), parse) == s.(widthCm := Reparse(s.widthCm, text, parse))
    ensures key == KeyLeadA ==> ApplyLine(s, Entry(key, text), parse) == s.(leadACm := Reparse(s.leadACm, text, parse))
    ensures key == KeyFeatAL ==> ApplyLine(s, Entry(key, text), parse) == s.(featALCm := Reparse(s.featALCm, text, parse))
    ensures key == KeyFeatAW ==> ApplyLine(s, Entry(key, text), parse) == s.(featAWCm := Reparse(s.featAWCm, text, parse))
    ensures key == KeyLeadB ==> ApplyLine(s, Entry(key, text), parse) == s.(leadBCm := Reparse(s.leadBCm, text, parse))
    ensures key == KeyFeatBL ==> ApplyLine(s, Entry(key, text), parse) == s.(featBLCm := Reparse(s.featBLCm, text, parse))
    ensures key == KeyFeatBW ==> ApplyLine(s, Entry(key, text), parse) == s.(featBWCm := Reparse(s.featBWCm, text, parse))
  {
    EntrySplits(key, text);
  }

  /** Loading runs the first line and then the rest. */
  lemma LoadFirstLine(s: Settings, lines: seq<string>, parse: string -> Option<real>)
    requires lines != []
    ensures LoadLines(s, lines, parse) == LoadLines(ApplyLine(s, lines[0], parse), lines[1..], parse)
  {
    LoadLinesConcat(s, [lines[0]], lines[1..], parse);
    assert [lines[0]] + lines[1..] == lines;
    assert [lines[0]][..0] == [];
  }

  /**
   * Loading a saved file gives the saved type strings verbatim and, for every
   * numeric field, what the parser makes of the printed number (the starting
   * value where it rejects it).
   */
  lemma SaveThenLoad(s: Settings, start: Settings, fmt: real -> string, parse: string -> Option<real>)
    ensures LoadLines(start, SaveLines(s, fmt), parse)
         == Settings(Reparse(start.widthCm, fmt(s.widthCm), parse),
                     s.featAType,
                     Reparse(start.leadACm, fmt(s.leadACm), parse),
                     Reparse(start.featALCm, fmt(s.featALCm), parse),
                     Reparse(start.featAWCm, fmt(s.featAWCm), parse),
                     s.featBType,
                     Reparse(start.leadBCm, fmt(s.leadBCm), parse),
                     Reparse(start.featBLCm, fmt(s.featBLCm), parse),
                     Reparse(start.featBWCm, fmt(s.featBWCm), parse))
  {
    var lines := SaveLines(s, fmt);
    var t0 := start;
    LoadFirstLine(t0, lines, parse);
    NumberEntryStored(t0, KeyWidth, fmt(s.widthCm), parse);
    var t1 := ApplyLine(t0, lines[0], parse);
    LoadFirstLine(t1, lines[1..], parse);
    TypeEntryStored(t1, s.featAType, parse);
    var t2 := ApplyLine(t1, lines[1], parse);
    LoadFirstLine(t2, lines[2..], parse);
    NumberEntryStored(t2, KeyLeadA, fmt(s.leadACm), parse);
    var t3 := ApplyLine(t2, lines[2], parse);
    LoadFirstLine(t3, lines[3..], parse);
    NumberEntryStored(t3, KeyFeatAL, fmt(s.featALCm), parse);
    var t4 := ApplyLine(t3, lines[3], parse);
    LoadFirstLine(t4, lines[4..], parse);
    NumberEntryStored(t4, KeyFeatAW, fmt(s.featAWCm), parse);
    var t5 := ApplyLine(t4, lines[4], parse);
    LoadFirstLine(t5, lines[5..], parse);
    TypeEntryStored(t5, s.featBType, parse);
    var t6 := ApplyLine(t5, lines[5], parse);
    LoadFirstLine(t6, lines[6..], parse);
    NumberEntryStored(t6, KeyLeadB, fmt(s.leadBCm), parse);
    var t7 := ApplyLine(t6, lines[6], parse);
    LoadFirstLine(t7, lines[7..], parse);
    NumberEntryStored(t7, KeyFeatBL, fmt(s.featBLCm), parse);
    var t8 := ApplyLine(t7, lines[7], parse);
    LoadFirstLine(t8, lines[8..], parse);
    NumberEntryStored(t8, KeyFeatBW, fmt(s.featBWCm), parse);
    var t9 := ApplyLine(t8, lines[8], parse);
    assert lines[8..][1..] == [];
  }

  /**
   * Loading what was saved gives back the saved settings, whatever the starting
   * values, provided the parser reads each saved number back from its printed form.
   */
  lemma SaveLoadRoundTrip(s: Settings, start: Settings, fmt: real -> string, parse: string -> Option<real>)
    requires parse(fmt(s.widthCm)) == Some(s.widthCm)
    requires parse(fmt(s.leadACm)) == Some(s.leadACm) && parse(fmt(s.leadBCm)) == Some(s.leadBCm)
    requires parse(fmt(s.featALCm)) == Some(s.featALCm) && parse(fmt(s.featAWCm)) == Some(s.featAWCm)
    requires parse(fmt(s.featBLCm)) == Some(s.featBLCm) && parse(fmt(s.featBWCm)) == Some(s.featBWCm)
    ensures LoadLines(start, SaveLines(s, fmt), parse) == s
  {
    SaveThenLoad(s, start, fmt, parse);
  }

  /** The type strings survive a save and a load whatever the number printer and parser do. */
  lemma TypeStringsRoundTrip(s: Settings, start: Settings, fmt: real -> string, parse: string -> Option<real>)
    ensures LoadLines(start, SaveLines(s, fmt), parse).featAType == s.featAType
    ensures LoadLines(start, SaveLines(s, fmt), parse).featBType == s.featBType
  {
    SaveThenLoad(s, start, fmt, parse);
  }
}
