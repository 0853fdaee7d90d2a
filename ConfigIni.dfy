/** The configuration reader: a process-wide cache of the parsed configuration, string
    helpers applied to the raw values (caret substitution, timestamp placeholder,
    boolean test) and the split-and-dispatch of a "value unit" string to a base unit.

    The parsed configuration is a map from (section, option) to the option's text after
    interpolation; reading the file and the unit library are parameters (oracles). */
module ConfigIni {
  import opened Wrappers

  /** Parsed configuration, read as the graph of config.get: (section, option) to the text
      config.get returns. configparser's own key handling (option names folded to lower
      case, options of the DEFAULT section visible in every section) is part of the parser
      and is taken to be already applied to the keys of this map. */
  type Config = map<(string, string), string>

  datatype ConfigError =
    | MissingOption(section: string, option: string)  // configparser's NoSectionError / NoOptionError
    | NotTwoTokens                                     // unpacking the split into value, unit
    | NotANumber(text: string)                         // float(value)
    | UndefinedUnit(unit: string)                      // building the quantity
    | ConversionFailed(unit: string)                   // the frequency conversion raised
    | UnsupportedUnit(unit: string)                    // no base unit converts

  // ---------------------------------------------------------------------------
  // str.replace

  /** pat occurs in s starting at i. */
  predicate OccursAt(s: string, pat: string, i: int)
  {
    0 <= i && i + |pat| <= |s| && s[i..i + |pat|] == pat
  }

  predicate Occurs(s: string, pat: string)
  {
    exists i :: 0 <= i <= |s| && OccursAt(s, pat, i)
  }

  /** Python's s.replace(pat, rep): every non-overlapping occurrence, scanning left to
      right, is replaced. */
  function ReplaceAll(s: string, pat: string, rep: string): (r: string)
    requires |pat| > 0
    ensures |rep| == |pat| ==> |r| == |s|
    ensures |rep| <= |pat| ==> |r| <= |s|
    decreases |s|
  {
    if |s| < |pat| then s
    else if s[..|pat|] == pat then rep + ReplaceAll(s[|pat|..], pat, rep)
    else [s[0]] + ReplaceAll(s[1..], pat, rep)
  }

  /** Text without the pattern comes back unchanged. */
  lemma {:induction false} ReplaceAbsent(s: string, pat: string, rep: string)
    requires |pat| > 0 && !Occurs(s, pat)
    ensures ReplaceAll(s, pat, rep) == s
    decreases |s|
  {
    if |s| >= |pat| {
      assert !OccursAt(s, pat, 0);
      assert !Occurs(s[1..], pat) by {
        forall i | OccursAt(s[1..], pat, i) ensures false {
          assert s[1..][i..i + |pat|] == s[i + 1..i + 1 + |pat|];
          assert OccursAt(s, pat, i + 1);
        }
      }
      ReplaceAbsent(s[1..], pat, rep);
    }
  }

  /** An occurrence at the front is replaced, and the scan resumes right after it. */
  lemma ReplaceLeading(pat: string, rest: string, rep: string)
    requires |pat| > 0
    ensures ReplaceAll(pat + rest, pat, rep) == rep + ReplaceAll(rest, pat, rep)
  {
    assert (pat + rest)[..|pat|] == pat;
    assert (pat + rest)[|pat|..] == rest;
  }

  /** When the replacement does not start with a character of w, a prefix w of the result
      was copied unchanged from the input. */
  lemma {:induction false} CopiedPrefix(t: string, pat: string, rep: string, w: string)
    requires |pat| > 0 && |rep| > 0 && rep[0] !in w
    ensures |w| <= |ReplaceAll(t, pat, rep)| && ReplaceAll(t, pat, rep)[..|w|] == w ==>
              |w| <= |t| && t[..|w|] == w
    decreases |t|
  {
    var r := ReplaceAll(t, pat, rep);
    assert |t| >= |pat| && t[..|pat|] == pat ==> r[0] == rep[0];
    assert |w| > 0 && |w| <= |r| && r[..|w|] == w ==> w[0] == r[0];
    if |t| >= |pat| && |w| > 0 && t[..|pat|] != pat {
      var rest := ReplaceAll(t[1..], pat, rep);
      assert r == [t[0]] + rest;
      CopiedPrefix(t[1..], pat, rep, w[1..]);
      if |w| <= |r| && r[..|w|] == w {
        assert rest[..|w| - 1] == w[1..];
        assert t[..|w|] == [t[0]] + t[1..][..|w| - 1];
      }
    }
  }

  /** No occurrence of the pattern survives the replacement when the pattern and the
      replacement cannot be spliced together: the replacement does not start with a
      character of the pattern, and the pattern does not start with a character of the
      replacement. */
  lemma {:induction false} ReplacedPatternGone(s: string, pat: string, rep: string)
    requires |pat| > 0 && |rep| > 0
    requires rep[0] !in pat && pat[0] !in rep
    ensures !Occurs(ReplaceAll(s, pat, rep), pat)
    decreases |s|
  {
    if |s| >= |pat| {
      if s[..|pat|] == pat {
        ReplacedPatternGone(s[|pat|..], pat, rep);
        GoneAfterReplacement(rep, ReplaceAll(s[|pat|..], pat, rep), pat);
      } else {
        ReplacedPatternGone(s[1..], pat, rep);
        CopiedPrefix(s, pat, rep, pat);
        GoneAfterCopy(s, pat, rep);
      }
    }
  }

  /** A replacement followed by pattern-free text holds no occurrence, when no character
      of the replacement starts the pattern. */
  lemma GoneAfterReplacement(rep: string, rest: string, pat: string)
    requires |pat| > 0 && pat[0] !in rep && !Occurs(rest, pat)
    ensures !Occurs(rep + rest, pat)
  {
    var r := rep + rest;
    forall i | 0 <= i <= |r| ensures !OccursAt(r, pat, i) {
      if i < |rep| {
        assert r[i] == rep[i];
      } else if i + |pat| <= |r| {
        assert r[i..i + |pat|] == rest[i - |rep|..i - |rep| + |pat|];
        assert !OccursAt(rest, pat, i - |rep|);
      }
    }
  }

  /** One copied character in front of pattern-free replaced text: an occurrence could
      only start at that character, and then the input itself would start with the pattern. */
  lemma GoneAfterCopy(s: string, pat: string, rep: string)
    requires |pat| > 0 && |rep| > 0 && |s| >= |pat| && s[..|pat|] != pat
    requires !Occurs(ReplaceAll(s[1..], pat, rep), pat)
    requires |pat| <= |ReplaceAll(s, pat, rep)| && ReplaceAll(s, pat, rep)[..|pat|] == pat ==>
               |pat| <= |s| && s[..|pat|] == pat
    ensures !Occurs(ReplaceAll(s, pat, rep), pat)
  {
    var r, rest := ReplaceAll(s, pat, rep), ReplaceAll(s[1..], pat, rep);
    assert r == [s[0]] + rest;
    forall i | 0 <= i <= |r| ensures !OccursAt(r, pat, i) {
      if i > 0 && i + |pat| <= |r| {
        assert r[i..i + |pat|] == rest[i - 1..i - 1 + |pat|];
        assert !OccursAt(rest, pat, i - 1);
      }
    }
  }

  // ---------------------------------------------------------------------------
  // replace_caret_with_double_asterisk

  function Count(s: string, c: char): (n: nat)
    ensures n <= |s|
  {
    if |s| == 0 then 0 else (if s[0] == c then 1 else 0) + Count(s[1..], c)
  }

  /** Every '^' becomes "**"; every other character is copied. */
  function ReplaceCaret(s: string): (r: string)
    ensures '^' !in r
    ensures '^' !in s ==> r == s
  {
    if |s| == 0 then ""
    else (if s[0] == '^' then "**" else [s[0]]) + ReplaceCaret(s[1..])
  }

  lemma {:induction false} CountAppend(a: string, b: string, c: char)
    ensures Count(a + b, c) == Count(a, c) + Count(b, c)
  {
    if |a| == 0 {
      assert a + b == b;
    } else {
      assert (a + b)[1..] == a[1..] + b;
      CountAppend(a[1..], b, c);
    }
  }

  /** Each caret adds one character to the length and two asterisks to the text. */
  lemma {:induction false} ReplaceCaretCounts(s: string)
    ensures |ReplaceCaret(s)| == |s| + Count(s, '^')
    ensures Count(ReplaceCaret(s), '*') == Count(s, '*') + 2 * Count(s, '^')
  {
    if |s| > 0 {
      var head := if s[0] == '^' then "**" else [s[0]];
      ReplaceCaretCounts(s[1..]);
      CountAppend(head, ReplaceCaret(s[1..]), '*');
    }
  }

  /** The substitution works piece by piece: the other characters keep their order. */
  lemma {:induction false} ReplaceCaretAppend(a: string, b: string)
    ensures ReplaceCaret(a + b) == ReplaceCaret(a) + ReplaceCaret(b)
  {
    if |a| == 0 {
      assert a + b == b;
    } else {
      assert (a + b)[1..] == a[1..] + b;
      ReplaceCaretAppend(a[1..], b);
    }
  }

  /** The character-wise substitution is Python's value.replace("^", "**"). */
  lemma {:induction false} ReplaceCaretIsReplace(s: string)
    ensures ReplaceCaret(s) == ReplaceAll(s, "^", "**")
  {
    if |s| > 0 {
      ReplaceCaretIsReplace(s[1..]);
      assert s[..1] == [s[0]];
    }
  }

  // ---------------------------------------------------------------------------
  // Timestamps

  /** A clock reading broken into calendar fields (datetime.now()). */
  datatype DateTime = DateTime(year: int, month: int, day: int, hour: int, minute: int, second: int)

  /** The ranges in which strftime writes each field with a fixed number of digits. */
  predicate FixedWidth(t: DateTime)
  {
    1000 <= t.year < 10000 && 0 <= t.month < 100 && 0 <= t.day < 100 &&
    0 <= t.hour < 100 && 0 <= t.minute < 100 && 0 <= t.second < 100
  }

  function Digit(d: int): (c: char)
    requires 0 <= d < 10
    ensures '0' <= c <= '9'
  {
    (48 + d) as char
  }

  function DigitValue(c: char): int
  {
    c as int - 48
  }

  function Pad2(n: int): (s: string)
    requires 0 <= n < 100
    ensures |s| == 2 && forall i :: 0 <= i < 2 ==> '0' <= s[i] <= '9'
  {
    [Digit(n / 10), Digit(n % 10)]
  }

  function Pad4(n: int): (s: string)
    requires 0 <= n < 10000
    ensures |s| == 4 && forall i :: 0 <= i < 4 ==> '0' <= s[i] <= '9'
  {
    Pad2(n / 100) + Pad2(n % 100)
  }

  /** strftime("%Y-%m-%d_%H-%M-%S"): zero-padded fields separated by hyphens, with an
      underscore between the date and the time. */
  function Timestamp(t: DateTime): (s: string)
    requires FixedWidth(t)
    ensures |s| == 19
    ensures s[4] == '-' && s[7] == '-' && s[10] == '_' && s[13] == '-' && s[16] == '-'
    ensures forall i :: 0 <= i < 19 && i !in {4, 7, 10, 13, 16} ==> '0' <= s[i] <= '9'
  {
    Pad4(t.year) + "-" + Pad2(t.month) + "-" + Pad2(t.day) + "_" +
    Pad2(t.hour) + "-" + Pad2(t.minute) + "-" + Pad2(t.second)
  }

  function Parse2(s: string, i: int): int
    requires 0 <= i && i + 2 <= |s|
  {
    DigitValue(s[i]) * 10 + DigitValue(s[i + 1])
  }

  /** Reads the fields back out of a timestamp. */
  function ParseTimestamp(s: string): DateTime
    requires |s| == 19
  {
    DateTime(Parse2(s, 0) * 100 + Parse2(s, 2), Parse2(s, 5), Parse2(s, 8),
             Parse2(s, 11), Parse2(s, 14), Parse2(s, 17))
  }

  lemma Pad2RoundTrip(n: int)
    requires 0 <= n < 100
    ensures Parse2(Pad2(n), 0) == n
  {
  }

  /** The timestamp text determines the clock reading it was written from. */
  lemma TimestampRoundTrip(t: DateTime)
    requires FixedWidth(t)
    ensures ParseTimestamp(Timestamp(t)) == t
  {
    var s := Timestamp(t);
    Pad2RoundTrip(t.year / 100);
    Pad2RoundTrip(t.year % 100);
    Pad2RoundTrip(t.month);
    Pad2RoundTrip(t.day);
    Pad2RoundTrip(t.hour);
    Pad2RoundTrip(t.minute);
    Pad2RoundTrip(t.second);
    assert s[0..2] == Pad2(t.year / 100) && s[2..4] == Pad2(t.year % 100);
    assert Parse2(s, 0) == Parse2(s[0..2], 0) && Parse2(s, 2) == Parse2(s[2..4], 0);
    assert s[5..7] == Pad2(t.month) && Parse2(s, 5) == Parse2(s[5..7], 0);
    assert s[8..10] == Pad2(t.day) && Parse2(s, 8) == Parse2(s[8..10], 0);
    assert s[11..13] == Pad2(t.hour) && Parse2(s, 11) == Parse2(s[11..13], 0);
    assert s[14..16] == Pad2(t.minute) && Parse2(s, 14) == Parse2(s[14..16], 0);
    assert s[17..19] == Pad2(t.second) && Parse2(s, 17) == Parse2(s[17..19], 0);
  }

  const Placeholder: string := "<YYYY-MM-DD_HH_MM_SS>"

  /** replace_timestamp_placeholder at clock reading now: no placeholder is left, and the
      name never grows (19 characters replace 21). */
  function ReplaceTimestampPlaceholder(value: string, now: DateTime): (r: string)
    requires FixedWidth(now)
    ensures !Occurs(r, Placeholder)
    ensures |r| <= |value|
  {
    TimestampAvoidsPlaceholder(now);
    ReplacedPatternGone(value, Placeholder, Timestamp(now));
    ReplaceAll(value, Placeholder, Timestamp(now))
  }

  /** The timestamp starts with a digit, which the placeholder does not contain, and has
      no '<', which starts the placeholder. */
  lemma TimestampAvoidsPlaceholder(now: DateTime)
    requires FixedWidth(now)
    ensures Timestamp(now)[0] !in Placeholder && Placeholder[0] !in Timestamp(now)
  {
    var t := Timestamp(now);
    assert '0' <= t[0] <= '9';
    forall i | 0 <= i < |t| ensures t[i] != '<' {
      if i !in {4, 7, 10, 13, 16} {
        assert '0' <= t[i] <= '9';
      }
    }
  }

  /** A value without the placeholder is returned as it is. */
  lemma NoPlaceholderUnchanged(value: string, now: DateTime)
    requires FixedWidth(now) && !Occurs(value, Placeholder)
    ensures ReplaceTimestampPlaceholder(value, now) == value
  {
    ReplaceAbsent(value, Placeholder, Timestamp(now));
  }

  /** A value that starts with the placeholder starts with the timestamp afterwards. */
  lemma LeadingPlaceholderReplaced(rest: string, now: DateTime)
    requires FixedWidth(now)
    ensures ReplaceTimestampPlaceholder(Placeholder + rest, now)
         == Timestamp(now) + ReplaceTimestampPlaceholder(rest, now)
  {
    ReplaceLeading(Placeholder, rest, Timestamp(now));
  }


  // ---------------------------------------------------------------------------
  // get_bool

  function LowerAscii(c: char): char
  {
    if 'A' <= c <= 'Z' then (c as int + 32) as char else c
  }

  function Lower(s: string): (r: string)
    ensures |r| == |s|
  {
    seq(|s|, i requires 0 <= i < |s| => LowerAscii(s[i]))
  }

  /** value.lower() == "true": exactly the four-letter spellings of "true" in any mix of
      cases are true. */
  function IsTrue(value: string): (b: bool)
    ensures b <==>
              |value| == 4 && value[0] in "tT" && value[1] in "rR" && value[2] in "uU" && value[3] in "eE"
  {
    LowerReadsTrue(value);
    Lower(value) == "true"
  }

  lemma LowerReadsTrue(value: string)
    ensures Lower(value) == "true" <==>
              |value| == 4 && value[0] in "tT" && value[1] in "rR" && value[2] in "uU" && value[3] in "eE"
  {
    if |value| == 4 && value[0] in "tT" && value[1] in "rR" && value[2] in "uU" && value[3] in "eE" {
      assert Lower(value) == "true";
    }
    if Lower(value) == "true" {
      assert Lower(value)[0] == 't' && Lower(value)[1] == 'r' && Lower(value)[2] == 'u' && Lower(value)[3] == 'e';
    }
  }

  lemma IsTrueExamples()
    ensures IsTrue("TRUE") && IsTrue("True") && IsTrue("true")
    ensures !IsTrue("yes") && !IsTrue("1") && !IsTrue("false") && !IsTrue(" true")
  {
    assert " true"[0] !in "tT";
    assert "false"[0] !in "tT";
  }

  // ---------------------------------------------------------------------------
  // str.split() with no separator

  /** The characters Python's str.split() treats as whitespace, ASCII range. */
  predicate IsSpace(c: char)
  {
    c == ' ' || c == '\t' || c == '\n' || c == '\r' || c == '\U{B}' || c == '\U{C}' ||
    ('\U{1C}' <= c <= '\U{1F}')
  }

  predicate NoSpace(w: string)
  {
    forall i :: 0 <= i < |w| ==> !IsSpace(w[i])
  }

  /** The length of the run of non-space characters at the front of s. */
  function WordLength(s: string): (n: nat)
    ensures n <= |s| && NoSpace(s[..n])
    ensures n < |s| ==> IsSpace(s[n])
  {
    if |s| == 0 || IsSpace(s[0]) then 0
    else
      var n := 1 + WordLength(s[1..]);
      assert forall i :: 1 <= i < n ==> s[..n][i] == s[1..][..n - 1][i - 1];
      n
  }

  /** s.split(): the maximal runs of non-space characters, in order. */
  function Words(s: string): (ws: seq<string>)
    ensures forall k :: 0 <= k < |ws| ==> |ws[k]| > 0 && NoSpace(ws[k])
    decreases |s|
  {
    if |s| == 0 then []
    else if IsSpace(s[0]) then Words(s[1..])
    else
      var n := WordLength(s);
      [s[..n]] + Words(s[n..])
  }

  /** The words joined by single spaces. */
  function JoinSpaced(ws: seq<string>): string
  {
    if |ws| == 0 then ""
    else if |ws| == 1 then ws[0]
    else ws[0] + " " + JoinSpaced(ws[1..])
  }

  lemma {:induction false} WordLengthOfWord(w: string, rest: string)
    requires NoSpace(w) && (|rest| == 0 || IsSpace(rest[0]))
    ensures WordLength(w + rest) == |w|
    decreases |w|
  {
    var s := w + rest;
    if |w| == 0 {
      assert s == rest;
    } else {
      assert s[0] == w[0] && !IsSpace(w[0]);
      assert s[1..] == w[1..] + rest;
      assert NoSpace(w[1..]) by {
        forall i | 0 <= i < |w| - 1 ensures !IsSpace(w[1..][i]) {
          assert w[1..][i] == w[i + 1];
        }
      }
      WordLengthOfWord(w[1..], rest);
    }
  }

  /** Splitting words joined by spaces gives the words back. */
  lemma {:induction false} WordsOfJoin(ws: seq<string>)
    requires forall k :: 0 <= k < |ws| ==> |ws[k]| > 0 && NoSpace(ws[k])
    ensures Words(JoinSpaced(ws)) == ws
  {
    if |ws| == 1 {
      var w := ws[0];
      WordLengthOfWord(w, "");
      assert w + "" == w;
      assert w[..|w|] == w && w[|w|..] == "";
    } else if |ws| > 1 {
      var w, rest := ws[0], JoinSpaced(ws[1..]);
      var s := w + " " + rest;
      WordLengthOfWord(w, " " + rest);
      assert s == w + (" " + rest);
      assert s[..|w|] == w;
      assert s[|w|..] == " " + rest;
      assert (" " + rest)[1..] == rest;
      WordsOfJoin(ws[1..]);
    }
  }

  // ---------------------------------------------------------------------------
  // convert_to_base_units

  /** A converted quantity: its magnitude and the text of its unit. */
  datatype Conversion = Conversion(magnitude: real, unitText: string)

  /** The unit library: float parsing, unit-name lookup, and conversion of a magnitude
      from one unit to another (None when the conversion raises). */
  datatype UnitLibrary = UnitLibrary(
    parseFloat: string -> Option<real>,
    isUnit: string -> bool,
    convert: (real, string, string) -> Option<Conversion>)

  /** Base units by kind, in the order they are tried. */
  const BaseUnits: seq<(string, string)> := [
    ("angle", "degree"),
    ("length", "mm"),
    ("angle_speed", "degree/second"),
    ("length_speed", "mm/second"),
    ("angle_acceleration", "degree/second**2"),
    ("length_acceleration", "mm/second**2"),
    ("time", "second"),
    ("frequency", "hertz")
  ]

  const FrequencyUnits: seq<string> := ["Hz", "hertz", "kHz", "MHz", "GHz"]

  /** The first base unit (from index `from` on) that the quantity converts to. */
  function FirstConvertible(lib: UnitLibrary, v: real, unit: string, from: nat): (k: Option<nat>)
    requires from <= |BaseUnits|
    ensures k.Some? ==> from <= k.value < |BaseUnits| &&
                        lib.convert(v, unit, BaseUnits[k.value].1).Some? &&
                        forall j :: from <= j < k.value ==> lib.convert(v, unit, BaseUnits[j].1).None?
    ensures k.None? ==> forall j :: from <= j < |BaseUnits| ==> lib.convert(v, unit, BaseUnits[j].1).None?
    decreases |BaseUnits| - from
  {
    if from == |BaseUnits| then None
    else if lib.convert(v, unit, BaseUnits[from].1).Some? then Some(from)
    else FirstConvertible(lib, v, unit, from + 1)
  }

  /** What convert_to_base_units returns or raises for a "value unit" string: only two
      words with a number and a known unit convert; frequency units come back as "hertz";
      any other unit comes back as its conversion to one of the base units, and it is
      unsupported only when none of them accepts it. */
  function ConvertSpec(lib: UnitLibrary, valueWithUnit: string): (r: Result<Conversion, ConfigError>)
    ensures |Words(valueWithUnit)| != 2 ==> r == Err(NotTwoTokens)
    ensures r.Ok? ==> |Words(valueWithUnit)| == 2 &&
                      lib.parseFloat(Words(valueWithUnit)[0]).Some? && lib.isUnit(Words(valueWithUnit)[1])
    ensures r.Ok? && Words(valueWithUnit)[1] in FrequencyUnits ==> r.value.unitText == "hertz"
    ensures r.Ok? && Words(valueWithUnit)[1] !in FrequencyUnits ==>
              exists k :: 0 <= k < |BaseUnits| &&
                lib.convert(lib.parseFloat(Words(valueWithUnit)[0]).value, Words(valueWithUnit)[1], BaseUnits[k].1)
                == Some(r.value)
    ensures r.Err? && r.error.UnsupportedUnit? ==>
              |Words(valueWithUnit)| == 2 && lib.parseFloat(Words(valueWithUnit)[0]).Some? &&
              forall k :: 0 <= k < |BaseUnits| ==>
                lib.convert(lib.parseFloat(Words(valueWithUnit)[0]).value, Words(valueWithUnit)[1], BaseUnits[k].1).None?
  {
    var ws := Words(valueWithUnit);
    if |ws| != 2 then Err(NotTwoTokens)
    else if lib.parseFloat(ws[0]).None? then Err(NotANumber(ws[0]))
    else if !lib.isUnit(ws[1]) then Err(UndefinedUnit(ws[1]))
    else if ws[1] in FrequencyUnits then
      if lib.convert(lib.parseFloat(ws[0]).value, ws[1], "hertz").Some? then
        Ok(Conversion(lib.convert(lib.parseFloat(ws[0]).value, ws[1], "hertz").value.magnitude, "hertz"))
      else Err(ConversionFailed(ws[1]))
    else
      var k := FirstConvertible(lib, lib.parseFloat(ws[0]).value, ws[1], 0);
      if k.None? then Err(UnsupportedUnit(ws[1]))
      else Ok(lib.convert(lib.parseFloat(ws[0]).value, ws[1], BaseUnits[k.value].1).value)
  }

  /** A "value unit" string that does not split into two words is refused. */
  lemma NeedsTwoTokens(lib: UnitLibrary, ws: seq<string>)
    requires forall k :: 0 <= k < |ws| ==> |ws[k]| > 0 && NoSpace(ws[k])
    requires |ws| != 2
    ensures ConvertSpec(lib, JoinSpaced(ws)) == Err(NotTwoTokens)
  {
    WordsOfJoin(ws);
  }

  /** A non-frequency unit converts to the earliest base unit in the list that accepts it. */
  lemma EarliestBaseUnitWins(lib: UnitLibrary, v: string, unit: string, k: nat)
    requires NoSpace(v) && NoSpace(unit) && |v| > 0 && |unit| > 0
    requires lib.parseFloat(v).Some? && lib.isUnit(unit) && unit !in FrequencyUnits
    requires k < |BaseUnits| && lib.convert(lib.parseFloat(v).value, unit, BaseUnits[k].1).Some?
    requires forall j :: 0 <= j < k ==> lib.convert(lib.parseFloat(v).value, unit, BaseUnits[j].1).None?
    ensures ConvertSpec(lib, v + " " + unit)
         == Ok(lib.convert(lib.parseFloat(v).value, unit, BaseUnits[k].1).value)
  {
    WordsOfJoin([v, unit]);
    assert JoinSpaced([v, unit]) == v + " " + unit;
    var f := FirstConvertible(lib, lib.parseFloat(v).value, unit, 0);
    assert f == Some(k);
  }

  // ---------------------------------------------------------------------------
  // The reader and its cache

  /** The class attribute shared by every reader of the process. */
  class ConfigCache {
    var data: Option<Config>

    constructor()
      ensures data == None
    {
      data := None;
    }
  }

  class ConfigReader {
    const configFilePath: string
    const config: Config
    const baseUnits: seq<(string, string)>

    /** The first reader parses its file (through `parse`) and fills the cache; every
        later reader takes the cached configuration, whatever file it was given. */
    constructor(configFile: string, cache: ConfigCache, parse: string -> Config)
      modifies cache
      ensures configFilePath == configFile && baseUnits == BaseUnits
      ensures old(cache.data).None? ==> config == parse(configFile) && cache.data == Some(config)
      ensures old(cache.data).Some? ==> config == old(cache.data).value && cache.data == old(cache.data)
    {
      configFilePath := configFile;
      baseUnits := BaseUnits;
      if cache.data.None? {
        var parsed := parse(configFile);
        config := parsed;
        cache.data := Some(parsed);
      } else {
        config := cache.data.value;
      }
    }

    /** config.get(section, option), failing when the pair is absent. */
    function Lookup(section: string, option: string): (r: Result<string, ConfigError>)
      ensures r.Ok? <==> (section, option) in config
      ensures r.Ok? ==> r.value == config[(section, option)]
      ensures r.Err? ==> r.error == MissingOption(section, option)
    {
      if (section, option) in config then Ok(config[(section, option)])
      else Err(MissingOption(section, option))
    }

    /** get_value: the raw value with every '^' written as "**". */
    function GetValue(section: string, option: string): (r: Result<string, ConfigError>)
      ensures r.Ok? <==> (section, option) in config
      ensures r.Ok? ==> '^' !in r.value && r.value == ReplaceAll(config[(section, option)], "^", "**")
    {
      var v := Lookup(section, option);
      if v.Err? then Err(v.error)
      else
        ReplaceCaretIsReplace(v.value);
        Ok(ReplaceCaret(v.value))
    }

    /** get_bool: whether the value, lowercased, reads "true". */
    function GetBool(section: string, option: string): (r: Result<bool, ConfigError>)
      ensures r.Ok? <==> (section, option) in config
      ensures r.Ok? ==> (r.value <==> Lower(config[(section, option)]) == "true")
    {
      var v := Lookup(section, option);
      if v.Err? then Err(v.error) else Ok(IsTrue(v.value))
    }

    /** get_file_name at clock reading now: the value with the timestamp placeholder filled in. */
    function GetFileName(section: string, option: string, now: DateTime): (r: Result<string, ConfigError>)
      requires FixedWidth(now)
      ensures r.Ok? <==> (section, option) in config
      ensures r.Ok? ==> r.value == ReplaceAll(config[(section, option)], Placeholder, Timestamp(now))
      ensures r.Ok? ==> !Occurs(r.value, Placeholder)
    {
      var v := Lookup(section, option);
      if v.Err? then Err(v.error) else Ok(ReplaceTimestampPlaceholder(v.value, now))
    }

    /** convert_to_base_units: split, parse, then the frequency shortcut or the first base
        unit, in order, that the quantity converts to. */
    method ConvertToBaseUnits(lib: UnitLibrary, valueWithUnit: string) returns (r: Result<Conversion, ConfigError>)
      requires baseUnits == BaseUnits
      ensures r == ConvertSpec(lib, valueWithUnit)
    {
      var ws := Words(valueWithUnit);
      if |ws| != 2 {
        return Err(NotTwoTokens);
      }
      var value, unit := ws[0], ws[1];
      var magnitude := lib.parseFloat(value);
      if magnitude.None? {
        return Err(NotANumber(value));
      }
      if !lib.isUnit(unit) {
        return Err(UndefinedUnit(unit));
      }
      if unit in FrequencyUnits {
        var hz := lib.convert(magnitude.value, unit, "hertz");
        if hz.None? {
          return Err(ConversionFailed(unit));
        }
        return Ok(Conversion(hz.value.magnitude, "hertz"));
      }
      var i := 0;
      while i < |baseUnits|
        invariant 0 <= i <= |baseUnits|
        invariant FirstConvertible(lib, magnitude.value, unit, 0) == FirstConvertible(lib, magnitude.value, unit, i)
      {
        var converted := lib.convert(magnitude.value, unit, baseUnits[i].1);
        if converted.Some? {
          return Ok(converted.value);
        }
        i := i + 1;
      }
      r := Err(UnsupportedUnit(unit));
    }
  }
}
