/**
 * The pure time helpers of `src/utils/time.ts`: seconds to "mm:ss" /
 * "hh:mm:ss" text and back, progress percentage, remaining time and the
 * human-readable duration. JavaScript's `trim`, `split(":")` and
 * `parseInt(part, 10)` are written out so that `parseTime` is modelled on
 * every string, not only on well-formed ones.
 */
module TimeUtils {
  import opened Wrappers
  import opened Decimal

  datatype Format = MmSs | HhMmSs

  // ---------------------------------------------------------------- formatTime

  /** `formatTime(seconds, format)`; "mm:ss" folds the hours into the minutes. */
  function FormatTime(seconds: nat, format: Format): string {
    var hours := seconds / 3600;
    var minutes := (seconds % 3600) / 60;
    var secs := seconds % 60;
    match format
    case HhMmSs => Pad2(hours) + ":" + Pad2(minutes) + ":" + Pad2(secs)
    case MmSs => Pad2(seconds / 60) + ":" + Pad2(secs)
  }

  // ------------------------------------------------- the string operations used

  /** The characters JavaScript's `String.prototype.trim` and `parseInt` skip. */
  predicate IsJsWhitespace(c: char) {
    var k := c as int;
    k == 9 || k == 10 || k == 11 || k == 12 || k == 13 || k == 32 || k == 0xA0 || k == 0x1680
    || (0x2000 <= k <= 0x200A) || k == 0x2028 || k == 0x2029 || k == 0x202F || k == 0x205F
    || k == 0x3000 || k == 0xFEFF
  }

  /** What `trim` drops at the front: a whitespace prefix, up to the first other character. */
  function TrimStart(s: string): (r: string)
    ensures |r| <= |s|
  {
    if s != [] && IsJsWhitespace(s[0]) then TrimStart(s[1..]) else s
  }

  /** What `trim` drops at the back: a whitespace suffix, back to the last other character. */
  function TrimEnd(s: string): (r: string)
    ensures |r| <= |s|
  {
    if s != [] && IsJsWhitespace(s[|s| - 1]) then TrimEnd(s[..|s| - 1]) else s
  }

  /** `s.trim()`. */
  function Trim(s: string): (r: string)
    ensures |r| <= |s|
  {
    TrimEnd(TrimStart(s))
  }

  predicate NoColon(s: string) {
    forall i :: 0 <= i < |s| ==> s[i] != ':'
  }

  /** `s.split(":")`: the pieces between colons, always at least one. */
  function Split(s: string): (parts: seq<string>)
    ensures |parts| >= 1
  {
    if s == [] then [""]
    else if s[0] == ':' then [""] + Split(s[1..])
    else
      var rest := Split(s[1..]);
      [[s[0]] + rest[0]] + rest[1..]
  }

  /** The longest run of decimal digits at the start of `s`. */
  function LeadingDigits(s: string): (r: string)
    ensures AllDigits(r)
  {
    if s != [] && IsDigit(s[0]) then [s[0]] + LeadingDigits(s[1..]) else []
  }

  /**
   * `parseInt(s, 10)`: skip leading whitespace, take an optional sign, then
   * as many digits as follow; no digit at all is NaN (`None`).
   */
  function ParseInt(s: string): Option<int> {
    var t := TrimStart(s);
    var digits := LeadingDigits(SignStripped(t));
    if digits == [] then None
    else
      var magnitude: int := DigitsValue(digits);
      if |t| > 0 && t[0] == '-' then Some(-magnitude) else Some(magnitude)
  }

  function SignStripped(t: string): string {
    if |t| > 0 && (t[0] == '-' || t[0] == '+') then t[1..] else t
  }

  /** `parts.map(p => parseInt(p, 10))`, or `None` when `parts.some(isNaN)`. */
  function ParseAll(parts: seq<string>): (r: Option<seq<int>>)
    ensures r.Some? ==> |r.value| == |parts|
  {
    if parts == [] then Some([])
    else
      match (ParseInt(parts[0]), ParseAll(parts[1..]))
      case (Some(v), Some(vs)) => Some([v] + vs)
      case _ => None
  }

  // ---------------------------------------------------------------- parseTime

  /** What `/^\d+$/.test(s)` accepts. */
  predicate IsDigitRun(s: string) {
    |s| > 0 && AllDigits(s)
  }

  /** How `parseTime` combines the numbers of a colon-separated input. */
  function FieldsToSeconds(n: seq<int>): (r: Option<int>)
    ensures |n| == 2 ==> (r.Some? <==> n[1] < 60)
    ensures |n| == 3 ==> (r.Some? <==> n[1] < 60 && n[2] < 60)
    ensures |n| != 2 && |n| != 3 ==> r.None?
  {
    if |n| == 2 then
      if n[1] >= 60 then None else Some(n[0] * 60 + n[1])
    else if |n| == 3 then
      if n[1] >= 60 || n[2] >= 60 then None else Some(n[0] * 3600 + n[1] * 60 + n[2])
    else
      None
  }

  /**
   * `parseTime(input)`: a bare number of seconds, "m:ss" or "h:mm:ss";
   * `None` is the source's `null`.
   */
  function ParseTime(input: string): Option<int> {
    var trimmed := Trim(input);
    if IsDigitRun(trimmed) then
      Some(DigitsValue(trimmed))
    else
      var numbers := ParseAll(Split(trimmed));
      if numbers.None? then None else FieldsToSeconds(numbers.value)
  }

  // ------------------------------------------------------- the other helpers

  /** `calculateProgress(elapsed, total)` as a percentage capped at 100. */
  function CalculateProgress(elapsed: int, total: int): (r: real)
    ensures total == 0 ==> r == 0.0
    ensures r <= 100.0
    ensures total > 0 && elapsed >= 0 ==> r >= 0.0
    ensures total > 0 && 0 <= elapsed <= total ==> r == (elapsed as real / total as real) * 100.0
  {
    if total == 0 then 0.0
    else
      var p := (elapsed as real / total as real) * 100.0;
      if p < 100.0 then p else 100.0
  }

  /** `getRemainingTime(elapsed, total)`: what is left, never below zero. */
  function GetRemainingTime(elapsed: int, total: int): (r: int)
    ensures r >= 0 && r >= total - elapsed
    ensures r == 0 || r == total - elapsed
    ensures elapsed <= total ==> elapsed + r == total
  {
    if total - elapsed > 0 then total - elapsed else 0
  }

  /** "N unit" or "N units": the plural unless N is exactly 1. */
  function Unit(n: nat, unit: string): string {
    NatToString(n) + " " + unit + (if n != 1 then "s" else "")
  }

  /** The pieces `getHumanReadableDuration` pushes for a duration of a minute or more. */
  function DurationParts(seconds: nat): (parts: seq<string>)
    requires seconds >= 60
    ensures 1 <= |parts| <= 2
    ensures var h, m, s := seconds / 3600, (seconds % 3600) / 60, seconds % 60;
      && (h > 0 ==>
            parts[0] == Unit(h, "hour") && |parts| == (if m > 0 then 2 else 1)
            && (m > 0 ==> parts[1] == Unit(m, "minute")))
      && (h == 0 ==>
            parts[0] == Unit(m, "minute") && |parts| == (if s > 0 then 2 else 1)
            && (s > 0 ==> parts[1] == Unit(s, "second")))
  {
    var hours := seconds / 3600;
    var minutes := (seconds % 3600) / 60;
    var secs := seconds % 60;
    (if hours > 0 then [Unit(hours, "hour")] else [])
    + (if minutes > 0 then [Unit(minutes, "minute")] else [])
    + (if secs > 0 && hours == 0 then [Unit(secs, "second")] else [])
  }

  function JoinWithSpaces(parts: seq<string>): string {
    if parts == [] then "" else if |parts| == 1 then parts[0] else parts[0] + " " + JoinWithSpaces(parts[1..])
  }

  /** `getHumanReadableDuration(seconds)`, e.g. "1 hour 30 minutes". */
  function HumanReadableDuration(seconds: nat): (r: string)
    ensures seconds < 60 ==> r == NatToString(seconds) + (if seconds == 1 then " second" else " seconds")
    ensures var h, m, s := seconds / 3600, (seconds % 3600) / 60, seconds % 60;
      && (h > 0 && m > 0 ==> r == Unit(h, "hour") + " " + Unit(m, "minute"))
      && (h > 0 && m == 0 ==> r == Unit(h, "hour"))
      && (h == 0 && m > 0 && s > 0 ==> r == Unit(m, "minute") + " " + Unit(s, "second"))
      && (h == 0 && m > 0 && s == 0 ==> r == Unit(m, "minute"))
  {
    if seconds < 60 then Unit(seconds, "second")
    else
      var parts := DurationParts(seconds);
      assert |parts| == 1 ==> JoinWithSpaces(parts) == parts[0];
      assert |parts| == 2 ==> parts[1..] == [parts[1]] && JoinWithSpaces(parts) == parts[0] + " " + parts[1];
      JoinWithSpaces(parts)
  }

  // ----------------------------------------------------------------- lemmas

  lemma {:induction false} SplitSingle(a: string)
    requires NoColon(a)
    ensures Split(a) == [a]
  {
    if a != [] {
      SplitSingle(a[1..]);
      assert [a[0]] + a[1..] == a;
    }
  }

  lemma {:induction false} SplitAtColon(a: string, rest: string)
    requires NoColon(a)
    ensures Split(a + ":" + rest) == [a] + Split(rest)
  {
    if a == [] {
      assert a + ":" + rest == [':'] + rest;
      assert ([':'] + rest)[1..] == rest;
    } else {
      assert (a + ":" + rest)[1..] == a[1..] + ":" + rest;
      SplitAtColon(a[1..], rest);
      assert [a[0]] + a[1..] == a;
    }
  }

  /** A string of digits is its own longest digit prefix. */
  lemma {:induction false} LeadingDigitsOfDigits(s: string)
    requires AllDigits(s)
    ensures LeadingDigits(s) == s
  {
    if s != [] {
      LeadingDigitsOfDigits(s[1..]);
      assert [s[0]] + s[1..] == s;
    }
  }

  /** `parseInt` reads a non-empty digit string as its decimal value. */
  lemma ParseIntOfDigits(s: string)
    requires IsDigitRun(s)
    ensures ParseInt(s) == Some(DigitsValue(s))
  {
    assert TrimStart(s) == s;
    assert SignStripped(s) == s;
    LeadingDigitsOfDigits(s);
  }

  /** The hours/minutes/seconds split used by `formatTime` adds back up to the input. */
  lemma HmsDecomposition(seconds: nat)
    ensures (seconds % 3600) / 60 < 60 && seconds % 60 < 60
    ensures (seconds / 3600) * 3600 + ((seconds % 3600) / 60) * 60 + seconds % 60 == seconds
  {
    var q, r := seconds / 3600, seconds % 3600;
    var m, s := r / 60, r % 60;
    assert r == m * 60 + s;
    assert seconds == (q * 60 + m) * 60 + s;
    DivModUnique(seconds, 60, q * 60 + m, s);
  }

  lemma TextIsTrimmed(text: string)
    requires |text| > 0 && IsDigit(text[0]) && IsDigit(text[|text| - 1])
    ensures Trim(text) == text
  {
    assert TrimStart(text) == text;
  }

  lemma DigitsHaveNoColon(s: string)
    requires AllDigits(s)
    ensures NoColon(s)
  {
    forall i | 0 <= i < |s| ensures s[i] != ':' {
      assert IsDigit(s[i]);
    }
  }

  lemma SplitTwo(x: string, y: string)
    requires NoColon(x) && NoColon(y)
    ensures Split(x + ":" + y) == [x, y]
  {
    SplitAtColon(x, y);
    SplitSingle(y);
  }

  lemma SplitThree(x: string, y: string, z: string)
    requires NoColon(x) && NoColon(y) && NoColon(z)
    ensures Split(x + ":" + y + ":" + z) == [x, y, z]
  {
    assert x + ":" + y + ":" + z == x + ":" + (y + ":" + z);
    SplitAtColon(x, y + ":" + z);
    SplitTwo(y, z);
  }

  lemma ParseAllCons(p: string, ps: seq<string>, v: int, vs: seq<int>)
    requires ParseInt(p) == Some(v) && ParseAll(ps) == Some(vs)
    ensures ParseAll([p] + ps) == Some([v] + vs)
  {
    assert ([p] + ps)[0] == p;
    assert ([p] + ps)[1..] == ps;
  }

  lemma ParseAllTwo(x: string, y: string, a: int, b: int)
    requires ParseInt(x) == Some(a) && ParseInt(y) == Some(b)
    ensures ParseAll([x, y]) == Some([a, b])
  {
    ParseAllCons(y, [], b, []);
    assert [y] + [] == [y] && [b] + [] == [b];
    ParseAllCons(x, [y], a, [b]);
    assert [x] + [y] == [x, y] && [a] + [b] == [a, b];
  }

  lemma ParseAllThree(x: string, y: string, z: string, a: int, b: int, c: int)
    requires ParseInt(x) == Some(a) && ParseInt(y) == Some(b) && ParseInt(z) == Some(c)
    ensures ParseAll([x, y, z]) == Some([a, b, c])
  {
    ParseAllTwo(y, z, b, c);
    ParseAllCons(x, [y, z], a, [b, c]);
    assert [x] + [y, z] == [x, y, z] && [a] + [b, c] == [a, b, c];
  }

  /** Text with a colon is not a bare number. */
  lemma ColonIsNotDigitRun(x: string, rest: string)
    ensures !IsDigitRun(x + ":" + rest)
  {
    assert (x + ":" + rest)[|x|] == ':';
  }

  /** Trimmed text that is not a bare number is read field by field. */
  lemma ParseTimeByFields(text: string, parts: seq<string>, numbers: seq<int>)
    requires Trim(text) == text && !IsDigitRun(text)
    requires Split(text) == parts && ParseAll(parts) == Some(numbers)
    ensures ParseTime(text) == FieldsToSeconds(numbers)
  {
  }

  lemma FieldsTwo(a: int, b: int)
    requires b < 60
    ensures FieldsToSeconds([a, b]) == Some(a * 60 + b)
  {
  }

  lemma FieldsThree(a: int, b: int, c: int)
    requires b < 60 && c < 60
    ensures FieldsToSeconds([a, b, c]) == Some(a * 3600 + b * 60 + c)
  {
  }

  lemma ThreeFieldsValue(text: string, parts: seq<string>, a: int, b: int, c: int)
    requires Trim(text) == text && !IsDigitRun(text)
    requires Split(text) == parts && ParseAll(parts) == Some([a, b, c])
    requires b < 60 && c < 60
    ensures ParseTime(text) == Some(a * 3600 + b * 60 + c)
  {
    ParseTimeByFields(text, parts, [a, b, c]);
    FieldsThree(a, b, c);
  }

  lemma TwoFieldsValue(text: string, parts: seq<string>, a: int, b: int)
    requires Trim(text) == text && !IsDigitRun(text)
    requires Split(text) == parts && ParseAll(parts) == Some([a, b])
    requires b < 60
    ensures ParseTime(text) == Some(a * 60 + b)
  {
    ParseTimeByFields(text, parts, [a, b]);
    FieldsTwo(a, b);
  }

  /** Two digit fields "x:y" parse as x minutes and y seconds when y is below 60. */
  lemma {:induction false} ParseTimeTwoFields(x: string, y: string)
    requires IsDigitRun(x) && IsDigitRun(y) && DigitsValue(y) < 60
    ensures ParseTime(x + ":" + y) == Some(DigitsValue(x) * 60 + DigitsValue(y))
  {
    var text := x + ":" + y;
    var numbers := [DigitsValue(x), DigitsValue(y)];
    assert Trim(text) == text && !IsDigitRun(text) by {
      TextIsTrimmed(text);
      ColonIsNotDigitRun(x, y);
    }
    assert Split(text) == [x, y] by {
      DigitsHaveNoColon(x);
      DigitsHaveNoColon(y);
      SplitTwo(x, y);
    }
    assert ParseAll([x, y]) == Some(numbers) by {
      ParseIntOfDigits(x);
      ParseIntOfDigits(y);
      ParseAllTwo(x, y, DigitsValue(x), DigitsValue(y));
    }
    TwoFieldsValue(text, [x, y], DigitsValue(x), DigitsValue(y));
  }

  /** Three digit fields "x:y:z" parse as hours, minutes and seconds when y and z are below 60. */
  lemma {:induction false} ParseTimeThreeFields(x: string, y: string, z: string)
    requires IsDigitRun(x) && IsDigitRun(y) && IsDigitRun(z)
    requires DigitsValue(y) < 60 && DigitsValue(z) < 60
    ensures ParseTime(x + ":" + y + ":" + z)
         == Some(DigitsValue(x) * 3600 + DigitsValue(y) * 60 + DigitsValue(z))
  {
    var text := x + ":" + y + ":" + z;
    var numbers := [DigitsValue(x), DigitsValue(y), DigitsValue(z)];
    assert Trim(text) == text && !IsDigitRun(text) by {
      TextIsTrimmed(text);
      assert text == x + ":" + (y + ":" + z);
      ColonIsNotDigitRun(x, y + ":" + z);
    }
    assert Split(text) == [x, y, z] by {
      DigitsHaveNoColon(x);
      DigitsHaveNoColon(y);
      DigitsHaveNoColon(z);
      SplitThree(x, y, z);
    }
    assert ParseAll([x, y, z]) == Some(numbers) by {
      ParseIntOfDigits(x);
      ParseIntOfDigits(y);
      ParseIntOfDigits(z);
      ParseAllThree(x, y, z, DigitsValue(x), DigitsValue(y), DigitsValue(z));
    }
    ThreeFieldsValue(text, [x, y, z], DigitsValue(x), DigitsValue(y), DigitsValue(z));
  }

  /**
   * The "hh:mm:ss" form is three digit fields of at least two characters,
   * minutes and seconds below 60, that add back up to the input.
   */
  lemma FormatHhMmSsFields(seconds: nat)
    ensures var parts := Split(FormatTime(seconds, HhMmSs));
      |parts| == 3
      && (forall k :: 0 <= k < 3 ==> |parts[k]| >= 2 && AllDigits(parts[k]))
      && DigitsValue(parts[1]) < 60 && DigitsValue(parts[2]) < 60
      && DigitsValue(parts[0]) * 3600 + DigitsValue(parts[1]) * 60 + DigitsValue(parts[2]) == seconds
  {
    var h, m, s := Pad2(seconds / 3600), Pad2((seconds % 3600) / 60), Pad2(seconds % 60);
    assert FormatTime(seconds, HhMmSs) == h + ":" + (m + ":" + s);
    SplitAtColon(h, m + ":" + s);
    SplitAtColon(m, s);
    SplitSingle(s);
    HmsDecomposition(seconds);
  }

  /**
   * The "mm:ss" form: the minutes field is the whole number of minutes, with
   * no cap at 59, and the seconds field is below 60.
   */
  lemma FormatMmSsFields(seconds: nat)
    ensures var parts := Split(FormatTime(seconds, MmSs));
      |parts| == 2
      && |parts[0]| >= 2 && AllDigits(parts[0]) && |parts[1]| >= 2 && AllDigits(parts[1])
      && DigitsValue(parts[0]) == seconds / 60 && DigitsValue(parts[1]) == seconds % 60
  {
    var m, s := Pad2(seconds / 60), Pad2(seconds % 60);
    assert FormatTime(seconds, MmSs) == m + ":" + s;
    SplitAtColon(m, s);
    SplitSingle(s);
  }

  /** The "hh:mm:ss" text parses back to the seconds it was made from. */
  lemma HhMmSsRoundTrip(seconds: nat)
    ensures ParseTime(FormatTime(seconds, HhMmSs)) == Some(seconds)
  {
    var h, m, s := Pad2(seconds / 3600), Pad2((seconds % 3600) / 60), Pad2(seconds % 60);
    assert FormatTime(seconds, HhMmSs) == h + ":" + m + ":" + s;
    HmsDecomposition(seconds);
    ParseTimeThreeFields(h, m, s);
  }

  /** The "mm:ss" text parses back to the seconds it was made from. */
  lemma MmSsRoundTrip(seconds: nat)
    ensures ParseTime(FormatTime(seconds, MmSs)) == Some(seconds)
  {
    var m, s := Pad2(seconds / 60), Pad2(seconds % 60);
    assert FormatTime(seconds, MmSs) == m + ":" + s;
    ParseTimeTwoFields(m, s);
  }

  /** `parseTime(formatTime(s, f)) == s` for every whole number of seconds and both formats. */
  lemma ParseFormatRoundTrip(seconds: nat, format: Format)
    ensures ParseTime(FormatTime(seconds, format)) == Some(seconds)
  {
    if format == HhMmSs {
      HhMmSsRoundTrip(seconds);
    } else {
      MmSsRoundTrip(seconds);
    }
  }

  // ------------------------------------------------ trim, parseInt, parseTime

  /** `trim` drops exactly the whitespace at the front: what is left starts with another character. */
  lemma {:induction false} TrimStartDropsWhitespace(s: string)
    ensures var r := TrimStart(s);
      && r == s[|s| - |r|..]
      && (r == [] || !IsJsWhitespace(r[0]))
      && forall i :: 0 <= i < |s| - |r| ==> IsJsWhitespace(s[i])
  {
    if s != [] && IsJsWhitespace(s[0]) {
      TrimStartDropsWhitespace(s[1..]);
    }
  }

  /** `trim` drops exactly the whitespace at the back: what is left ends with another character. */
  lemma {:induction false} TrimEndDropsWhitespace(s: string)
    ensures var r := TrimEnd(s);
      && r == s[..|r|]
      && (r == [] || !IsJsWhitespace(r[|r| - 1]))
      && forall i :: |r| <= i < |s| ==> IsJsWhitespace(s[i])
  {
    if s != [] && IsJsWhitespace(s[|s| - 1]) {
      var p := s[..|s| - 1];
      TrimEndDropsWhitespace(p);
      assert forall i :: 0 <= i < |p| ==> p[i] == s[i];
    }
  }

  /**
   * `s.trim()` is the middle of `s`: whitespace before it, whitespace after
   * it, and it neither starts nor ends with whitespace.
   */
  lemma TrimIsMiddle(s: string)
    ensures var r, k := Trim(s), |s| - |TrimStart(s)|;
      && k + |r| <= |s| && r == s[k..k + |r|]
      && (forall i :: 0 <= i < k ==> IsJsWhitespace(s[i]))
      && (forall i :: k + |r| <= i < |s| ==> IsJsWhitespace(s[i]))
      && (r == [] || (!IsJsWhitespace(r[0]) && !IsJsWhitespace(r[|r| - 1])))
  {
    var t := TrimStart(s);
    var k := |s| - |t|;
    TrimStartDropsWhitespace(s);
    TrimEndDropsWhitespace(t);
    var r := TrimEnd(t);
    assert forall i :: k + |r| <= i < |s| ==> s[i] == t[i - k];
    if r != [] {
      assert r[0] == t[0];
    }
  }

  /** The longest digit prefix is a prefix, and the character after it is not a digit. */
  lemma {:induction false} LeadingDigitsIsLongest(s: string)
    ensures var r := LeadingDigits(s);
      && |r| <= |s| && r == s[..|r|]
      && (|r| < |s| ==> !IsDigit(s[|r|]))
  {
    if s != [] && IsDigit(s[0]) {
      LeadingDigitsIsLongest(s[1..]);
    }
  }

  /** `parseInt` gives NaN unless the text holds a digit somewhere. */
  lemma ParseIntNeedsADigit(s: string)
    ensures ParseInt(s).Some? ==> exists i :: 0 <= i < |s| && IsDigit(s[i])
  {
    var t := TrimStart(s);
    var u := SignStripped(t);
    TrimStartDropsWhitespace(s);
    LeadingDigitsIsLongest(u);
    if ParseInt(s).Some? {
      var j := |t| - |u|;
      assert IsDigit(u[0]);
      assert u[0] == s[|s| - |t| + j];
    }
  }

  /** `parseInt` reads the digits and stops at the first other character: `parseInt("12abc") == 12`. */
  lemma ParseIntStopsAtNonDigit(d: string, rest: string)
    requires IsDigitRun(d)
    requires rest == [] || !IsDigit(rest[0])
    ensures ParseInt(d + rest) == Some(DigitsValue(d))
  {
    var s := d + rest;
    assert !IsJsWhitespace(s[0]) && s[0] != '-' && s[0] != '+' by { assert s[0] == d[0] && IsDigit(d[0]); }
    assert TrimStart(s) == s && SignStripped(s) == s;
    LeadingDigitsIsLongest(s);
    LeadingDigitsOfDigits(d);
    var r := LeadingDigits(s);
    assert forall i :: 0 <= i < |d| ==> s[i] == d[i] && IsDigit(s[i]);
    assert |r| >= |d|;
    assert forall i :: 0 <= i < |r| ==> IsDigit(s[i]);
    if rest != [] {
      assert s[|d|] == rest[0] && !IsDigit(s[|d|]);
    }
    assert |r| <= |d|;
    assert r == d;
  }

  /** A minus sign in front of a digit run negates it: `parseInt("-5") == -5`. */
  lemma ParseIntNegative(d: string)
    requires IsDigitRun(d)
    ensures ParseInt("-" + d) == Some(-(DigitsValue(d) as int))
  {
    var s := "-" + d;
    assert !IsJsWhitespace(s[0]);
    assert TrimStart(s) == s;
    assert s[1..] == d;
    assert SignStripped(s) == d;
    LeadingDigitsOfDigits(d);
    assert LeadingDigits(SignStripped(TrimStart(s))) == d;
  }

  /** `parseInt` skips the whitespace in front of the number. */
  lemma ParseIntSkipsWhitespace(c: char, s: string)
    requires IsJsWhitespace(c)
    ensures ParseInt([c] + s) == ParseInt(s)
  {
    assert ([c] + s)[1..] == s;
  }

  /**
   * `parseTime` accepts only a bare number or two or three colon-separated
   * fields: a single field that is not all digits ("5s", "", "-5") is null,
   * and so is anything with more than two colons.
   */
  lemma ParseTimeShapes(input: string)
    ensures ParseTime(input).Some? ==>
      IsDigitRun(Trim(input)) || 2 <= |Split(Trim(input))| <= 3
    ensures NoColon(Trim(input)) && !IsDigitRun(Trim(input)) ==> ParseTime(input).None?
  {
    var trimmed := Trim(input);
    if NoColon(trimmed) {
      SplitSingle(trimmed);
    }
  }

  /** `parseTime` ignores whitespace in front of the text. */
  lemma ParseTimeSkipsWhitespace(c: char, s: string)
    requires IsJsWhitespace(c)
    ensures ParseTime([c] + s) == ParseTime(s)
  {
    assert ([c] + s)[1..] == s;
  }

  // --------------------------------------------------------------- formatTime

  predicate DigitsOrColons(s: string) {
    forall i :: 0 <= i < |s| ==> IsDigit(s[i]) || s[i] == ':'
  }

  lemma NoColonInDigits(s: string)
    requires AllDigits(s)
    ensures DigitsOrColons(s) && multiset(s)[':'] == 0
  {
    assert forall i :: 0 <= i < |s| ==> s[i] != ':';
    assert ':' !in s;
  }

  lemma JoinWithColon(a: string, b: string)
    requires DigitsOrColons(a) && DigitsOrColons(b)
    ensures DigitsOrColons(a + ":" + b)
    ensures multiset(a + ":" + b)[':'] == multiset(a)[':'] + multiset(b)[':'] + 1
  {
    var r := a + ":" + b;
    assert forall i :: 0 <= i < |r| ==> r[i] == if i < |a| then a[i] else if i == |a| then ':' else b[i - |a| - 1];
  }

  /** `formatTime` writes only digits and colons: two colons for "hh:mm:ss", one for "mm:ss". */
  lemma FormatTimeShape(seconds: nat, format: Format)
    ensures var r := FormatTime(seconds, format);
      && DigitsOrColons(r)
      && multiset(r)[':'] == (if format == HhMmSs then 2 else 1)
      && |r| >= (if format == HhMmSs then 8 else 5)
  {
    if format == HhMmSs {
      HhMmSsShape(seconds);
    } else {
      MmSsShape(seconds);
    }
  }

  lemma HhMmSsShape(seconds: nat)
    ensures var r := FormatTime(seconds, HhMmSs);
      DigitsOrColons(r) && multiset(r)[':'] == 2 && |r| >= 8
  {
    var h, m, s := Pad2(seconds / 3600), Pad2((seconds % 3600) / 60), Pad2(seconds % 60);
    NoColonInDigits(h);
    NoColonInDigits(m);
    NoColonInDigits(s);
    JoinWithColon(h, m);
    JoinWithColon(h + ":" + m, s);
    assert FormatTime(seconds, HhMmSs) == h + ":" + m + ":" + s;
  }

  lemma MmSsShape(seconds: nat)
    ensures var r := FormatTime(seconds, MmSs);
      DigitsOrColons(r) && multiset(r)[':'] == 1 && |r| >= 5
  {
    var t, s := Pad2(seconds / 60), Pad2(seconds % 60);
    NoColonInDigits(t);
    NoColonInDigits(s);
    JoinWithColon(t, s);
    assert FormatTime(seconds, MmSs) == t + ":" + s;
  }

  /** Below an hour the two formats differ only by the "00:" hours field in front. */
  lemma FormatsBelowAnHour(seconds: nat)
    requires seconds < 3600
    ensures FormatTime(seconds, HhMmSs) == "00:" + FormatTime(seconds, MmSs)
  {
    assert seconds / 3600 == 0 && (seconds % 3600) / 60 == seconds / 60;
    assert Pad2(0) == "00" by {
      assert NatToString(0) == [DigitChar(0)];
    }
  }
}
