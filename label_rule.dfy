/**
 * The label rule that `addLayerToMap` installs on every symbol layer: what text a
 * point feature shows and with which priority it competes for screen space.
 * The layout stores this rule as an engine expression; the functions here state
 * what that expression means for one feature.
 */
module LabelRule {
  import opened Wrappers

  /** The feature properties the rule reads: `name` and the optional elevation `ele`. */
  datatype Feature = Feature(name: string, ele: Option<int>)

  /** The sort key of a feature without elevation, and the base elevations are subtracted from. */
  const BaseSortKey: int := 5000

  // ---------------------------------------------------------------------------
  // Decimal digits: the text `String(ele)` gives for an integer elevation.

  predicate IsDigit(c: char)
  {
    '0' <= c <= '9'
  }

  predicate AllDigits(s: string)
  {
    forall i :: 0 <= i < |s| ==> IsDigit(s[i])
  }

  function DigitChar(d: nat): (c: char)
    requires d < 10
    ensures IsDigit(c)
  {
    ('0' as int + d) as char
  }

  function DigitValue(c: char): (d: nat)
    requires IsDigit(c)
    ensures d < 10 && DigitChar(d) == c
  {
    c as int - '0' as int
  }

  /** The decimal digits of `n`, most significant first, without leading zeros. */
  function NatToString(n: nat): (s: string)
    ensures |s| > 0 && AllDigits(s)
    ensures n > 0 ==> s[0] != '0'
    decreases n
  {
    if n < 10 then [DigitChar(n)] else NatToString(n / 10) + [DigitChar(n % 10)]
  }

  /** The number a non-empty string of decimal digits denotes. */
  function ParseNat(s: string): nat
    requires |s| > 0 && AllDigits(s)
    decreases |s|
  {
    if |s| == 1 then DigitValue(s[0])
    else 10 * ParseNat(s[..|s| - 1]) + DigitValue(s[|s| - 1])
  }

  lemma {:induction false} ParseNatToString(n: nat)
    ensures ParseNat(NatToString(n)) == n
    decreases n
  {
    if n >= 10 {
      var s := NatToString(n);
      ParseNatToString(n / 10);
      assert s[..|s| - 1] == NatToString(n / 10);
    }
  }

  /** `String(n)` for an integer: its decimal digits, preceded by `-` when negative. */
  function IntToString(n: int): (s: string)
    ensures |s| > 0
    ensures n >= 0 <==> IsDigit(s[0])
    ensures '\n' !in s
  {
    if n >= 0 then NatToString(n) else "-" + NatToString(-n)
  }

  /** The integer a string of the form `IntToString` produces denotes; `None` for any other string. */
  function ParseInt(s: string): Option<int>
  {
    if |s| > 1 && s[0] == '-' && AllDigits(s[1..]) then Some(-(ParseNat(s[1..]) as int))
    else if |s| > 0 && AllDigits(s) then Some(ParseNat(s))
    else None
  }

  /** `ParseInt` recovers every integer from its text. */
  lemma IntToStringRoundTrip(n: int)
    ensures ParseInt(IntToString(n)) == Some(n)
  {
    if n >= 0 {
      ParseNatToString(n);
    } else {
      var s := IntToString(n);
      assert s[1..] == NatToString(-n);
      ParseNatToString(-n);
    }
  }

  // ---------------------------------------------------------------------------
  // The rule itself.

  /** The displayed text: `name + "\n" + ele + " m"` with an elevation, the bare name without. */
  function LabelText(f: Feature): (t: string)
    ensures |t| >= |f.name| && t[..|f.name|] == f.name
    ensures f.ele.None? <==> |t| == |f.name|
  {
    match f.ele
    case Some(e) => f.name + "\n" + IntToString(e) + " m"
    case None => f.name
  }

  /** The stacking priority (lower wins): `5000 - ele` with an elevation, `5000` without. */
  function SortKey(f: Feature): (k: int)
    ensures f.ele.None? ==> k == BaseSortKey
    ensures f.ele.Some? ==> BaseSortKey - k == f.ele.value
    ensures k < BaseSortKey <==> f.ele.Some? && f.ele.value > 0
  {
    match f.ele
    case Some(e) => BaseSortKey - e
    case None => BaseSortKey
  }

  /** A higher feature always gets a strictly smaller sort key, so its label wins. */
  lemma HigherFeatureSortsFirst(f: Feature, g: Feature)
    requires f.ele.Some? && g.ele.Some?
    ensures SortKey(f) < SortKey(g) <==> f.ele.value > g.ele.value
  {
  }

  /** A feature above sea level outranks every feature without elevation; those tie among themselves. */
  lemma ElevationOutranksNone(f: Feature, g: Feature)
    requires g.ele.None?
    ensures f.ele.Some? && f.ele.value > 0 ==> SortKey(f) < SortKey(g)
    ensures f.ele.None? ==> SortKey(f) == SortKey(g) == BaseSortKey
  {
  }

  // ---------------------------------------------------------------------------
  // The inverse of the label text: it determines the name and the elevation.

  /** The position of the first `c` in `s`, if any. */
  function FirstIndex(s: string, c: char): (r: Option<nat>)
    ensures r.None? <==> c !in s
    ensures r.Some? ==> r.value < |s| && s[r.value] == c && c !in s[..r.value]
    decreases |s|
  {
    if |s| == 0 then None
    else if s[0] == c then Some(0)
    else match FirstIndex(s[1..], c)
      case None => None
      case Some(i) => assert s[..i + 1] == [s[0]] + s[1..][..i]; Some(i + 1)
  }

  /** The first `c` of `a + [c] + b` is the one right after `a` when `a` has none. */
  lemma FirstIndexAfterPrefix(a: string, c: char, b: string)
    requires c !in a
    ensures FirstIndex(a + [c] + b, c) == Some(|a|)
  {
    var s := a + [c] + b;
    assert s[|a|] == c;
    assert s[..|a|] == a;
  }

  /**
   * Reads a label back: splits at the first line break and parses `ele m` after it.
   * Text without a well-formed elevation line is a bare name.
   */
  function ParseLabel(t: string): Feature
  {
    match FirstIndex(t, '\n')
    case None => Feature(t, None)
    case Some(i) =>
      var rest := t[i + 1..];
      if |rest| >= 2 && rest[|rest| - 2..] == " m" && ParseInt(rest[..|rest| - 2]).Some? then
        Feature(t[..i], ParseInt(rest[..|rest| - 2]))
      else
        Feature(t, None)
  }

  /** The label text loses nothing: a name without line breaks and the elevation can be read back. */
  lemma LabelRoundTrip(f: Feature)
    requires '\n' !in f.name
    ensures ParseLabel(LabelText(f)) == f
  {
    var t := LabelText(f);
    match f.ele
    case None =>
    case Some(e) =>
      var digits := IntToString(e);
      assert t == f.name + ['\n'] + (digits + " m");
      FirstIndexAfterPrefix(f.name, '\n', digits + " m");
      var rest := t[|f.name| + 1..];
      assert rest == digits + " m";
      assert rest[..|rest| - 2] == digits;
      assert t[..|f.name|] == f.name;
      IntToStringRoundTrip(e);
  }

  /** The rule applied to the peak of the end-to-end example: Hårteigen, 1690 m. */
  lemma HarteigenLabel()
    ensures LabelText(Feature("Hårteigen", Some(1690))) == "Hårteigen\n1690 m"
    ensures SortKey(Feature("Hårteigen", Some(1690))) == 3310
  {
    assert NatToString(1690) == "1690" by {
      assert NatToString(1) == "1";
      assert NatToString(16) == "16";
      assert NatToString(169) == "169";
    }
  }
}
