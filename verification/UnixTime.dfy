/** How the C# client takes the timestamp of an edit: double.Parse, then AddSeconds from 1970.
    clients/c#/XmlRcs/XmlRcs/Provider.cs and Configuration.cs. */
module UnixTime {
  import opened Scalars

  /** The first and the last millisecond that a DateTime can hold, counted from 1970. */
  const FIRST_MS := -62_135_596_800_000
  const LAST_MS := 253_402_300_799_999

  // ---------------------------------------------------------------- double.Parse

  /** A number, or text that is none; the infinities and NaN count as none, since AddSeconds raises on them. */
  datatype Double = NotNumber | Number(x: real)

  predicate Digit(c: char) {
    '0' <= c <= '9'
  }

  /** The first place of either character, or the length. */
  function Find(s: string, c: char, d: char): (n: nat)
    ensures n <= |s|
  {
    if s == "" || s[0] == c || s[0] == d then 0 else 1 + Find(s[1..], c, d)
  }

  predicate AllDigits(s: string) {
    forall i | 0 <= i < |s| :: Digit(s[i])
  }

  /** Digits in which commas may stand anywhere after the first. */
  predicate Grouped(s: string) {
    (s == "" || Digit(s[0])) && forall i | 0 <= i < |s| :: Digit(s[i]) || s[i] == ','
  }

  function Ungrouped(s: string): (r: string)
    requires forall i | 0 <= i < |s| :: Digit(s[i]) || s[i] == ','
    ensures AllDigits(r)
  {
    if s == "" then "" else (if s[0] == ',' then "" else [s[0]]) + Ungrouped(s[1..])
  }

  function Pow10(n: nat): (r: nat)
    ensures r >= 1
  {
    if n == 0 then 1 else 10 * Pow10(n - 1)
  }

  function Mantissa(s: string): Double {
    var p := Find(s, '.', '.');
    var whole, fraction := s[..p], if p == |s| then "" else s[p + 1..];
    if !Grouped(whole) || !AllDigits(fraction) || whole + fraction == "" then NotNumber
    else Number(Magnitude(Ungrouped(whole)) as real + Magnitude(fraction) as real / Pow10(|fraction|) as real)
  }

  predicate Signed(s: string) {
    s != "" && (s[0] == '-' || s[0] == '+')
  }

  /** m times ten to the power that e spells. */
  function Scaled(m: Double, e: string): Double {
    var digits := if Signed(e) then e[1..] else e;
    if m.NotNumber? || !Digits(digits) then NotNumber
    else if e[0] == '-' then Number(m.x / Pow10(Magnitude(digits)) as real)
    else Number(m.x * Pow10(Magnitude(digits)) as real)
  }

  function Unsigned(s: string): Double {
    var p := Find(s, 'e', 'E');
    if p == |s| then Mantissa(s) else Scaled(Mantissa(s[..p]), s[p + 1..])
  }

  function Negative(d: Double): Double {
    if d.NotNumber? then d else Number(0.0 - d.x)
  }

  /** double.Parse with the invariant culture, without rounding. */
  function DoubleParse(input: string): Double {
    var t := TrimNumber(input);
    if !Signed(t) then Unsigned(t)
    else if t[0] == '-' then Negative(Unsigned(t[1..]))
    else Unsigned(t[1..])
  }

  // ---------------------------------------------------------------- AddSeconds

  /** To the nearest millisecond, halves away from zero. */
  function Millis(x: real): int {
    if x >= 0.0 then (x * 1000.0 + 0.5).Floor else 0 - (0.5 - x * 1000.0).Floor
  }

  datatype Moment = NoMoment | Moment(ms: int)

  /** UnixTimeStampToDateTime(double.Parse(s)) before the conversion to local time, or the exception of either. */
  function FromText(s: string): Moment {
    var d := DoubleParse(s);
    if d.NotNumber? || !(FIRST_MS <= Millis(d.x) <= LAST_MS) then NoMoment else Moment(Millis(d.x))
  }

  // ---------------------------------------------------------------- what Python writes

  lemma {:induction false} FindNone(s: string, c: char, d: char)
    requires c !in s && d !in s
    ensures Find(s, c, d) == |s|
  {
    if s != "" {
      FindNone(s[1..], c, d);
    }
  }

  lemma {:induction false} UngroupedDigits(s: string)
    requires AllDigits(s)
    ensures Ungrouped(s) == s
  {
    if s != "" {
      UngroupedDigits(s[1..]);
    }
  }

  lemma DigitsParse(d: string)
    requires Digits(d)
    ensures Unsigned(d) == Number(Magnitude(d) as real)
  {
    FindNone(d, 'e', 'E');
    FindNone(d, '.', '.');
    assert d[..|d|] == d && AllDigits(d) && Grouped(d);
    UngroupedDigits(d);
    assert Pow10(0) == 1 && Magnitude("") == 0;
  }

  lemma WholeMillis(i: int)
    ensures Millis(i as real) == i * 1000
  {
  }

  /** A word has no value as a number. */
  lemma WordParse(s: string)
    requires AllTame(s) && !Digit(s[0]) && s[0] != '-' && s[0] != 'e' && s[0] != 'E'
    ensures DoubleParse(s) == NotNumber
  {
    NothingToTrim(s);
    var p := Find(s, 'e', 'E');
    assert p > 0;
    var m := s[..p];
    assert m[0] == s[0];
    var q := Find(m, '.', '.');
    assert q > 0 && !Grouped(m[..q]);
    assert s[..|s|] == s;
  }

  lemma PositiveParse(d: string)
    requires Digits(d)
    ensures DoubleParse(d) == Number(Magnitude(d) as real)
  {
    assert AllTame(d);
    NothingToTrim(d);
    DigitsParse(d);
  }

  lemma NegativeParse(d: string)
    requires Digits(d)
    ensures DoubleParse("-" + d) == Number(0.0 - Magnitude(d) as real)
  {
    var t := "-" + d;
    assert t[0] == '-' && t[1..] == d;
    assert AllTame(t);
    NothingToTrim(t);
    DigitsParse(d);
  }

  lemma IntParse(i: int)
    ensures DoubleParse(Str(Int(i))) == Number(i as real)
  {
    var d := DigitsOf(i);
    if i < 0 {
      NegativeParse(d);
    } else {
      PositiveParse(d);
    }
  }

  /** A timestamp that is no text survives exactly if it is a number of seconds that DateTime can hold; null,
      True and False raise. */
  lemma TimeReadsBackIff(v: Scalar)
    requires !v.Text?
    ensures FromText(Str(v)) ==
      if v.Int? && -62_135_596_800 <= v.i <= 253_402_300_799 then Moment(v.i * 1000) else NoMoment
  {
    if v.Int? {
      IntParse(v.i);
      WholeMillis(v.i);
    } else {
      StrTame(v);
      assert Str(v)[0] == 'T' || Str(v)[0] == 'F' || Str(v)[0] == 'N';
      WordParse(Str(v));
    }
  }
}
