/** The values of a change record, how Python's str() spells them, and how the C# client reads numbers and
    truth values back.  src/es2r/es2r.py and clients/c#/XmlRcs/XmlRcs/Provider.cs. */
module Scalars {
  import opened XmlText

  /** A JSON value without structure; numbers are whole. */
  datatype Scalar = Text(s: string) | Int(i: int) | Bool(b: bool) | Null

  function Decimal(n: nat): (r: string)
    ensures r != ""
  {
    (if n < 10 then "" else Decimal(n / 10)) + [(n % 10 + '0' as int) as char]
  }

  function Str(v: Scalar): string {
    match v
    case Text(s) => s
    case Int(i) => if i < 0 then "-" + Decimal(0 - i) else Decimal(i)
    case Bool(b) => if b then "True" else "False"
    case Null => "None"
  }

  // ---------------------------------------------------------------- int.TryParse

  predicate Blank(c: char) {
    '\t' <= c <= '\r' || c == ' '
  }

  function TrimLeft(s: string): (r: string)
    ensures |r| <= |s|
  {
    if s != "" && Blank(s[0]) then TrimLeft(s[1..]) else s
  }

  function TrimRight(s: string): string {
    if s != "" && Blank(s[|s| - 1]) then TrimRight(s[..|s| - 1]) else s
  }

  function TrimNuls(s: string): string {
    if s != "" && s[|s| - 1] == '\0' then TrimNuls(s[..|s| - 1]) else s
  }

  /** What the number parsers look past: blanks on both sides, and NULs after those on the right. */
  function TrimNumber(s: string): string {
    TrimRight(TrimNuls(TrimLeft(s)))
  }

  predicate Digits(s: string) {
    s != "" && forall i | 0 <= i < |s| :: '0' <= s[i] <= '9'
  }

  function Magnitude(s: string): nat
    requires forall i | 0 <= i < |s| :: '0' <= s[i] <= '9'
  {
    if s == "" then 0 else Magnitude(s[..|s| - 1]) * 10 + (s[|s| - 1] as int - '0' as int)
  }

  function Clip(n: int): int {
    if -0x8000_0000 <= n <= 0x7fff_ffff then n else 0
  }

  /** One sign, digits; 0 for anything else and for what 32 bits cannot hold. */
  function Whole(t: string): int {
    if Digits(t) then Clip(Magnitude(t))
    else if t != "" && (t[0] == '-' || t[0] == '+') && Digits(t[1..]) then
      Clip(if t[0] == '-' then 0 - Magnitude(t[1..]) else Magnitude(t[1..]))
    else 0
  }

  /** int.TryParse, with 0 where it answers false. */
  function TryParseIS(input: string): int {
    Whole(TrimNumber(input))
  }

  lemma {:induction false} BlanksLeft(a: string, t: string)
    requires (forall i | 0 <= i < |a| :: Blank(a[i])) && (t == "" || !Blank(t[0]))
    ensures TrimLeft(a + t) == t
  {
    if a == "" {
      assert a + t == t;
    } else {
      assert (a + t)[1..] == a[1..] + t;
      BlanksLeft(a[1..], t);
    }
  }

  lemma {:induction false} BlanksRight(t: string, b: string)
    requires (forall i | 0 <= i < |b| :: Blank(b[i])) && (t == "" || !Blank(t[|t| - 1]))
    ensures TrimRight(t + b) == t
  {
    if b == "" {
      assert t + b == t;
    } else {
      var c := b[..|b| - 1];
      assert (t + b)[..|t + b| - 1] == t + c;
      BlanksRight(t, c);
    }
  }

  /** Blanks on either side of a number make no difference. */
  lemma PaddedNumber(a: string, t: string, b: string)
    requires (forall i | 0 <= i < |a| :: Blank(a[i])) && (forall i | 0 <= i < |b| :: Blank(b[i]))
    requires t != "" && !Blank(t[0]) && !Blank(t[|t| - 1]) && t[|t| - 1] != '\0'
    ensures TryParseIS(a + t + b) == Whole(t)
  {
    assert a + t + b == a + (t + b);
    BlanksLeft(a, t + b);
    assert TrimNuls(t + b) == t + b;
    BlanksRight(t, b);
  }

  // ---------------------------------------------------------------- bool.Parse

  datatype Truth = NotBool | Truth(b: bool)

  /** char.IsWhiteSpace, or the NUL that bool.Parse trims as well. */
  predicate Trimmed(c: char) {
    || Blank(c) || c == '\0' || c == '\U{85}' || c == '\U{A0}' || c == '\U{1680}' || '\U{2000}' <= c <= '\U{200A}'
    || c == '\U{2028}' || c == '\U{2029}' || c == '\U{202F}' || c == '\U{205F}' || c == '\U{3000}'
  }

  function TrimWordLeft(s: string): (r: string)
    ensures |r| <= |s|
  {
    if s != "" && Trimmed(s[0]) then TrimWordLeft(s[1..]) else s
  }

  function TrimWordRight(s: string): string {
    if s != "" && Trimmed(s[|s| - 1]) then TrimWordRight(s[..|s| - 1]) else s
  }

  function Lower(s: string): string {
    if s == "" then ""
    else [if 'A' <= s[0] <= 'Z' then (s[0] as int + 32) as char else s[0]] + Lower(s[1..])
  }

  /** bool.Parse, which raises for anything but the two words. */
  function BoolParse(input: string): Truth {
    var t := Lower(TrimWordRight(TrimWordLeft(input)));
    if t == "true" then Truth(true) else if t == "false" then Truth(false) else NotBool
  }

  // ---------------------------------------------------------------- round trips

  lemma {:induction false} DecimalMagnitude(n: nat)
    ensures Digits(Decimal(n)) && Magnitude(Decimal(n)) == n
  {
    var d := Decimal(n);
    var last := (n % 10 + '0' as int) as char;
    if n >= 10 {
      DecimalMagnitude(n / 10);
      assert d[..|d| - 1] == Decimal(n / 10);
    } else {
      assert d == [last];
      assert d[..0] == "";
    }
    assert d[|d| - 1] == last;
  }

  predicate Tame(c: char) {
    c == '-' || '0' <= c <= '9' || 'A' <= c <= 'Z' || 'a' <= c <= 'z'
  }

  predicate AllTame(s: string) {
    s != "" && forall i | 0 <= i < |s| :: Tame(s[i])
  }

  lemma StrTame(v: Scalar)
    requires !v.Text?
    ensures AllTame(Str(v))
  {
    if v.Int? {
      DecimalMagnitude(if v.i < 0 then -v.i else v.i);
    }
  }

  lemma NothingToTrim(s: string)
    requires AllTame(s)
    ensures TrimNumber(s) == s && TrimWordRight(TrimWordLeft(s)) == s
  {
    assert Tame(s[0]) && Tame(s[|s| - 1]);
  }

  lemma ReadsDigits(d: string)
    requires Digits(d)
    ensures TryParseIS(d) == Clip(Magnitude(d))
  {
    assert AllTame(d);
    NothingToTrim(d);
  }

  lemma ReadsNegative(d: string)
    requires Digits(d)
    ensures TryParseIS("-" + d) == Clip(0 - Magnitude(d))
  {
    assert AllTame("-" + d);
    NothingToTrim("-" + d);
    NegativeWhole(d);
  }

  lemma NegativeWhole(d: string)
    requires Digits(d)
    ensures Whole("-" + d) == Clip(0 - Magnitude(d))
  {
    var t := "-" + d;
    assert t[0] == '-' && t[1..] == d;
  }

  lemma DigitsOf(i: int) returns (d: string)
    ensures Digits(d) && i == if i < 0 then 0 - Magnitude(d) else Magnitude(d)
    ensures Str(Int(i)) == if i < 0 then "-" + d else d
  {
    var n: nat := if i < 0 then 0 - i else i;
    d := Decimal(n);
    DecimalMagnitude(n);
  }

  /** A whole number survives str() and int.TryParse if 32 bits hold it, and becomes 0 otherwise. */
  lemma IntReadsBack(i: int)
    ensures TryParseIS(Str(Int(i))) == if -0x8000_0000 <= i <= 0x7fff_ffff then i else 0
  {
    var d := DigitsOf(i);
    if i < 0 { ReadsNegative(d); } else { ReadsDigits(d); }
  }

  lemma Words()
    ensures Lower("True") == "true" && Lower("False") == "false" && Lower("None")[0] == 'n'
  {
  }

  /** Python's True and False survive bool.Parse; JSON null, spelled None, does not, nor does a number. */
  lemma BoolReadsBackIff(v: Scalar)
    requires !v.Text?
    ensures BoolParse(Str(v)) == if v.Bool? then Truth(v.b) else NotBool
  {
    StrTame(v);
    NothingToTrim(Str(v));
    Words();
    if v.Int? {
      DecimalMagnitude(if v.i < 0 then -v.i else v.i);
      assert Lower(Str(v))[0] == Str(v)[0];
    }
  }

  /** Only text can spoil an attribute that is written without escaping. */
  lemma ScalarPlain(v: Scalar)
    requires !v.Text?
    ensures Plain(Str(v)) && NormAll(Str(v)) == Str(v)
  {
    StrTame(v);
    TamePlain(Str(v));
  }

  lemma {:induction false} TamePlain(s: string)
    requires forall i | 0 <= i < |s| :: Tame(s[i])
    ensures Plain(s) && NormAll(s) == s
  {
    if s != "" {
      assert !LineEnd(s);
      TamePlain(s[1..]);
    }
  }
}
