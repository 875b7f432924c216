/** Attribute values as XML 1.0 reads them (sections 2.2, 2.3, 2.11, 3.1, 3.3.3, 4.1, 4.6), and the replacement
    of characters from which the escapers are built. */
module XmlText {

  /** str.replace and String.Replace with a pattern of one character. */
  function Replace(s: string, c: char, w: string): string {
    if s == "" then ""
    else (if s[0] == c then w else [s[0]]) + Replace(s[1..], c, w)
  }

  lemma {:induction false} ReplaceAppend(a: string, b: string, c: char, w: string)
    ensures Replace(a + b, c, w) == Replace(a, c, w) + Replace(b, c, w)
  {
    if a == "" {
      assert a + b == b;
    } else {
      assert (a + b)[1..] == a[1..] + b;
      ReplaceAppend(a[1..], b, c, w);
    }
  }

  /** A replacement that leaves the character d alone keeps or brings in a d exactly where expected. */
  lemma {:induction false} ReplaceMembers(s: string, c: char, w: string, d: char)
    ensures d in Replace(s, c, w) <==> (d in s && d != c) || (c in s && d in w)
  {
    if s != "" {
      ReplaceMembers(s[1..], c, w, d);
      assert s == [s[0]] + s[1..];
    }
  }

  lemma {:induction false} ReplaceAbsent(s: string, c: char, w: string)
    requires c !in s
    ensures Replace(s, c, w) == s
  {
    if s != "" {
      ReplaceAbsent(s[1..], c, w);
    }
  }

  lemma ReplaceOne(c: char, d: char, w: string)
    ensures Replace([c], d, w) == if c == d then w else [c]
  {
    assert Replace([c], d, w) == (if c == d then w else [c]) + Replace("", d, w);
  }

  /** None of the characters that a series of replacements looks for. */
  predicate Settled(x: string, keys: set<char>) {
    forall i | 0 <= i < |x| :: x[i] !in keys
  }

  /** What a replacement of a series makes of the string x that one character c has become so far. */
  lemma Next(x: string, c: char, keys: set<char>, d: char, w: string)
    requires d in keys && Settled(w, keys) && (x == [c] || (Settled(x, keys) && c in keys))
    ensures Replace(x, d, w) == if x == [c] && c == d then w else x
  {
    if x == [c] {
      ReplaceOne(c, d, w);
    } else {
      ReplaceAbsent(x, d, w);
    }
  }

  // ---------------------------------------------------------------- reading

  /** Section 2.2, Char; a Dafny char is never a surrogate. */
  predicate Legal(c: char) {
    (' ' <= c || c == '\t' || c == '\n' || c == '\r') && c != '\U{FFFE}' && c != '\U{FFFF}'
  }

  predicate AllLegal(s: string) {
    forall i | 0 <= i < |s| :: Legal(s[i])
  }

  predicate Space(c: char) {
    c == ' ' || c == '\t' || c == '\n' || c == '\r'
  }

  /** Section 3.3.3: a literal white space character counts as a space. */
  function Norm(c: char): char {
    if Space(c) then ' ' else c
  }

  /** Section 2.11: a carriage return with the line feed after it is one line end. */
  predicate LineEnd(s: string) {
    |s| > 1 && s[0] == '\r' && s[1] == '\n'
  }

  function NormAll(s: string): (r: string)
    ensures |r| <= |s|
    decreases |s|
  {
    if s == "" then ""
    else if LineEnd(s) then [' '] + NormAll(s[2..])
    else [Norm(s[0])] + NormAll(s[1..])
  }

  /** What follows any start is no longer when normalized than the whole. */
  lemma {:induction false} NormRest(s: string, k: nat)
    requires k <= |s|
    ensures |NormAll(s[k..])| <= |NormAll(s)|
    decreases |s|
  {
    if k > 0 {
      if LineEnd(s) {
        if k == 1 {
          assert s[1..][1..] == s[2..] && s[k..] == s[1..];
        } else {
          assert s[2..][k - 2..] == s[k..];
          NormRest(s[2..], k - 2);
        }
      } else {
        assert s[1..][k - 1..] == s[k..];
        NormRest(s[1..], k - 1);
      }
    }
  }

  predicate Starts(s: string, p: string) {
    |p| <= |s| && s[..|p|] == p
  }

  datatype Reference = NoRef | Ref(c: char, rest: string)

  function Digit(c: char, base: nat): int {
    if '0' <= c <= '9' then c as int - '0' as int
    else if base == 16 && 'a' <= c <= 'f' then c as int - 'a' as int + 10
    else if base == 16 && 'A' <= c <= 'F' then c as int - 'A' as int + 10
    else -1
  }

  /** Section 4.1, CharRef: digits up to the semicolon; the character must be legal. */
  function CharRef(s: string, base: nat, n: nat): (r: Reference)
    ensures r.Ref? ==> |r.rest| < |s|
  {
    if s == "" then NoRef
    else if s[0] == ';' then
      if (n < 0xD800 || 0xE000 <= n < 0x11_0000) && Legal(n as char) then Ref(n as char, s[1..]) else NoRef
    else if Digit(s[0], base) < 0 then NoRef
    else CharRef(s[1..], base, n * base + Digit(s[0], base))
  }

  /** The predefined entities of section 4.6. */
  function ReadEntity(s: string): (r: Reference)
    ensures r.Ref? ==> |r.rest| + 2 <= |s|
  {
    if Starts(s, "amp;") then Ref('&', s[4..])
    else if Starts(s, "lt;") then Ref('<', s[3..])
    else if Starts(s, "gt;") then Ref('>', s[3..])
    else if Starts(s, "quot;") then Ref('"', s[5..])
    else if Starts(s, "apos;") then Ref('\'', s[5..])
    else NoRef
  }

  /** What follows an ampersand. */
  function ReadReference(s: string): (r: Reference)
    ensures r.Ref? ==> |r.rest| + 2 <= |s|
  {
    if |s| > 2 && s[0] == '#' && s[1] == 'x' && Digit(s[2], 16) >= 0 then CharRef(s[2..], 16, 0)
    else if |s| > 1 && s[0] == '#' && Digit(s[1], 10) >= 0 then CharRef(s[1..], 10, 0)
    else ReadEntity(s)
  }

  datatype Value = NoValue | Value(text: string, rest: string)

  function Cons(c: char, v: Value): Value {
    if v.NoValue? then NoValue else Value([c] + v.text, v.rest)
  }

  /** Section 3.1, AttValue, after the opening quote: no `<`, references resolved, white space normalized. */
  function ReadValue(s: string, quote: char): (v: Value)
    ensures v.Value? ==> |v.text| + |v.rest| < |s|
    decreases |s|
  {
    if s == "" then NoValue
    else if s[0] == quote then Value("", s[1..])
    else if s[0] == '<' || !Legal(s[0]) then NoValue
    else if s[0] == '&' then
      var r := ReadReference(s[1..]);
      if r.NoRef? then NoValue else Cons(r.c, ReadValue(r.rest, quote))
    else if LineEnd(s) then Cons(' ', ReadValue(s[2..], quote))
    else Cons(Norm(s[0]), ReadValue(s[1..], quote))
  }

  /** The value with its quotes. */
  function ReadQuoted(s: string): (v: Value)
    ensures v.Value? ==> |v.text| + |v.rest| < |s|
  {
    if s != "" && (s[0] == '"' || s[0] == '\'') then ReadValue(s[1..], s[0]) else NoValue
  }

  lemma AmpersandStarts(name: string, c: char, rest: string, quote: char)
    requires quote == '"' || quote == '\''
    requires ReadReference(name + rest) == Ref(c, rest)
    ensures ReadValue("&" + name + rest, quote) == Cons(c, ReadValue(rest, quote))
  {
    assert ("&" + name + rest)[1..] == name + rest;
  }

  lemma EntityReads(name: string, c: char, rest: string)
    requires
      || (name == "amp;" && c == '&')
      || (name == "lt;" && c == '<')
      || (name == "gt;" && c == '>')
      || (name == "quot;" && c == '"')
      || (name == "apos;" && c == '\'')
    ensures ReadReference(name + rest) == Ref(c, rest)
  {
    var all := name + rest;
    assert all[..|name|] == name && all[|name|..] == rest;
    assert all[0] == name[0] && all[1] == name[1];
  }

  lemma ReadBetween(quote: char, body: string, rest: string)
    requires quote == '"' || quote == '\''
    ensures ReadQuoted([quote] + body + [quote] + rest) == ReadValue(body + [quote] + rest, quote)
  {
    assert ([quote] + body + [quote] + rest)[1..] == body + [quote] + rest;
  }

  // ---------------------------------------------------------------- values written without escaping

  /** Safe to write between double quotes as it stands. */
  predicate Plain(s: string) {
    AllLegal(s) && '"' !in s && '&' !in s && '<' !in s
  }

  /** Text that no reference can run into. */
  predicate Barrier(tail: string) {
    tail != "" && (tail[0] == '"' || tail[0] == '<')
  }

  function Later(r: Reference, tail: string): Reference {
    if r.NoRef? then NoRef else Ref(r.c, r.rest + tail)
  }

  lemma StartsLocal(s: string, tail: string, p: string)
    requires tail != "" && tail[0] !in p
    ensures Starts(s + tail, p) <==> Starts(s, p)
    ensures Starts(s, p) ==> (s + tail)[|p|..] == s[|p|..] + tail
  {
    if |p| <= |s| {
      assert (s + tail)[..|p|] == s[..|p|];
    } else if |p| <= |s + tail| {
      assert (s + tail)[..|p|][|s|] == tail[0];
    }
  }

  lemma {:induction false} CharRefLocal(s: string, tail: string, base: nat, n: nat)
    requires Barrier(tail)
    ensures CharRef(s + tail, base, n) == Later(CharRef(s, base, n), tail)
  {
    var all := s + tail;
    if s == "" {
      assert all == tail;
    } else {
      assert all[1..] == s[1..] + tail;
      if s[0] != ';' && Digit(s[0], base) >= 0 {
        CharRefLocal(s[1..], tail, base, n * base + Digit(s[0], base));
      }
    }
  }

  lemma EntityLocal(s: string, tail: string)
    requires Barrier(tail)
    ensures ReadEntity(s + tail) == Later(ReadEntity(s), tail)
  {
    StartsLocal(s, tail, "amp;");
    StartsLocal(s, tail, "lt;");
    StartsLocal(s, tail, "gt;");
    StartsLocal(s, tail, "quot;");
    StartsLocal(s, tail, "apos;");
  }

  /** What follows the text makes no difference to the reference at its start. */
  lemma ReferenceLocal(s: string, tail: string)
    requires Barrier(tail)
    ensures ReadReference(s + tail) == Later(ReadReference(s), tail)
  {
    var all := s + tail;
    EntityLocal(s, tail);
    if |s| > 2 && s[0] == '#' && s[1] == 'x' && Digit(s[2], 16) >= 0 {
      assert all[2..] == s[2..] + tail;
      CharRefLocal(s[2..], tail, 16, 0);
    } else if |s| > 1 && s[0] == '#' && Digit(s[1], 10) >= 0 {
      assert all[1..] == s[1..] + tail;
      CharRefLocal(s[1..], tail, 10, 0);
    }
  }

  lemma ReferenceBefore(s: string, rest: string)
    ensures var r := ReadReference(s);
      ReadReference(s + "\"" + rest) == if r.NoRef? then NoRef else Ref(r.c, r.rest + "\"" + rest)
  {
    ReferenceLocal(s, "\"" + rest);
    assert s + "\"" + rest == s + ("\"" + rest);
    var r := ReadReference(s);
    assert r.Ref? ==> r.rest + "\"" + rest == r.rest + ("\"" + rest);
  }

  /** A quote ends the value early and a reference takes more characters than it gives, so with either
      in it the text read is shorter than the text meant. */
  lemma {:induction false} ReadsShorter(s: string, rest: string)
    ensures var v := ReadValue(s + "\"" + rest, '"');
      v.Value? ==> |v.text| <= |NormAll(s)| && ('"' in s || '&' in s ==> |v.text| < |NormAll(s)|)
    decreases |s|
  {
    var all := s + "\"" + rest;
    if s == "" {
    } else if s[0] == '&' {
      ReferenceBefore(s[1..], rest);
      assert all[1..] == s[1..] + "\"" + rest;
      if ReadReference(s[1..]).Ref? {
        ReferenceShorter(s[1..]);
        ReadsShorter(ReadReference(s[1..]).rest, rest);
      }
    } else if LineEnd(s) {
      assert all[2..] == s[2..] + "\"" + rest && LineEnd(all);
      assert s == [s[0]] + [s[1]] + s[2..];
      ReadsShorter(s[2..], rest);
    } else {
      assert all[1..] == s[1..] + "\"" + rest && !LineEnd(all);
      assert s == [s[0]] + s[1..];
      ReadsShorter(s[1..], rest);
    }
  }

  /** A reference leaves the end of the text. */
  lemma {:induction false} CharRefEnd(s: string, base: nat, n: nat)
    ensures var r := CharRef(s, base, n); r.Ref? ==> r.rest == s[|s| - |r.rest|..]
  {
    if s != "" && s[0] != ';' && Digit(s[0], base) >= 0 {
      CharRefEnd(s[1..], base, n * base + Digit(s[0], base));
    }
  }

  lemma ReferenceEnd(s: string)
    ensures var r := ReadReference(s); r.Ref? ==> r.rest == s[|s| - |r.rest|..]
  {
    if |s| > 2 && s[0] == '#' && s[1] == 'x' && Digit(s[2], 16) >= 0 {
      CharRefEnd(s[2..], 16, 0);
    } else if |s| > 1 && s[0] == '#' && Digit(s[1], 10) >= 0 {
      CharRefEnd(s[1..], 10, 0);
    }
  }

  lemma ReferenceShorter(s: string)
    requires ReadReference(s).Ref?
    ensures |NormAll(ReadReference(s).rest)| < |NormAll(s)|
  {
    ReferenceEnd(s);
    var k := |s| - |ReadReference(s).rest|;
    assert s[0] != '\r';
    assert s[1..][k - 1..] == s[k..];
    NormRest(s[1..], k - 1);
  }

  /** With a quote or an ampersand in it the text is not plain, and does not come back. */
  lemma RawSpoiled(s: string, rest: string)
    requires '"' in s || '&' in s
    ensures !Plain(s)
    ensures ReadValue(s + "\"" + rest, '"').NoValue? || ReadValue(s + "\"" + rest, '"').text != NormAll(s)
  {
    ReadsShorter(s, rest);
  }

  lemma PlainRest(s: string, k: nat)
    requires 0 < k <= |s| && k == (if LineEnd(s) then 2 else 1)
    requires '"' !in s && '&' !in s
    ensures '"' !in s[k..] && '&' !in s[k..]
    ensures Plain(s) <==> s[0] != '<' && Legal(s[0]) && Plain(s[k..])
  {
    assert s == s[..k] + s[k..];
  }

  /** One step of the reader over a character, or a line end, that ends nothing. */
  lemma RawStep(s: string, k: nat, rest: string)
    requires 0 < k <= |s| && k == (if LineEnd(s) then 2 else 1) && s[0] != '"' && s[0] != '&'
    ensures ReadValue(s + "\"" + rest, '"') ==
      if s[0] == '<' || !Legal(s[0]) then NoValue
      else Cons(if k == 2 then ' ' else Norm(s[0]), ReadValue(s[k..] + "\"" + rest, '"'))
  {
    var all := s + "\"" + rest;
    assert all[k..] == s[k..] + "\"" + rest && LineEnd(all) == LineEnd(s);
  }

  /** Text written between double quotes unescaped is read back, its white space and line ends as spaces,
      exactly when it is plain. */
  lemma {:induction false} RawReadsBackIff(s: string, rest: string)
    ensures Plain(s) ==> ReadValue(s + "\"" + rest, '"') == Value(NormAll(s), rest)
    ensures !Plain(s) ==> ReadValue(s + "\"" + rest, '"').NoValue? || ReadValue(s + "\"" + rest, '"').text != NormAll(s)
    decreases |s|
  {
    if '"' in s || '&' in s {
      RawSpoiled(s, rest);
    } else if s == "" {
      assert (s + "\"" + rest)[1..] == rest;
    } else {
      var k := if LineEnd(s) then 2 else 1;
      RawStep(s, k, rest);
      PlainRest(s, k);
      RawReadsBackIff(s[k..], rest);
      if s[0] != '<' && Legal(s[0]) && !Plain(s[k..]) {
        ConsDiffers(if k == 2 then ' ' else Norm(s[0]), ReadValue(s[k..] + "\"" + rest, '"'), NormAll(s[k..]));
      }
    }
  }

  lemma ConsDiffers(c: char, v: Value, text: string)
    requires v.NoValue? || v.text != text
    ensures Cons(c, v).NoValue? || Cons(c, v).text != [c] + text
  {
    if v.Value? {
      assert ([c] + v.text)[1..] == v.text && ([c] + text)[1..] == text;
    }
  }
}
