/** The escaper of ws2r: my_replace and quoteattr in src/ws2r/ws2r.js.  String.replace with a text pattern
    changes the first occurrence only, and my_replace repeats it while the pattern is found. */
module JsEscape {
  import opened XmlText

  function Count(s: string, c: char): nat {
    if s == "" then 0 else (if s[0] == c then 1 else 0) + Count(s[1..], c)
  }

  lemma {:induction false} CountIn(s: string, c: char)
    ensures Count(s, c) > 0 <==> c in s
  {
    if s != "" {
      CountIn(s[1..], c);
      assert s == [s[0]] + s[1..];
    }
  }

  lemma {:induction false} CountAppend(a: string, b: string, c: char)
    ensures Count(a + b, c) == Count(a, c) + Count(b, c)
  {
    if a == "" {
      assert a + b == b;
    } else {
      assert (a + b)[1..] == a[1..] + b;
      CountAppend(a[1..], b, c);
    }
  }

  /** result.replace(c, w) */
  function ReplaceFirst(s: string, c: char, w: string): string {
    if s == "" then ""
    else if s[0] == c then w + s[1..]
    else [s[0]] + ReplaceFirst(s[1..], c, w)
  }

  lemma {:induction false} ReplaceFirstCount(s: string, c: char, w: string)
    requires c in s
    ensures Count(ReplaceFirst(s, c, w), c) == Count(s, c) - 1 + Count(w, c)
  {
    if s[0] == c {
      CountAppend(w, s[1..], c);
    } else {
      assert s == [s[0]] + s[1..];
      ReplaceFirstCount(s[1..], c, w);
      CountAppend([s[0]], ReplaceFirst(s[1..], c, w), c);
      CountAppend([s[0]], s[1..], c);
    }
  }

  /** Replacing the first occurrence by something without c leaves the rest of the work as it was. */
  lemma {:induction false} ReplaceFirstThenAll(s: string, c: char, w: string)
    requires c in s && c !in w
    ensures Replace(ReplaceFirst(s, c, w), c, w) == Replace(s, c, w)
  {
    if s[0] == c {
      ReplaceAppend(w, s[1..], c, w);
      ReplaceAbsent(w, c, w);
    } else {
      assert s == [s[0]] + s[1..];
      ReplaceFirstThenAll(s[1..], c, w);
      var t := ReplaceFirst(s[1..], c, w);
      assert ([s[0]] + t)[1..] == t;
    }
  }

  /** my_replace, for a call that returns: every occurrence is replaced, in one go. */
  method MyReplace(text: string, c: char, w: string) returns (result: string)
    requires c !in text || c !in w
    ensures result == Replace(text, c, w)
  {
    result := text;
    while c in result
      invariant c in result ==> c !in w
      invariant Replace(result, c, w) == Replace(text, c, w)
      decreases Count(result, c)
    {
      CountIn(w, c);
      ReplaceFirstCount(result, c, w);
      ReplaceFirstThenAll(result, c, w);
      result := ReplaceFirst(result, c, w);
    }
    ReplaceAbsent(result, c, w);
  }

  // ---------------------------------------------------------------- when the loop ends

  /** `result` after k turns of the loop. */
  function Turns(text: string, c: char, w: string, k: nat): string {
    if k == 0 then text else ReplaceFirst(Turns(text, c, w, k - 1), c, w)
  }

  ghost predicate Halts(text: string, c: char, w: string) {
    exists k: nat :: c !in Turns(text, c, w, k)
  }

  lemma {:induction false} NeverHalts(text: string, c: char, w: string, k: nat)
    requires c in text && c in w
    ensures c in Turns(text, c, w, k)
  {
    if k > 0 {
      NeverHalts(text, c, w, k - 1);
      var t := Turns(text, c, w, k - 1);
      CountIn(t, c);
      CountIn(w, c);
      ReplaceFirstCount(t, c, w);
      CountIn(ReplaceFirst(t, c, w), c);
    }
  }

  lemma {:induction false} CountDown(text: string, c: char, w: string, k: nat)
    requires c !in w && k <= Count(text, c)
    ensures Count(Turns(text, c, w, k), c) == Count(text, c) - k
  {
    if k > 0 {
      CountDown(text, c, w, k - 1);
      var t := Turns(text, c, w, k - 1);
      CountIn(t, c);
      CountIn(w, c);
      ReplaceFirstCount(t, c, w);
    }
  }

  /** my_replace returns exactly when the pattern is missing from the text or from its replacement. */
  lemma HaltsIff(text: string, c: char, w: string)
    ensures Halts(text, c, w) <==> c !in text || c !in w
  {
    if c !in text {
      assert c !in Turns(text, c, w, 0);
    } else if c !in w {
      CountDown(text, c, w, Count(text, c));
      CountIn(Turns(text, c, w, Count(text, c)), c);
    } else {
      forall k: nat ensures c in Turns(text, c, w, k) {
        NeverHalts(text, c, w, k);
      }
    }
  }

  /** quoteattr replaces & by &apos;, so it never gets past its first loop on text with an ampersand. */
  lemma AmpersandHangs(text: string)
    ensures Halts(text, '&', "&apos;") <==> '&' !in text
  {
    assert "&apos;"[0] == '&';
    HaltsIff(text, '&', "&apos;");
  }

  // ---------------------------------------------------------------- quoteattr on text without ampersands

  function Escape(s: string): string {
    Replace(Replace(Replace(Replace(Replace(s, '"', "&quot;"), '\'', "&apos;"), '\n', " "), '<', "&lt;"), '>', "&gt;")
  }

  method QuoteAttr(xml: string) returns (quoted: string)
    requires '&' !in xml
    ensures quoted == "\"" + Escape(xml) + "\""
  {
    var escaped := xml;
    escaped := MyReplace(escaped, '&', "&apos;");
    ReplaceAbsent(xml, '&', "&apos;");
    assert escaped == xml;
    escaped := MyReplace(escaped, '"', "&quot;");
    escaped := MyReplace(escaped, '\'', "&apos;");
    escaped := MyReplace(escaped, '\n', " ");
    escaped := MyReplace(escaped, '<', "&lt;");
    escaped := MyReplace(escaped, '>', "&gt;");
    quoted := "\"" + escaped + "\"";
  }

  /** What becomes of one character. */
  function Piece(c: char): string {
    if c == '"' then "&quot;"
    else if c == '\'' then "&apos;"
    else if c == '\n' then " "
    else if c == '<' then "&lt;"
    else if c == '>' then "&gt;"
    else [c]
  }

  function Pieces(s: string): string {
    if s == "" then "" else Piece(s[0]) + Pieces(s[1..])
  }

  lemma EscapeAppend(a: string, b: string)
    ensures Escape(a + b) == Escape(a) + Escape(b)
  {
    ReplaceAppend(a, b, '"', "&quot;");
    var a1, b1 := Replace(a, '"', "&quot;"), Replace(b, '"', "&quot;");
    ReplaceAppend(a1, b1, '\'', "&apos;");
    var a2, b2 := Replace(a1, '\'', "&apos;"), Replace(b1, '\'', "&apos;");
    ReplaceAppend(a2, b2, '\n', " ");
    var a3, b3 := Replace(a2, '\n', " "), Replace(b2, '\n', " ");
    ReplaceAppend(a3, b3, '<', "&lt;");
    var a4, b4 := Replace(a3, '<', "&lt;"), Replace(b3, '<', "&lt;");
    ReplaceAppend(a4, b4, '>', "&gt;");
  }

  const KEYS := {'"', '\'', '\n', '<', '>'}

  lemma SettledPieces()
    ensures Settled("&quot;", KEYS) && Settled("&apos;", KEYS) && Settled(" ", KEYS) && Settled("&lt;", KEYS) && Settled("&gt;", KEYS)
  {
  }

  lemma EscapeOne(c: char)
    ensures Escape([c]) == Piece(c)
  {
    SettledPieces();
    Next([c], c, KEYS, '"', "&quot;");
    var x1 := Replace([c], '"', "&quot;");
    Next(x1, c, KEYS, '\'', "&apos;");
    var x2 := Replace(x1, '\'', "&apos;");
    Next(x2, c, KEYS, '\n', " ");
    var x3 := Replace(x2, '\n', " ");
    Next(x3, c, KEYS, '<', "&lt;");
    Next(Replace(x3, '<', "&lt;"), c, KEYS, '>', "&gt;");
  }

  /** The loops one after the other are one pass over the characters. */
  lemma {:induction false} EscapeIsOnePass(s: string)
    ensures Escape(s) == Pieces(s)
  {
    if s != "" {
      assert s == [s[0]] + s[1..];
      EscapeAppend([s[0]], s[1..]);
      EscapeOne(s[0]);
      EscapeIsOnePass(s[1..]);
    }
  }

  // ---------------------------------------------------------------- reading back

  /** Every white space character turned into a space. */
  function Spaced(s: string): string {
    if s == "" then "" else [Norm(s[0])] + Spaced(s[1..])
  }

  lemma PieceStarts(c: char, rest: string)
    requires c != '&' && Legal(c) && rest != "" && rest[0] != '\n'
    ensures ReadValue(Piece(c) + rest, '"') == Cons(Norm(c), ReadValue(rest, '"'))
  {
    var all := Piece(c) + rest;
    if |Piece(c)| > 1 {
      var name := Piece(c)[1..];
      assert Piece(c) == "&" + name;
      assert all == "&" + name + rest;
      EntityReads(name, c, rest);
      AmpersandStarts(name, c, rest, '"');
    } else {
      assert all[1..] == rest;
    }
  }

  /** No newline is left after which a carriage return could hide. */
  lemma FirstNoNewline(s: string, rest: string)
    ensures (Pieces(s) + "\"" + rest)[0] != '\n'
  {
    if s != "" {
      assert Pieces(s)[0] == Piece(s[0])[0];
    }
  }

  lemma {:induction false} PiecesReadBackIff(s: string, rest: string)
    requires '&' !in s
    ensures ReadValue(Pieces(s) + "\"" + rest, '"') == if AllLegal(s) then Value(Spaced(s), rest) else NoValue
  {
    if s == "" {
      assert ("\"" + rest)[1..] == rest;
    } else {
      var tail := Pieces(s[1..]) + "\"" + rest;
      assert s == [s[0]] + s[1..];
      assert Pieces(s) + "\"" + rest == Piece(s[0]) + tail;
      PiecesReadBackIff(s[1..], rest);
      if Legal(s[0]) {
        FirstNoNewline(s[1..], rest);
        PieceStarts(s[0], tail);
        assert AllLegal(s) <==> AllLegal(s[1..]);
      } else {
        assert Piece(s[0]) == [s[0]];
      }
    }
  }

  lemma {:induction false} SpacedIsNewline(s: string)
    requires '\t' !in s && '\r' !in s
    ensures Spaced(s) == Replace(s, '\n', " ")
  {
    if s != "" {
      assert s == [s[0]] + s[1..];
      SpacedIsNewline(s[1..]);
    }
  }

  /** On text without ampersands an XML reader gets the text back with white space characters turned into
      spaces, which is each newline and nothing else if there are no tabs and carriage returns; text with
      a character XML does not allow cannot be read. */
  lemma QuotedReadsBackIff(s: string, rest: string)
    requires '&' !in s
    ensures ReadQuoted("\"" + Escape(s) + "\"" + rest) == if AllLegal(s) then Value(Spaced(s), rest) else NoValue
    ensures '\t' !in s && '\r' !in s ==> Spaced(s) == Replace(s, '\n', " ")
  {
    EscapeIsOnePass(s);
    PiecesReadBackIff(s, rest);
    ReadBetween('"', Escape(s), rest);
    if '\t' !in s && '\r' !in s {
      SpacedIsNewline(s);
    }
  }
}
