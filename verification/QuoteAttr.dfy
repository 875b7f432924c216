/** xml.sax.saxutils.quoteattr as documented, which format_xml of src/es2r/es2r.py uses for free text. */
module QuoteAttr {
  import opened Base
  import opened XmlText

  /** escape() with the three extra entities of quoteattr, one replacement after the other. */
  function Escape(s: string): string {
    Replace(Replace(Replace(Replace(Replace(Replace(s,
      '&', "&amp;"), '>', "&gt;"), '<', "&lt;"), '\n', "&#10;"), '\r', "&#13;"), '\t', "&#9;")
  }

  /** Double quotes, unless only single ones need no escaping. */
  function Quoted(s: string): string {
    var data := Escape(s);
    if '"' in data then
      if '\'' in data then "\"" + Replace(data, '"', "&quot;") + "\""
      else "'" + data + "'"
    else "\"" + data + "\""
  }

  /** What becomes of one character. */
  function Piece(c: char, both: bool): string {
    if c == '&' then "&amp;"
    else if c == '>' then "&gt;"
    else if c == '<' then "&lt;"
    else if c == '\n' then "&#10;"
    else if c == '\r' then "&#13;"
    else if c == '\t' then "&#9;"
    else if c == '"' && both then "&quot;"
    else [c]
  }

  function Pieces(s: string, both: bool): string {
    if s == "" then "" else Piece(s[0], both) + Pieces(s[1..], both)
  }

  function Sequential(s: string, both: bool): string {
    if both then Replace(Escape(s), '"', "&quot;") else Escape(s)
  }

  lemma EscapeAppend(a: string, b: string)
    ensures Escape(a + b) == Escape(a) + Escape(b)
  {
    ReplaceAppend(a, b, '&', "&amp;");
    var a1, b1 := Replace(a, '&', "&amp;"), Replace(b, '&', "&amp;");
    ReplaceAppend(a1, b1, '>', "&gt;");
    var a2, b2 := Replace(a1, '>', "&gt;"), Replace(b1, '>', "&gt;");
    ReplaceAppend(a2, b2, '<', "&lt;");
    var a3, b3 := Replace(a2, '<', "&lt;"), Replace(b2, '<', "&lt;");
    ReplaceAppend(a3, b3, '\n', "&#10;");
    var a4, b4 := Replace(a3, '\n', "&#10;"), Replace(b3, '\n', "&#10;");
    ReplaceAppend(a4, b4, '\r', "&#13;");
    var a5, b5 := Replace(a4, '\r', "&#13;"), Replace(b4, '\r', "&#13;");
    ReplaceAppend(a5, b5, '\t', "&#9;");
  }

  /** The keys of the replacements after the ampersand. */
  const KEYS := {'>', '<', '\n', '\r', '\t', '"'}

  lemma SettledPieces()
    ensures Settled("&gt;", KEYS) && Settled("&lt;", KEYS) && Settled("&#10;", KEYS)
    ensures Settled("&#13;", KEYS) && Settled("&#9;", KEYS) && Settled("&quot;", KEYS)
  {
  }

  /** The ampersand goes first, before the replacements that bring one in, so nothing is escaped twice. */
  lemma EscapeAmpersand(both: bool)
    ensures Sequential("&", both) == "&amp;"
  {
    ReplaceOne('&', '&', "&amp;");
    assert Settled("&amp;", KEYS);
    ReplaceAbsent("&amp;", '>', "&gt;");
    ReplaceAbsent("&amp;", '<', "&lt;");
    ReplaceAbsent("&amp;", '\n', "&#10;");
    ReplaceAbsent("&amp;", '\r', "&#13;");
    ReplaceAbsent("&amp;", '\t', "&#9;");
    ReplaceAbsent("&amp;", '"', "&quot;");
  }

  lemma EscapeOne(c: char, both: bool)
    requires c != '&'
    ensures Sequential([c], both) == Piece(c, both)
  {
    ReplaceOne(c, '&', "&amp;");
    SettledPieces();
    Next([c], c, KEYS, '>', "&gt;");
    var x2 := Replace([c], '>', "&gt;");
    Next(x2, c, KEYS, '<', "&lt;");
    var x3 := Replace(x2, '<', "&lt;");
    Next(x3, c, KEYS, '\n', "&#10;");
    var x4 := Replace(x3, '\n', "&#10;");
    Next(x4, c, KEYS, '\r', "&#13;");
    var x5 := Replace(x4, '\r', "&#13;");
    Next(x5, c, KEYS, '\t', "&#9;");
    var x6 := Replace(x5, '\t', "&#9;");
    Next(x6, c, KEYS, '"', "&quot;");
  }

  /** The replacements in sequence are one pass over the characters. */
  lemma {:induction false} SequentialIsOnePass(s: string, both: bool)
    ensures Sequential(s, both) == Pieces(s, both)
  {
    if s != "" {
      assert s == [s[0]] + s[1..];
      EscapeAppend([s[0]], s[1..]);
      ReplaceAppend(Escape([s[0]]), Escape(s[1..]), '"', "&quot;");
      if s[0] == '&' { EscapeAmpersand(both); } else { EscapeOne(s[0], both); }
      SequentialIsOnePass(s[1..], both);
    }
  }

  // ---------------------------------------------------------------- reading back

  lemma DigitReads(d: char, n: nat, rest: string)
    requires '0' <= d <= '9'
    ensures CharRef([d] + rest, 10, n) == CharRef(rest, 10, n * 10 + (d as int - '0' as int))
  {
    assert ([d] + rest)[1..] == rest;
  }

  lemma SpaceReads(name: string, c: char, rest: string)
    requires (name == "#10;" && c == '\n') || (name == "#13;" && c == '\r') || (name == "#9;" && c == '\t')
    ensures ReadReference(name + rest) == Ref(c, rest)
  {
    var all, end := name + rest, ";" + rest;
    assert end[1..] == rest;
    assert CharRef(end, 10, c as int) == Ref(c, rest);
    if c == '\t' {
      assert all[1..] == ['9'] + end;
      DigitReads('9', 0, end);
    } else {
      assert all[1..] == ['1'] + ([name[2]] + end);
      DigitReads('1', 0, [name[2]] + end);
      DigitReads(name[2], 1, end);
    }
  }

  lemma PieceStarts(c: char, both: bool, quote: char, rest: string)
    requires quote == '"' || quote == '\''
    requires c != quote || (c == '"' && both)
    requires Legal(c)
    ensures ReadValue(Piece(c, both) + rest, quote) == Cons(c, ReadValue(rest, quote))
  {
    var all := Piece(c, both) + rest;
    if c in KEYS || c == '&' {
      if |Piece(c, both)| > 1 {
        var name := Piece(c, both)[1..];
        assert Piece(c, both) == "&" + name;
        assert all == "&" + name + rest;
        if Space(c) { SpaceReads(name, c, rest); } else { EntityReads(name, c, rest); }
        AmpersandStarts(name, c, rest, quote);
      } else {
        assert all[1..] == rest;
      }
    } else {
      assert all[1..] == rest;
    }
  }

  /** Escaped text is read back exactly, white space included, if every character is legal, and otherwise
      not at all. */
  lemma {:induction false} PiecesReadBackIff(s: string, both: bool, quote: char, rest: string)
    requires quote == '"' || quote == '\''
    requires quote !in s || (quote == '"' && both)
    ensures ReadValue(Pieces(s, both) + [quote] + rest, quote) == if AllLegal(s) then Value(s, rest) else NoValue
  {
    if s == "" {
      assert ([quote] + rest)[1..] == rest;
    } else {
      var tail := Pieces(s[1..], both) + [quote] + rest;
      assert s == [s[0]] + s[1..];
      assert Pieces(s, both) + [quote] + rest == Piece(s[0], both) + tail;
      PiecesReadBackIff(s[1..], both, quote, rest);
      if Legal(s[0]) {
        PieceStarts(s[0], both, quote, tail);
        assert AllLegal(s) <==> AllLegal(s[1..]);
      } else {
        assert Piece(s[0], both) == [s[0]];
      }
    }
  }

  /** Escaping brings in no quote of either kind. */
  lemma EscapeKeepsQuotes(s: string, q: char)
    requires q == '"' || q == '\''
    ensures q in Escape(s) <==> q in s
  {
    ReplaceMembers(s, '&', "&amp;", q);
    var s1 := Replace(s, '&', "&amp;");
    ReplaceMembers(s1, '>', "&gt;", q);
    var s2 := Replace(s1, '>', "&gt;");
    ReplaceMembers(s2, '<', "&lt;", q);
    var s3 := Replace(s2, '<', "&lt;");
    ReplaceMembers(s3, '\n', "&#10;", q);
    var s4 := Replace(s3, '\n', "&#10;");
    ReplaceMembers(s4, '\r', "&#13;", q);
    ReplaceMembers(Replace(s4, '\r', "&#13;"), '\t', "&#9;", q);
  }

  predicate BothQuotes(s: string) {
    '"' in s && '\'' in s
  }

  function QuoteOf(s: string): char {
    if '"' in s && '\'' !in s then '\'' else '"'
  }

  lemma QuotedIsOnePass(s: string)
    ensures Quoted(s) == [QuoteOf(s)] + Pieces(s, BothQuotes(s)) + [QuoteOf(s)]
  {
    EscapeKeepsQuotes(s, '"');
    EscapeKeepsQuotes(s, '\'');
    SequentialIsOnePass(s, BothQuotes(s));
  }

  /** quoteattr and an XML reader are inverse to each other on legal text, whatever quotes it has; text with
      a character XML does not allow cannot be read. */
  lemma QuotedReadsBackIff(s: string, rest: string)
    ensures ReadQuoted(Quoted(s) + rest) == if AllLegal(s) then Value(s, rest) else NoValue
  {
    QuotedIsOnePass(s);
    var q, body := QuoteOf(s), Pieces(s, BothQuotes(s));
    ReadBetween(q, body, rest);
    PiecesReadBackIff(s, BothQuotes(s), q, rest);
  }

  lemma PieceOneLine(c: char, both: bool)
    ensures OneLine(Piece(c, both))
  {
  }

  /** No line break gets through. */
  lemma {:induction false} PiecesOneLine(s: string, both: bool)
    ensures OneLine(Pieces(s, both))
  {
    if s != "" {
      PieceOneLine(s[0], both);
      PiecesOneLine(s[1..], both);
    }
  }

  lemma QuotedOneLine(s: string)
    ensures OneLine(Quoted(s))
  {
    QuotedIsOnePass(s);
    PiecesOneLine(s, BothQuotes(s));
  }
}
