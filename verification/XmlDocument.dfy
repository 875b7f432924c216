/** Documents as XML 1.0 reads them from their start tag on: tags and attributes (section 3.1), content with its
    elements, references, comments, CDATA sections and processing instructions (2.4 to 2.7, 3.1, 4.1), and what may
    follow the root element (2.8).  XmlDocument.LoadXml as the C# client calls it on every line. */
module XmlDocument {
  import opened Base
  import opened XmlText

  // ---------------------------------------------------------------- names and attributes

  predicate NameChar(c: char) {
    'a' <= c <= 'z' || 'A' <= c <= 'Z' || '0' <= c <= '9' || c == '_' || c == ':' || c == '-' || c == '.'
  }

  /** The length of the longest name at the start; names are ASCII here. */
  function NameLength(s: string): (n: nat)
    ensures n <= |s|
  {
    if s != "" && NameChar(s[0]) then 1 + NameLength(s[1..]) else 0
  }

  predicate NameAt(s: string) {
    s != "" && NameChar(s[0]) && !('0' <= s[0] <= '9') && s[0] != '-' && s[0] != '.'
  }

  predicate IsName(n: string) {
    NameAt(n) && forall i | 0 <= i < |n| :: NameChar(n[i])
  }

  function SkipSpace(s: string): (r: string)
    ensures |r| <= |s|
  {
    if s != "" && Space(s[0]) then SkipSpace(s[1..]) else s
  }

  type Pair = (string, string)

  /** The attributes of a tag, whether it is that of an empty element, and what follows it. */
  datatype Tag = NoTag | Tag(attrs: seq<Pair>, lone: bool, rest: string)

  function ConsAttr(p: Pair, t: Tag): Tag {
    if t.NoTag? then NoTag else Tag([p] + t.attrs, t.lone, t.rest)
  }

  /** Name Eq AttValue, and how much of the text is left. */
  datatype One = NoOne | One(p: Pair, rest: string)

  function ReadAttr(s: string): (o: One)
    ensures o.One? ==> |o.rest| < |s|
  {
    var n := NameLength(s);
    var eq := SkipSpace(s[n..]);
    if !NameAt(s) || eq == "" || eq[0] != '=' then NoOne
    else
      var v := ReadQuoted(SkipSpace(eq[1..]));
      if v.NoValue? then NoOne else One((s[..n], v.text), v.rest)
  }

  /** (S Attribute)* S? and then '>' or '/>'. */
  function ReadAttrs(s: string): (t: Tag)
    ensures t.Tag? ==> |t.rest| < |s|
    decreases |s|
  {
    var t := SkipSpace(s);
    if t == "" then NoTag
    else if t[0] == '>' then Tag([], false, t[1..])
    else if Starts(t, "/>") then Tag([], true, t[2..])
    else if t == s then NoTag
    else
      var o := ReadAttr(t);
      if o.NoOne? then NoTag else ConsAttr(o.p, ReadAttrs(o.rest))
  }

  predicate UniqueNames(attrs: seq<Pair>) {
    forall i, j | 0 <= i < j < |attrs| :: attrs[i].0 != attrs[j].0
  }

  // ---------------------------------------------------------------- content

  /** The first piece of a text: a tag, or a bit that neither opens nor closes an element. */
  datatype Token =
    | Bad
    | Bit(rest: string)
    | Lone(name: string, attrs: seq<Pair>, rest: string)
    | Opens(name: string, attrs: seq<Pair>, rest: string)
    | Closes(name: string, rest: string)

  function BitOf(rest: Option<string>): Token {
    if rest.None? then Bad else Bit(rest.value)
  }

  /** What follows the first occurrence of the delimiter, if everything before it is legal. */
  function Past(s: string, delimiter: string): (r: Option<string>)
    ensures r.Some? ==> |r.value| <= |s|
  {
    if Starts(s, delimiter) then Some(s[|delimiter|..])
    else if s == "" || !Legal(s[0]) then None
    else Past(s[1..], delimiter)
  }

  /** Two hyphens may stand in a comment only at its end. */
  function ReadComment(s: string): (t: Token)
    ensures t.Bit? ==> |t.rest| <= |s|
  {
    var r := Past(s, "--");
    if r.None? || !Starts(r.value, ">") then Bad else Bit(r.value[1..])
  }

  predicate Reserved(target: string) {
    && |target| == 3 && (target[0] == 'x' || target[0] == 'X')
    && (target[1] == 'm' || target[1] == 'M') && (target[2] == 'l' || target[2] == 'L')
  }

  function ReadInstruction(s: string): (t: Token)
    ensures t.Bit? ==> |t.rest| <= |s|
  {
    var n := NameLength(s);
    var data := s[n..];
    if !NameAt(s) || Reserved(s[..n]) || data == "" || !(Space(data[0]) || Starts(data, "?>")) then Bad
    else BitOf(Past(data, "?>"))
  }

  function ReadStart(s: string): (t: Token)
    ensures t.Lone? || t.Opens? ==> |t.rest| <= |s|
  {
    var n := NameLength(s);
    var t := ReadAttrs(s[n..]);
    if t.NoTag? || !UniqueNames(t.attrs) then Bad
    else if t.lone then Lone(s[..n], t.attrs, t.rest)
    else Opens(s[..n], t.attrs, t.rest)
  }

  function ReadEnd(s: string): (t: Token)
    ensures t.Closes? ==> |t.rest| <= |s|
  {
    var n := NameLength(s);
    var t := SkipSpace(s[n..]);
    if !NameAt(s) || t == "" || t[0] != '>' then Bad else Closes(s[..n], t[1..])
  }

  /** What follows a less-than sign. */
  function ReadMarkup(s: string): (t: Token)
    ensures !t.Bad? ==> |t.rest| <= |s|
  {
    if NameAt(s) then ReadStart(s)
    else if Starts(s, "/") then ReadEnd(s[1..])
    else if Starts(s, "!--") then ReadComment(s[3..])
    else if Starts(s, "![CDATA[") then BitOf(Past(s[8..], "]]>"))
    else if Starts(s, "?") then ReadInstruction(s[1..])
    else Bad
  }

  function ReadToken(s: string): (t: Token)
    requires s != ""
    ensures !t.Bad? ==> |t.rest| < |s|
  {
    if s[0] == '<' then ReadMarkup(s[1..])
    else if s[0] == '&' then
      var r := ReadReference(s[1..]);
      if r.NoRef? then Bad else Bit(r.rest)
    else if !Legal(s[0]) || Starts(s, "]]>") then Bad
    else Bit(s[1..])
  }

  /** How far a text comes as content: it is broken, it ends inside the elements named, or it meets the end tag
      of an element that it has not opened. */
  datatype Scanned = Broken | Within(open: seq<string>) | Over(name: string, rest: string)

  function Scan(s: string, open: seq<string>): Scanned
    decreases |s|
  {
    if s == "" then Within(open)
    else
      match ReadToken(s)
      case Bad => Broken
      case Bit(rest) => Scan(rest, open)
      case Lone(_, _, rest) => Scan(rest, open)
      case Opens(name, _, rest) => Scan(rest, [name] + open)
      case Closes(name, rest) =>
        if open == [] then Over(name, rest) else if open[0] == name then Scan(rest, open[1..]) else Broken
  }

  /** The text may stand between the tags of an element. */
  predicate Content(s: string) {
    Scan(s, []) == Within([])
  }

  /** Comments, processing instructions and white space after the root element. */
  predicate Epilog(s: string)
    decreases |s|
  {
    s == "" ||
    if Space(s[0]) then Epilog(s[1..])
    else
      && s[0] == '<' && (Starts(s[1..], "!--") || Starts(s[1..], "?"))
      && ReadToken(s).Bit? && Epilog(ReadToken(s).rest)
  }

  datatype Document = IllFormed | Document(name: string, attrs: seq<Pair>)

  /** A document that starts with its root element: the element's name and attributes. */
  function ReadDocument(s: string): Document {
    if s == "" then IllFormed
    else
      match ReadToken(s)
      case Lone(name, attrs, rest) => if Epilog(rest) then Document(name, attrs) else IllFormed
      case Opens(name, attrs, rest) =>
        var inside := Scan(rest, []);
        if inside.Over? && inside.name == name && Epilog(inside.rest) then Document(name, attrs) else IllFormed
      case _ => IllFormed
  }

  // ---------------------------------------------------------------- reading names and attributes

  lemma {:induction false} NameLengthIs(name: string, rest: string)
    requires forall i | 0 <= i < |name| :: NameChar(name[i])
    requires rest != "" && !NameChar(rest[0])
    ensures NameLength(name + rest) == |name|
  {
    if name == "" {
      assert name + rest == rest;
    } else {
      assert (name + rest)[1..] == name[1..] + rest;
      NameLengthIs(name[1..], rest);
    }
  }

  /** Reading a name, an equals sign and what follows comes down to reading the value. */
  lemma ReadAttrValue(n: string, w: string)
    requires IsName(n)
    requires w != "" && !Space(w[0])
    ensures ReadAttr(n + "=" + w) == if ReadQuoted(w).NoValue? then NoOne else One((n, ReadQuoted(w).text), ReadQuoted(w).rest)
  {
    var s := n + "=" + w;
    assert s == n + ("=" + w);
    NameLengthIs(n, "=" + w);
    assert s[..|n|] == n && s[|n|..] == "=" + w;
    assert SkipSpace("=" + w) == "=" + w;
    assert ("=" + w)[1..] == w;
    assert SkipSpace(w) == w;
  }

  lemma ReadAttrsNext(x: string)
    requires NameAt(x)
    ensures ReadAttrs(" " + x) == if ReadAttr(x).NoOne? then NoTag else ConsAttr(ReadAttr(x).p, ReadAttrs(ReadAttr(x).rest))
  {
    assert (" " + x)[1..] == x;
    assert SkipSpace(x) == x;
  }

  /** A start tag comes down to its attributes. */
  lemma ReadTag(name: string, more: string)
    requires IsName(name) && more != "" && !NameChar(more[0])
    ensures ReadToken("<" + name + more) ==
      var t := ReadAttrs(more);
      if t.NoTag? || !UniqueNames(t.attrs) then Bad
      else if t.lone then Lone(name, t.attrs, t.rest)
      else Opens(name, t.attrs, t.rest)
  {
    var s := "<" + name + more;
    assert s[1..] == name + more;
    NameLengthIs(name, more);
    assert s[1..][..|name|] == name && s[1..][|name|..] == more;
  }

  function EndTag(name: string): string {
    "</" + name + ">"
  }

  lemma ReadEndTag(name: string)
    requires IsName(name)
    ensures ReadToken(EndTag(name)) == Closes(name, "")
  {
    var s := EndTag(name);
    assert s[1..][1..] == name + ">" && s[1] == '/';
    NameLengthIs(name, ">");
    assert (name + ">")[|name|..] == ">" && (name + ">")[..|name|] == name;
  }

  // ---------------------------------------------------------------- a text before an end tag

  /** Nothing that begins before such a text can run into it. */
  predicate Cap(tail: string) {
    |tail| > 1 && tail[0] == '<' && tail[1] == '/' && '-' !in tail && '?' !in tail && ']' !in tail
  }

  lemma {:induction false} SpaceLocal(s: string, tail: string)
    requires Cap(tail)
    ensures SkipSpace(s + tail) == SkipSpace(s) + tail
  {
    if s == "" {
      assert s + tail == tail && SkipSpace(tail) == tail;
      assert SkipSpace(s) == s;
    } else if Space(s[0]) {
      assert (s + tail)[1..] == s[1..] + tail;
      SpaceLocal(s[1..], tail);
    }
  }

  lemma {:induction false} NameLocal(s: string, tail: string)
    requires Cap(tail)
    ensures NameLength(s + tail) == NameLength(s) && NameAt(s + tail) == NameAt(s)
    ensures (s + tail)[..NameLength(s)] == s[..NameLength(s)] && (s + tail)[NameLength(s)..] == s[NameLength(s)..] + tail
  {
    if s == "" {
      assert s + tail == tail && NameLength(tail) == 0;
      assert (s + tail)[0..] == s[0..] + tail;
    } else {
      assert (s + tail)[1..] == s[1..] + tail;
      NameLocal(s[1..], tail);
    }
  }

  function LaterValue(v: Value, tail: string): Value {
    if v.NoValue? then NoValue else Value(v.text, v.rest + tail)
  }

  /** One step of the reader of a value over a character that is neither its end nor a reference. */
  lemma ValueStep(s: string, tail: string, quote: char)
    requires Cap(tail) && s != "" && s[0] != quote && s[0] != '&'
    ensures LineEnd(s + tail) == LineEnd(s)
    ensures ReadValue(s + tail, quote) ==
      if s[0] == '<' || !Legal(s[0]) then NoValue
      else if LineEnd(s) then Cons(' ', ReadValue(s[2..] + tail, quote))
      else Cons(Norm(s[0]), ReadValue(s[1..] + tail, quote))
  {
    var all := s + tail;
    assert all[1..] == s[1..] + tail;
    if LineEnd(s) {
      assert all[2..] == s[2..] + tail;
    }
  }

  lemma {:induction false} ValueLocal(s: string, tail: string, quote: char)
    requires Cap(tail) && (quote == '"' || quote == '\'')
    ensures ReadValue(s + tail, quote) == LaterValue(ReadValue(s, quote), tail)
    decreases |s|
  {
    if s == "" {
      assert s + tail == tail;
    } else if s[0] == quote {
      assert (s + tail)[1..] == s[1..] + tail;
    } else if s[0] == '&' {
      assert (s + tail)[1..] == s[1..] + tail;
      ReferenceLocal(s[1..], tail);
      var r := ReadReference(s[1..]);
      if r.Ref? {
        ValueLocal(r.rest, tail, quote);
      }
    } else {
      ValueStep(s, tail, quote);
      ValueLocal(s[if LineEnd(s) then 2 else 1..], tail, quote);
    }
  }

  lemma QuotedLocal(s: string, tail: string)
    requires Cap(tail)
    ensures ReadQuoted(s + tail) == LaterValue(ReadQuoted(s), tail)
  {
    if s == "" {
      assert s + tail == tail;
    } else if s[0] == '"' || s[0] == '\'' {
      assert (s + tail)[1..] == s[1..] + tail;
      ValueLocal(s[1..], tail, s[0]);
    }
  }

  lemma AttrLocal(s: string, tail: string)
    requires Cap(tail)
    ensures ReadAttr(s + tail) == if ReadAttr(s).NoOne? then NoOne else One(ReadAttr(s).p, ReadAttr(s).rest + tail)
  {
    NameLocal(s, tail);
    var after := s[NameLength(s)..];
    SpaceLocal(after, tail);
    var eq := SkipSpace(after);
    if eq != "" {
      assert (eq + tail)[1..] == eq[1..] + tail;
      SpaceLocal(eq[1..], tail);
      QuotedLocal(SkipSpace(eq[1..]), tail);
    } else {
      assert eq + tail == tail;
    }
  }

  function LaterTag(t: Tag, tail: string): Tag {
    if t.NoTag? then NoTag else Tag(t.attrs, t.lone, t.rest + tail)
  }

  lemma {:induction false} AttrsLocal(s: string, tail: string)
    requires Cap(tail)
    ensures ReadAttrs(s + tail) == LaterTag(ReadAttrs(s), tail)
    decreases |s|
  {
    SpaceLocal(s, tail);
    var t := SkipSpace(s);
    if t == "" {
      assert t + tail == tail;
      AttrLocal("", tail);
      assert "" + tail == tail;
    } else {
      assert (t + tail)[1..] == t[1..] + tail;
      StartsLocal(t, tail, "/>");
      AttrLocal(t, tail);
      assert t + tail == s + tail <==> t == s;
      var o := ReadAttr(t);
      if o.One? {
        AttrsLocal(o.rest, tail);
      }
    }
  }

  function LaterToken(t: Token, tail: string): Token {
    match t
    case Bad => Bad
    case Bit(rest) => Bit(rest + tail)
    case Lone(name, attrs, rest) => Lone(name, attrs, rest + tail)
    case Opens(name, attrs, rest) => Opens(name, attrs, rest + tail)
    case Closes(name, rest) => Closes(name, rest + tail)
  }

  lemma {:induction false} PastNothing(s: string, delimiter: string)
    requires delimiter != "" && delimiter[0] !in s
    ensures Past(s, delimiter) == None
  {
    if s != "" {
      assert s[0] != delimiter[0];
      PastNothing(s[1..], delimiter);
    }
  }

  lemma {:induction false} PastLocal(s: string, tail: string, delimiter: string)
    requires Cap(tail) && delimiter != "" && '<' !in delimiter && delimiter[0] !in tail
    ensures Past(s + tail, delimiter) == if Past(s, delimiter).None? then None else Some(Past(s, delimiter).value + tail)
  {
    StartsLocal(s, tail, delimiter);
    if s == "" {
      assert s + tail == tail;
      PastNothing(tail, delimiter);
    } else {
      assert (s + tail)[1..] == s[1..] + tail;
      PastLocal(s[1..], tail, delimiter);
    }
  }

  lemma CommentLocal(s: string, tail: string)
    requires Cap(tail)
    ensures ReadComment(s + tail) == LaterToken(ReadComment(s), tail)
  {
    PastLocal(s, tail, "--");
    var r := Past(s, "--");
    if r.Some? {
      StartsLocal(r.value, tail, ">");
    }
  }

  lemma InstructionLocal(s: string, tail: string)
    requires Cap(tail)
    ensures ReadInstruction(s + tail) == LaterToken(ReadInstruction(s), tail)
  {
    NameLocal(s, tail);
    var data := s[NameLength(s)..];
    StartsLocal(data, tail, "?>");
    PastLocal(data, tail, "?>");
    if data == "" {
      assert data + tail == tail;
    }
  }

  lemma StartTagLocal(s: string, tail: string)
    requires Cap(tail)
    ensures ReadStart(s + tail) == LaterToken(ReadStart(s), tail)
  {
    NameLocal(s, tail);
    AttrsLocal(s[NameLength(s)..], tail);
  }

  lemma EndTagLocal(s: string, tail: string)
    requires Cap(tail)
    ensures ReadEnd(s + tail) == LaterToken(ReadEnd(s), tail)
  {
    NameLocal(s, tail);
    SpaceLocal(s[NameLength(s)..], tail);
    var t := SkipSpace(s[NameLength(s)..]);
    if t == "" {
      assert t + tail == tail;
    } else {
      assert (t + tail)[1..] == t[1..] + tail;
    }
  }

  lemma MarkupLocal(s: string, tail: string)
    requires Cap(tail)
    ensures ReadMarkup(s + tail) == LaterToken(ReadMarkup(s), tail)
  {
    NameLocal(s, tail);
    StartsLocal(s, tail, "/");
    StartsLocal(s, tail, "!--");
    StartsLocal(s, tail, "![CDATA[");
    StartsLocal(s, tail, "?");
    if NameAt(s) {
      StartTagLocal(s, tail);
    } else if Starts(s, "/") {
      EndTagLocal(s[1..], tail);
    } else if Starts(s, "!--") {
      CommentLocal(s[3..], tail);
    } else if Starts(s, "![CDATA[") {
      PastLocal(s[8..], tail, "]]>");
    } else if Starts(s, "?") {
      InstructionLocal(s[1..], tail);
    }
  }

  /** An end tag after the text makes no difference to the first token. */
  lemma TokenLocal(s: string, tail: string)
    requires s != "" && Cap(tail)
    ensures ReadToken(s + tail) == LaterToken(ReadToken(s), tail)
  {
    assert (s + tail)[1..] == s[1..] + tail;
    if s[0] == '<' {
      MarkupLocal(s[1..], tail);
    } else if s[0] == '&' {
      ReferenceLocal(s[1..], tail);
    } else {
      StartsLocal(s, tail, "]]>");
    }
  }

  /** Content is read the same before an end tag as alone. */
  lemma {:induction false} ScanOn(s: string, tail: string, open: seq<string>)
    requires Cap(tail)
    ensures Scan(s + tail, open) ==
      match Scan(s, open)
      case Broken => Broken
      case Within(names) => Scan(tail, names)
      case Over(name, rest) => Over(name, rest + tail)
    decreases |s|
  {
    if s == "" {
      assert s + tail == tail;
    } else {
      TokenLocal(s, tail);
      var t := ReadToken(s);
      match t
      case Bad =>
      case Bit(rest) => ScanOn(rest, tail, open);
      case Lone(_, _, rest) => ScanOn(rest, tail, open);
      case Opens(name, _, rest) => ScanOn(rest, tail, [name] + open);
      case Closes(name, rest) =>
        if open != [] && open[0] == name {
          ScanOn(rest, tail, open[1..]);
        }
    }
  }

  lemma {:induction false} EpilogCapped(s: string, tail: string)
    requires Cap(tail)
    ensures !Epilog(s + tail)
    decreases |s|
  {
    var all := s + tail;
    if s == "" {
      assert all == tail;
    } else {
      assert all[1..] == s[1..] + tail;
      if Space(s[0]) {
        EpilogCapped(s[1..], tail);
      } else {
        TokenLocal(s, tail);
        var t := ReadToken(s);
        if t.Bit? {
          EpilogCapped(t.rest, tail);
        }
      }
    }
  }

  /** A text between the tags of an element, the root, makes a document exactly when it is content. */
  lemma WrappedIff(head: string, name: string, attrs: seq<Pair>, text: string)
    requires head != "" && IsName(name) && Cap(EndTag(name))
    requires ReadToken(head + (text + EndTag(name))) == Opens(name, attrs, text + EndTag(name))
    ensures ReadDocument(head + (text + EndTag(name))) == if Content(text) then Document(name, attrs) else IllFormed
  {
    var tail := EndTag(name);
    ScanOn(text, tail, []);
    ReadEndTag(name);
    var alone := Scan(text, []);
    match alone
    case Broken =>
    case Over(_, rest) => EpilogCapped(rest, tail);
    case Within(open) => assert Scan("", if open == [] then [] else open[1..]).Within?;
  }

  // ---------------------------------------------------------------- texts without markup

  /** The first character is legal, begins a reference if it is an ampersand, and does not begin "]]>". */
  predicate CharOk(s: string) {
    s != "" && Legal(s[0]) && (s[0] == '&' ==> ReadReference(s[1..]).Ref?) && !Starts(s, "]]>")
  }

  predicate TextOk(s: string) {
    forall i | 0 <= i < |s| :: CharOk(s[i..])
  }

  /** Characters that stand for themselves. */
  predicate Bland(c: char) {
    Legal(c) && c != '<' && c != '&' && c != ']'
  }

  lemma TextOkFirst(s: string, k: nat)
    requires 0 < k <= |s| && forall i | 0 < i < k :: Bland(s[i])
    ensures TextOk(s) <==> CharOk(s) && TextOk(s[k..])
  {
    assert s[0..] == s;
    forall j | 0 <= j < |s[k..]| ensures s[k..][j..] == s[k + j..] {
    }
    if TextOk(s[k..]) && CharOk(s) {
      forall i | 0 <= i < |s| ensures CharOk(s[i..]) {
        if i >= k {
          assert s[k..][i - k..] == s[i..];
        } else if i > 0 {
          assert s[i..][0] == s[i] && Bland(s[i]);
        }
      }
    }
  }

  /** The characters of a reference stand for themselves. */
  lemma {:induction false} CharRefBland(s: string, base: nat, n: nat, i: nat)
    requires CharRef(s, base, n).Ref? && i < |s| - |CharRef(s, base, n).rest|
    ensures Bland(s[i])
  {
    if i > 0 {
      CharRefBland(s[1..], base, n * base + Digit(s[0], base), i - 1);
    }
  }

  lemma EntityBland(s: string, i: nat)
    requires ReadEntity(s).Ref? && i < |s| - |ReadEntity(s).rest|
    ensures Bland(s[i])
  {
    var k := |s| - |ReadEntity(s).rest|;
    assert s[i] == s[..k][i];
  }

  lemma ReferenceBland(s: string, i: nat)
    requires ReadReference(s).Ref? && i < |s| - |ReadReference(s).rest|
    ensures Bland(s[i])
  {
    if |s| > 2 && s[0] == '#' && s[1] == 'x' && Digit(s[2], 16) >= 0 {
      if i >= 2 {
        CharRefBland(s[2..], 16, 0, i - 2);
      }
    } else if |s| > 1 && s[0] == '#' && Digit(s[1], 10) >= 0 {
      if i >= 1 {
        CharRefBland(s[1..], 10, 0, i - 1);
      }
    } else {
      EntityBland(s, i);
    }
  }

  /** The number of characters in the first token of a text without a less-than sign. */
  function FirstLength(s: string): (k: nat)
    requires CharOk(s)
    ensures 0 < k <= |s|
  {
    if s[0] == '&' then |s| - |ReadReference(s[1..]).rest| else 1
  }

  lemma FirstToken(s: string)
    requires CharOk(s) && s[0] != '<'
    ensures ReadToken(s) == Bit(s[FirstLength(s)..])
    ensures forall i | 0 < i < FirstLength(s) :: Bland(s[i])
  {
    if s[0] == '&' {
      ReferenceEnd(s[1..]);
      assert s[1..][FirstLength(s) - 1..] == s[FirstLength(s)..];
      forall i | 0 < i < FirstLength(s) ensures Bland(s[i]) {
        ReferenceBland(s[1..], i - 1);
      }
    }
  }

  /** A text without a less-than sign is content exactly when its characters are legal, every ampersand in it
      begins a reference, and it has no "]]>". */
  lemma {:induction false} TextIff(s: string)
    requires '<' !in s
    ensures Content(s) <==> TextOk(s)
    decreases |s|
  {
    if s != "" {
      if CharOk(s) {
        FirstToken(s);
        TextOkFirst(s, FirstLength(s));
        TextIff(s[FirstLength(s)..]);
      } else {
        assert ReadToken(s).Bad? && s[0..] == s;
      }
    }
  }

  /** Plain characters before a text change nothing about it. */
  lemma {:induction false} BlandFirst(p: string, s: string)
    requires forall i | 0 <= i < |p| :: Bland(p[i])
    ensures Content(p + s) <==> Content(s)
  {
    if p == "" {
      assert p + s == s;
    } else {
      assert (p + s)[1..] == p[1..] + s;
      assert (p + s)[0] == p[0] && "]]>"[0] == ']';
      assert ReadToken(p + s) == Bit(p[1..] + s);
      BlandFirst(p[1..], s);
    }
  }
}
