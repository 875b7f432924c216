/** The edit element that es2r writes and its clients read: attributes in a fixed order and no content.
    format_xml in src/es2r/es2r.py. */
module EditElement {
  import opened Base
  import opened QuoteAttr
  import opened XmlDocument
  import opened XmlText

  datatype Name = Wiki | ServerName | RevId | OldId | Summary | Title | Namespace | User | Bot | Patrolled
    | Minor | Type | LengthNew | LengthOld | LogId | LogType | LogAction | LogActionComment | Timestamp

  function Spell(n: Name): string {
    match n
    case Wiki => "wiki"
    case ServerName => "server_name"
    case RevId => "revid"
    case OldId => "oldid"
    case Summary => "summary"
    case Title => "title"
    case Namespace => "namespace"
    case User => "user"
    case Bot => "bot"
    case Patrolled => "patrolled"
    case Minor => "minor"
    case Type => "type"
    case LengthNew => "length_new"
    case LengthOld => "length_old"
    case LogId => "log_id"
    case LogType => "log_type"
    case LogAction => "log_action"
    case LogActionComment => "log_action_comment"
    case Timestamp => "timestamp"
  }

  /** The name spelled so, looked for in the order of declaration. */
  function Named(s: string): Option<Name> {
    if s == "wiki" then Some(Wiki)
    else if s == "server_name" then Some(ServerName)
    else if s == "revid" then Some(RevId)
    else if s == "oldid" then Some(OldId)
    else if s == "summary" then Some(Summary)
    else if s == "title" then Some(Title)
    else if s == "namespace" then Some(Namespace)
    else if s == "user" then Some(User)
    else if s == "bot" then Some(Bot)
    else if s == "patrolled" then Some(Patrolled)
    else if s == "minor" then Some(Minor)
    else if s == "type" then Some(Type)
    else if s == "length_new" then Some(LengthNew)
    else if s == "length_old" then Some(LengthOld)
    else if s == "log_id" then Some(LogId)
    else if s == "log_type" then Some(LogType)
    else if s == "log_action" then Some(LogAction)
    else if s == "log_action_comment" then Some(LogActionComment)
    else if s == "timestamp" then Some(Timestamp)
    else None
  }

  lemma SpelledNamed(n: Name)
    ensures Named(Spell(n)) == Some(n)
  {
  }

  lemma SpellInjective(a: Name, b: Name)
    requires Spell(a) == Spell(b)
    ensures a == b
  {
    SpelledNamed(a);
    SpelledNamed(b);
  }

  // ---------------------------------------------------------------- writing

  /** An attribute: escaped by quoteattr, or put between double quotes as it stands. */
  datatype Attr = Attr(name: Name, escaped: bool, text: string)

  function Quote(a: Attr): string {
    if a.escaped then Quoted(a.text) else "\"" + a.text + "\""
  }

  function WriteAttr(a: Attr): string {
    Spell(a.name) + "=" + Quote(a)
  }

  /** Every attribute after a space. */
  function WriteAttrs(attrs: seq<Attr>): string {
    if attrs == [] then "" else " " + WriteAttr(attrs[0]) + WriteAttrs(attrs[1..])
  }

  function WriteEdit(attrs: seq<Attr>): string {
    "<edit" + (WriteAttrs(attrs) + ">" + EndTag("edit"))
  }

  lemma {:induction false} WriteAttrsPush(attrs: seq<Attr>, a: Attr)
    ensures WriteAttrs(attrs + [a]) == WriteAttrs(attrs) + " " + WriteAttr(a)
  {
    if attrs == [] {
      assert [] + [a] == [a];
      assert [a][1..] == [];
      assert WriteAttrs([a]) == " " + WriteAttr(a) + WriteAttrs([]);
    } else {
      assert (attrs + [a])[1..] == attrs[1..] + [a];
      WriteAttrsPush(attrs[1..], a);
    }
  }

  // ---------------------------------------------------------------- reading what was written

  /** What a reader is to find. */
  function Meant(a: Attr): Pair {
    (Spell(a.name), if a.escaped then a.text else NormAll(a.text))
  }

  function MeantAll(attrs: seq<Attr>): (r: seq<Pair>)
    ensures |r| == |attrs|
    ensures forall i | 0 <= i < |r| :: r[i] == Meant(attrs[i])
  {
    if attrs == [] then [] else [Meant(attrs[0])] + MeantAll(attrs[1..])
  }

  predicate Clean(a: Attr) {
    if a.escaped then AllLegal(a.text) else Plain(a.text)
  }

  predicate AllClean(attrs: seq<Attr>) {
    forall i | 0 <= i < |attrs| :: Clean(attrs[i])
  }

  lemma SpelledWell(n: Name)
    ensures IsName(Spell(n))
  {
  }

  lemma QuoteReadsBackIff(a: Attr, rest: string)
    ensures Clean(a) ==> ReadQuoted(Quote(a) + rest) == Value(Meant(a).1, rest)
    ensures !Clean(a) ==> ReadQuoted(Quote(a) + rest).NoValue? || ReadQuoted(Quote(a) + rest).text != Meant(a).1
  {
    if a.escaped {
      QuotedReadsBackIff(a.text, rest);
    } else {
      RawReadsBackIff(a.text, rest);
      assert (Quote(a) + rest)[1..] == a.text + "\"" + rest;
    }
  }

  lemma AttrReadsBackIff(a: Attr, rest: string)
    ensures Clean(a) ==> ReadAttr(WriteAttr(a) + rest) == One(Meant(a), rest)
    ensures !Clean(a) ==> ReadAttr(WriteAttr(a) + rest).NoOne? || ReadAttr(WriteAttr(a) + rest).p != Meant(a)
  {
    var n, w := Spell(a.name), Quote(a) + rest;
    SpelledWell(a.name);
    QuoteStarts(a);
    assert w[0] == Quote(a)[0];
    ReadAttrValue(n, w);
    assert WriteAttr(a) + rest == n + "=" + w;
    QuoteReadsBackIff(a, rest);
  }

  lemma QuoteStarts(a: Attr)
    ensures Quote(a) != "" && !Space(Quote(a)[0])
  {
  }

  lemma TagStep(a: Attr, more: string)
    ensures var t := ReadAttrs(" " + WriteAttr(a) + more);
      && (Clean(a) ==> t == ConsAttr(Meant(a), ReadAttrs(more)))
      && (!Clean(a) ==> t.NoTag? || (t.attrs != [] && t.attrs[0] != Meant(a)))
  {
    var x := WriteAttr(a) + more;
    assert " " + WriteAttr(a) + more == " " + x;
    SpelledWell(a.name);
    assert x[0] == Spell(a.name)[0];
    ReadAttrsNext(x);
    AttrReadsBackIff(a, more);
  }

  /** The start tag gives back exactly the attributes written, in order, when every value is clean, and
      never when one is not. */
  lemma {:induction false} TagReadsBackIff(attrs: seq<Attr>, rest: string)
    ensures AllClean(attrs) ==> ReadAttrs(WriteAttrs(attrs) + ">" + rest) == Tag(MeantAll(attrs), false, rest)
    ensures !AllClean(attrs) ==>
      ReadAttrs(WriteAttrs(attrs) + ">" + rest).NoTag? || ReadAttrs(WriteAttrs(attrs) + ">" + rest).attrs != MeantAll(attrs)
  {
    var s := WriteAttrs(attrs) + ">" + rest;
    if attrs == [] {
      assert s[1..] == rest;
    } else {
      var a, later := attrs[0], attrs[1..];
      var more := WriteAttrs(later) + ">" + rest;
      assert s == " " + WriteAttr(a) + more;
      TagStep(a, more);
      TagReadsBackIff(later, rest);
      assert AllClean(attrs) <==> Clean(a) && AllClean(later) by {
        assert attrs == [a] + later;
      }
      var t := ReadAttrs(more);
      if t.Tag? {
        assert ([Meant(a)] + t.attrs)[1..] == t.attrs;
        assert MeantAll(attrs)[0] == Meant(a) && MeantAll(attrs)[1..] == MeantAll(later);
      }
    }
  }

  // ---------------------------------------------------------------- the whole element

  function Rank(n: Name): nat {
    match n
    case Wiki => 0
    case ServerName => 1
    case RevId => 2
    case OldId => 3
    case Summary => 4
    case Title => 5
    case Namespace => 6
    case User => 7
    case Bot => 8
    case Patrolled => 9
    case Minor => 10
    case Type => 11
    case LengthNew => 12
    case LengthOld => 13
    case LogId => 14
    case LogType => 15
    case LogAction => 16
    case LogActionComment => 17
    case Timestamp => 18
  }

  /** Attributes in the fixed order; each name therefore at most once. */
  ghost predicate InOrder(attrs: seq<Attr>) {
    forall i, j | 0 <= i < j < |attrs| :: Rank(attrs[i].name) < Rank(attrs[j].name)
  }

  lemma NamesUnique(attrs: seq<Attr>)
    requires InOrder(attrs)
    ensures UniqueNames(MeantAll(attrs))
  {
    var ps := MeantAll(attrs);
    forall i, j | 0 <= i < j < |ps| ensures ps[i].0 != ps[j].0 {
      if Spell(attrs[i].name) == Spell(attrs[j].name) {
        SpellInjective(attrs[i].name, attrs[j].name);
      }
    }
  }

  lemma EditTag(attrs: seq<Attr>)
    ensures var t := ReadAttrs(WriteAttrs(attrs) + ">" + EndTag("edit"));
      ReadToken(WriteEdit(attrs)) ==
        if t.NoTag? || !UniqueNames(t.attrs) then Bad
        else if t.lone then Lone("edit", t.attrs, t.rest)
        else Opens("edit", t.attrs, t.rest)
  {
    var more := WriteAttrs(attrs) + ">" + EndTag("edit");
    assert more[0] == if attrs == [] then '>' else ' ';
    ReadTag("edit", more);
    assert WriteEdit(attrs) == "<" + "edit" + more;
  }

  /** The edit element is well formed with exactly the attributes meant if and only if every value is clean. */
  lemma EditReadsBackIff(attrs: seq<Attr>)
    requires InOrder(attrs)
    ensures ReadDocument(WriteEdit(attrs)) == Document("edit", MeantAll(attrs)) <==> AllClean(attrs)
  {
    var end := EndTag("edit");
    TagReadsBackIff(attrs, end);
    NamesUnique(attrs);
    EditTag(attrs);
    if AllClean(attrs) {
      ReadEndTag("edit");
    }
  }

  // ---------------------------------------------------------------- framing

  predicate RawOneLine(a: Attr) {
    a.escaped || OneLine(a.text)
  }

  predicate AllRawOneLine(attrs: seq<Attr>) {
    forall i | 0 <= i < |attrs| :: RawOneLine(attrs[i])
  }

  lemma SpelledOneLine(n: Name)
    ensures OneLine(Spell(n))
  {
    SpelledWell(n);
  }

  lemma AttrOneLineIff(a: Attr)
    ensures OneLine(WriteAttr(a)) <==> RawOneLine(a)
  {
    SpelledOneLine(a.name);
    if a.escaped {
      QuotedOneLine(a.text);
    }
  }

  lemma {:induction false} AttrsOneLineIff(attrs: seq<Attr>)
    ensures OneLine(WriteAttrs(attrs)) <==> AllRawOneLine(attrs)
  {
    if attrs != [] {
      AttrOneLineIff(attrs[0]);
      AttrsOneLineIff(attrs[1..]);
      assert attrs == [attrs[0]] + attrs[1..];
      assert OneLine(WriteAttrs(attrs)) <==> OneLine(WriteAttr(attrs[0])) && OneLine(WriteAttrs(attrs[1..]));
    }
  }

  /** The element is one line of the stream exactly when no value written as it stands has a line break;
      escaped values never break the line. */
  lemma EditOneLineIff(attrs: seq<Attr>)
    ensures OneLine(WriteEdit(attrs)) <==> AllRawOneLine(attrs)
  {
    AttrsOneLineIff(attrs);
    assert OneLine("<edit") && OneLine(">") && OneLine(EndTag("edit"));
  }
}
