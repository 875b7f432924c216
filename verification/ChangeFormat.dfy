/** From a change record to an edit element: format_xml of src/es2r/es2r.py. */
module ChangeFormat {
  import opened Base
  import opened EditElement
  import opened QuoteAttr
  import opened Scalars

  /** The revision and length objects of a change: not there, of another type, or with optional parts. */
  datatype Part = Absent | NotObject | Object(current: Option<Scalar>, previous: Option<Scalar>)

  /** The keys of a change that format_xml looks at. */
  datatype Change = Change(
    wiki: Option<Scalar>, serverName: Option<Scalar>, revision: Part, length: Part,
    patrolled: Option<Scalar>, minor: Option<Scalar>, comment: Option<Scalar>, title: Option<Scalar>,
    ns: Option<Scalar>, user: Option<Scalar>, bot: Option<Scalar>, kind: Option<Scalar>,
    logId: Option<Scalar>, logType: Option<Scalar>, logAction: Option<Scalar>, logActionComment: Option<Scalar>,
    timestamp: Option<Scalar>)

  /** The element, None for a missing key, or an exception from a value of the wrong type. */
  datatype Formatted = Xml(text: string) | Missing | Raises {
    predicate IsFailure() { !Xml? }
    function PropagateFailure(): Formatted { this }
    function Extract(): string requires !IsFailure() { text }
  }

  // ---------------------------------------------------------------- specification

  /** The attributes so far, or why there will be none. */
  datatype Draft = Draft(attrs: seq<Attr>) | Lacks | Throws

  /** f'{name}="{value}"' */
  function Raw(d: Draft, n: Name, v: Option<Scalar>): Draft {
    if !d.Draft? then d
    else if v.None? then Lacks
    else Draft(d.attrs + [Attr(n, false, Str(v.value))])
  }

  /** f'{name}={quoteattr(value)}', which raises unless the value is text. */
  function Free(d: Draft, n: Name, v: Option<Scalar>): Draft {
    if !d.Draft? then d
    else if v.None? then Lacks
    else if !v.value.Text? then Throws
    else Draft(d.attrs + [Attr(n, true, v.value.s)])
  }

  /** Written only if the key is there. */
  function RawIf(d: Draft, n: Name, v: Option<Scalar>): Draft {
    if v.Some? then Raw(d, n, v) else d
  }

  function FreeIf(d: Draft, n: Name, v: Option<Scalar>): Draft {
    if v.Some? then Free(d, n, v) else d
  }

  function Or(v: Option<Scalar>, default: Scalar): Option<Scalar> {
    if v.None? then Some(default) else v
  }

  function Current(p: Part): Option<Scalar> {
    if p.Object? then p.current else Some(Int(0))
  }

  function Previous(p: Part): Option<Scalar> {
    if p.Object? then p.previous else None
  }

  /** The checks made before any text is built. */
  function Begin(c: Change): Draft {
    if c.wiki.None? || c.serverName.None? then Lacks
    else if c.revision.NotObject? then Throws
    else if Current(c.revision).None? then Lacks
    else if c.length.NotObject? then Throws
    else if Current(c.length).None? then Lacks
    else Draft([])
  }

  function PlanHead(c: Change): Draft {
    var d := Raw(Raw(Begin(c), Wiki, c.wiki), ServerName, c.serverName);
    var d := if c.revision.Object? then Raw(d, RevId, c.revision.current) else d;
    RawIf(d, OldId, Previous(c.revision))
  }

  function PlanText(c: Change, d: Draft): Draft {
    var d := Free(d, Summary, Or(c.comment, Text("")));
    var d := Free(d, Title, c.title);
    var d := Raw(d, Namespace, c.ns);
    Free(d, User, c.user)
  }

  function PlanFlags(c: Change, d: Draft): Draft {
    var d := Raw(d, Bot, c.bot);
    var d := Raw(d, Patrolled, Or(c.patrolled, Bool(false)));
    var d := Raw(d, Minor, Or(c.minor, Bool(false)));
    var d := Free(d, Type, c.kind);
    var d := Raw(d, LengthNew, Current(c.length));
    Raw(d, LengthOld, Or(Previous(c.length), Int(0)))
  }

  function PlanBody(c: Change, d: Draft): Draft {
    PlanFlags(c, PlanText(c, d))
  }

  function PlanLog(c: Change, d: Draft): Draft {
    if c.kind != Some(Text("log")) then d
    else
      var d := RawIf(d, LogId, c.logId);
      var d := FreeIf(d, LogType, c.logType);
      var d := FreeIf(d, LogAction, c.logAction);
      FreeIf(d, LogActionComment, c.logActionComment)
  }

  function Plan(c: Change): Draft {
    Raw(PlanLog(c, PlanBody(c, PlanHead(c))), Timestamp, c.timestamp)
  }

  function Outcome(d: Draft): Formatted {
    if d.Lacks? then Missing else if d.Throws? then Raises else Xml(WriteEdit(d.attrs))
  }

  // ---------------------------------------------------------------- the method

  /** The text built so far, with the space that comes after each attribute. */
  function Open(attrs: seq<Attr>): string {
    "<edit" + WriteAttrs(attrs) + " "
  }

  lemma OpenPush(attrs: seq<Attr>, a: Attr)
    ensures Open(attrs + [a]) == Open(attrs) + WriteAttr(a) + " "
  {
    WriteAttrsPush(attrs, a);
  }

  lemma Regroup(a: string, b: string, c: string, d: string, e: string, f: string)
    ensures a + b + c + (d + e) + f == a + (b + c + d + e + f)
  {
    assert b + c + (d + e) == b + c + d + e;
    assert a + b + c == a + (b + c);
    assert a + (b + c) + (d + e) == a + (b + c + (d + e));
  }

  lemma Close(attrs: seq<Attr>, a: Attr)
    ensures Open(attrs) + (WriteAttr(a) + ">") + "</edit>" == WriteEdit(attrs + [a])
  {
    WriteAttrsPush(attrs, a);
    Regroup("<edit", WriteAttrs(attrs), " ", WriteAttr(a), ">", "</edit>");
  }

  /** One `result +=` of an attribute written as it stands; a missing key ends it. */
  method AddRaw(result: string, n: Name, v: Option<Scalar>, ghost d: Draft) returns (f: Formatted)
    requires d.Draft? && result == Open(d.attrs)
    ensures f == if Raw(d, n, v).Draft? then Xml(Open(Raw(d, n, v).attrs)) else Outcome(Raw(d, n, v))
  {
    if v.None? { return Missing; }
    OpenPush(d.attrs, Attr(n, false, Str(v.value)));
    return Xml(result + (Spell(n) + "=" + ("\"" + Str(v.value) + "\"")) + " ");
  }

  /** One `result +=` of an attribute put through quoteattr. */
  method AddFree(result: string, n: Name, v: Option<Scalar>, ghost d: Draft) returns (f: Formatted)
    requires d.Draft? && result == Open(d.attrs)
    ensures f == if Free(d, n, v).Draft? then Xml(Open(Free(d, n, v).attrs)) else Outcome(Free(d, n, v))
  {
    if v.None? { return Missing; }
    if !v.value.Text? { return Raises; }
    OpenPush(d.attrs, Attr(n, true, v.value.s));
    return Xml(result + (Spell(n) + "=" + Quoted(v.value.s)) + " ");
  }

  /** The timestamp, which ends the start tag, and the end tag. */
  method AddLast(result: string, v: Option<Scalar>, ghost d: Draft) returns (f: Formatted)
    requires d.Draft? && result == Open(d.attrs)
    ensures f == Outcome(Raw(d, Timestamp, v))
  {
    if v.None? { return Missing; }
    ghost var a := Attr(Timestamp, false, Str(v.value));
    Close(d.attrs, a);
    return Xml(result + (Spell(Timestamp) + "=" + ("\"" + Str(v.value) + "\"") + ">") + "</edit>");
  }

  lemma Stops(c: Change, d: Draft)
    requires !d.Draft?
    ensures PlanBody(c, d) == d && PlanLog(c, d) == d
  {
  }

  method Head(c: Change) returns (f: Formatted)
    ensures f == if PlanHead(c).Draft? then Xml(Open(PlanHead(c).attrs)) else Outcome(PlanHead(c))
  {
    if c.wiki.None? || c.serverName.None? { return Missing; }
    if c.revision.NotObject? { return Raises; }
    if c.revision.Object? && c.revision.current.None? { return Missing; }
    if c.length.NotObject? { return Raises; }
    if c.length.Object? && c.length.current.None? { return Missing; }
    ghost var d := Begin(c);
    var result := "<edit ";
    assert result == Open([]) by { assert "<edit" + "" == "<edit"; }
    result :- AddRaw(result, Wiki, c.wiki, d);
    d := Raw(d, Wiki, c.wiki);
    result :- AddRaw(result, ServerName, c.serverName, d);
    d := Raw(d, ServerName, c.serverName);
    if c.revision.Object? {
      result :- AddRaw(result, RevId, c.revision.current, d);
      d := Raw(d, RevId, c.revision.current);
      if c.revision.previous.Some? {
        result :- AddRaw(result, OldId, c.revision.previous, d);
        d := Raw(d, OldId, c.revision.previous);
      }
    }
    return Xml(result);
  }

  method Body(c: Change, text: string, ghost d0: Draft) returns (f: Formatted)
    requires d0.Draft? && text == Open(d0.attrs)
    requires !c.length.NotObject?
    ensures f == if PlanBody(c, d0).Draft? then Xml(Open(PlanBody(c, d0).attrs)) else Outcome(PlanBody(c, d0))
  {
    var result, d := text, d0;
    result :- AddFree(result, Summary, Or(c.comment, Text("")), d);
    d := Free(d, Summary, Or(c.comment, Text("")));
    result :- AddFree(result, Title, c.title, d);
    d := Free(d, Title, c.title);
    result :- AddRaw(result, Namespace, c.ns, d);
    d := Raw(d, Namespace, c.ns);
    result :- AddFree(result, User, c.user, d);
    d := Free(d, User, c.user);
    result :- AddRaw(result, Bot, c.bot, d);
    d := Raw(d, Bot, c.bot);
    result :- AddRaw(result, Patrolled, Or(c.patrolled, Bool(false)), d);
    d := Raw(d, Patrolled, Or(c.patrolled, Bool(false)));
    result :- AddRaw(result, Minor, Or(c.minor, Bool(false)), d);
    d := Raw(d, Minor, Or(c.minor, Bool(false)));
    result :- AddFree(result, Type, c.kind, d);
    d := Free(d, Type, c.kind);
    result :- AddRaw(result, LengthNew, Current(c.length), d);
    d := Raw(d, LengthNew, Current(c.length));
    result :- AddRaw(result, LengthOld, Or(Previous(c.length), Int(0)), d);
    return Xml(result);
  }

  method Log(c: Change, text: string, ghost d0: Draft) returns (f: Formatted)
    requires d0.Draft? && text == Open(d0.attrs)
    ensures f == if PlanLog(c, d0).Draft? then Xml(Open(PlanLog(c, d0).attrs)) else Outcome(PlanLog(c, d0))
  {
    var result, d := text, d0;
    if c.kind == Some(Text("log")) {
      if c.logId.Some? {
        result :- AddRaw(result, LogId, c.logId, d);
        d := Raw(d, LogId, c.logId);
      }
      if c.logType.Some? {
        result :- AddFree(result, LogType, c.logType, d);
        d := Free(d, LogType, c.logType);
      }
      if c.logAction.Some? {
        result :- AddFree(result, LogAction, c.logAction, d);
        d := Free(d, LogAction, c.logAction);
      }
      if c.logActionComment.Some? {
        result :- AddFree(result, LogActionComment, c.logActionComment, d);
        d := Free(d, LogActionComment, c.logActionComment);
      }
    }
    return Xml(result);
  }

  /** format_xml, in its order: the first missing key or wrong type decides how it ends. */
  method FormatXml(c: Change) returns (f: Formatted)
    ensures f == Outcome(Plan(c))
  {
    ghost var d := PlanHead(c);
    if !d.Draft? { Stops(c, d); }
    var result :- Head(c);
    if !PlanBody(c, d).Draft? { Stops(c, PlanBody(c, d)); }
    result :- Body(c, result, d);
    d := PlanBody(c, d);
    result :- Log(c, result, d);
    d := PlanLog(c, d);
    result :- AddLast(result, c.timestamp, d);
    return Xml(result);
  }

  // ---------------------------------------------------------------- when it succeeds

  predicate IsText(v: Option<Scalar>) {
    v.Some? && v.value.Text?
  }

  predicate TextIfThere(v: Option<Scalar>) {
    v.Some? ==> v.value.Text?
  }

  predicate Complete(p: Part) {
    p.Absent? || (p.Object? && p.current.Some?)
  }

  /** What a change must have to be published. */
  predicate Publishable(c: Change) {
    && c.wiki.Some? && c.serverName.Some? && c.ns.Some? && c.bot.Some? && c.timestamp.Some?
    && IsText(c.title) && IsText(c.user) && IsText(c.kind) && TextIfThere(c.comment)
    && Complete(c.revision) && Complete(c.length)
    && (c.kind == Some(Text("log")) ==> TextIfThere(c.logType) && TextIfThere(c.logAction) && TextIfThere(c.logActionComment))
  }

  lemma PublishedIff(c: Change)
    ensures Plan(c).Draft? <==> Publishable(c)
  {
  }

  // ---------------------------------------------------------------- how it fails

  /** How one look at the change goes. */
  datatype Look = Good | NoKey | WrongType

  /** The first look that is not good decides. */
  function Then(a: Look, b: Look): Look {
    if a.Good? then b else a
  }

  function Present(v: Option<Scalar>): Look {
    if v.None? then NoKey else Good
  }

  function PresentText(v: Option<Scalar>): Look {
    if v.None? then NoKey else if v.value.Text? then Good else WrongType
  }

  function TextOrNothing(v: Option<Scalar>): Look {
    if v.None? || v.value.Text? then Good else WrongType
  }

  /** The key is not there, or its value has a value for "new". */
  function NewOrNothing(p: Part): Look {
    match p
    case Absent => Good
    case NotObject => WrongType
    case Object(current, _) => Present(current)
  }

  function LookAtStart(c: Change): Look {
    Then(Present(c.wiki), Then(Present(c.serverName), Then(NewOrNothing(c.revision), NewOrNothing(c.length))))
  }

  function LookAtBody(c: Change): Look {
    Then(TextOrNothing(c.comment), Then(PresentText(c.title), Then(Present(c.ns), Then(PresentText(c.user),
      Then(Present(c.bot), PresentText(c.kind))))))
  }

  function LookAtLog(c: Change): Look {
    if c.kind != Some(Text("log")) then Good
    else Then(TextOrNothing(c.logType), Then(TextOrNothing(c.logAction), TextOrNothing(c.logActionComment)))
  }

  /** The looks of format_xml at a change, in its order. */
  function LookAt(c: Change): Look {
    Then(LookAtStart(c), Then(LookAtBody(c), Then(LookAtLog(c), Present(c.timestamp))))
  }

  /** The first key that is missing makes it give None, the first value of the wrong type makes it raise, whichever
      comes first; and if neither comes there is an element. */
  lemma FirstLookDecides(c: Change)
    ensures Outcome(Plan(c)).Xml? <==> LookAt(c).Good?
    ensures Outcome(Plan(c)).Missing? <==> LookAt(c).NoKey?
    ensures Outcome(Plan(c)).Raises? <==> LookAt(c).WrongType?
  {
  }
}
