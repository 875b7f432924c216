/** The edit element field by field: what it says under each of its names, in terms of the keys of the change.
    format_xml in src/es2r/es2r.py. */
module FieldTable {
  import opened Base
  import opened ChangeFormat
  import opened EditElement
  import opened EditRoundTrip
  import opened Scalars
  import opened XmlDocument
  import opened XmlText

  /** A value written as it stands, as an XML reader gives it back. */
  function AsWritten(v: Option<Scalar>): Option<string> {
    if v.Some? then Some(NormAll(Str(v.value))) else None
  }

  /** A text that was escaped. */
  function AsEscaped(v: Option<Scalar>): Option<string> {
    if v.Some? && v.value.Text? then Some(v.value.s) else None
  }

  function Else(v: Option<string>, default: string): Option<string> {
    if v.Some? then v else Some(default)
  }

  // The table: what the element has to say under each name, in the terms of the keys of a published change.

  function HeadField(c: Change, n: Name): Option<string> {
    if n.Wiki? then AsWritten(c.wiki)
    else if n.ServerName? then AsWritten(c.serverName)
    else if c.revision.Object? then AsWritten(if n.RevId? then c.revision.current else c.revision.previous)
    else None
  }

  function TextField(c: Change, n: Name): Option<string> {
    if n.Summary? then Else(AsEscaped(c.comment), "")
    else if n.Title? then AsEscaped(c.title)
    else if n.User? then AsEscaped(c.user)
    else AsWritten(c.ns)
  }

  function FlagField(c: Change, n: Name): Option<string> {
    if n.Bot? then AsWritten(c.bot)
    else if n.Patrolled? then Else(AsWritten(c.patrolled), "False")
    else Else(AsWritten(c.minor), "False")
  }

  function LengthField(c: Change, n: Name): Option<string> {
    if c.length.Object? then Else(AsWritten(if n.LengthNew? then c.length.current else c.length.previous), "0") else Some("0")
  }

  function LogField(c: Change, n: Name): Option<string> {
    if c.kind != Some(Text("log")) then None
    else if n.LogId? then AsWritten(c.logId)
    else if n.LogType? then AsEscaped(c.logType)
    else if n.LogAction? then AsEscaped(c.logAction)
    else AsEscaped(c.logActionComment)
  }

  function FieldOf(c: Change, n: Name): Option<string> {
    if InHead(n) then HeadField(c, n)
    else if InText(n) then TextField(c, n)
    else if InFlags(n) then FlagField(c, n)
    else if n.LengthNew? || n.LengthOld? then LengthField(c, n)
    else if InLog(n) then LogField(c, n)
    else if n.Type? then AsEscaped(c.kind)
    else AsWritten(c.timestamp)
  }

  predicate InHead(n: Name) {
    n.Wiki? || n.ServerName? || n.RevId? || n.OldId?
  }

  predicate InText(n: Name) {
    n.Summary? || n.Title? || n.Namespace? || n.User?
  }

  predicate InFlags(n: Name) {
    n.Bot? || n.Patrolled? || n.Minor?
  }

  predicate InLog(n: Name) {
    n.LogId? || n.LogType? || n.LogAction? || n.LogActionComment?
  }

  function Lookup(attrs: seq<Pair>, name: string): Option<string> {
    if attrs == [] then None else if attrs[0].0 == name then Some(attrs[0].1) else Lookup(attrs[1..], name)
  }

  lemma {:induction false} LookupPush(attrs: seq<Pair>, p: Pair, name: string)
    ensures Lookup(attrs + [p], name) ==
      if Lookup(attrs, name).Some? then Lookup(attrs, name) else if p.0 == name then Some(p.1) else None
  {
    if attrs == [] {
      assert [] + [p] == [p];
    } else {
      assert (attrs + [p])[1..] == attrs[1..] + [p];
      LookupPush(attrs[1..], p, name);
    }
  }

  /** What a draft says under a name. */
  function Held(n: Name): Draft -> Option<string> {
    (d: Draft) => if d.Draft? then Lookup(MeantAll(d.attrs), Spell(n)) else None
  }

  /** What the proofs below use of it: an attribute adds what it says under its own name. */
  ghost predicate Holder(held: Draft -> Option<string>, n: Name) {
    && (forall d, m, v {:trigger Raw(d, m, v)} :: Raw(d, m, v).Draft? ==>
      held(Raw(d, m, v)) == if held(d).Some? then held(d) else if m == n then AsWritten(v) else None)
    && (forall d, m, v {:trigger Free(d, m, v)} :: Free(d, m, v).Draft? ==>
      held(Free(d, m, v)) == if held(d).Some? then held(d) else if m == n then AsEscaped(v) else None)
  }

  lemma PushHeld(attrs: seq<Attr>, a: Attr, n: Name)
    ensures Held(n)(Draft(attrs + [a])) ==
      if Held(n)(Draft(attrs)).Some? then Held(n)(Draft(attrs)) else if a.name == n then Some(Meant(a).1) else None
  {
    MeantPush(attrs, a);
    LookupPush(MeantAll(attrs), Meant(a), Spell(n));
    if Spell(a.name) == Spell(n) {
      SpellInjective(a.name, n);
    }
  }

  lemma HeldHolds(n: Name)
    ensures Holder(Held(n), n)
  {
    forall d, m, v | Raw(d, m, v).Draft?
      ensures Held(n)(Raw(d, m, v)) == if Held(n)(d).Some? then Held(n)(d) else if m == n then AsWritten(v) else None
    {
      PushHeld(d.attrs, Attr(m, false, Str(v.value)), n);
    }
    forall d, m, v | Free(d, m, v).Draft?
      ensures Held(n)(Free(d, m, v)) ==
        if Held(n)(d).Some? then Held(n)(d) else if m == n then AsEscaped(v) else None
    {
      PushHeld(d.attrs, Attr(m, true, v.value.s), n);
    }
  }

  lemma HeadHeld(held: Draft -> Option<string>, c: Change, n: Name)
    requires Holder(held, n) && PlanHead(c).Draft? && held(Draft([])).None?
    ensures held(PlanHead(c)) == if InHead(n) then HeadField(c, n) else None
  {
  }

  lemma TextHeld(held: Draft -> Option<string>, c: Change, d: Draft, n: Name)
    requires Holder(held, n) && PlanText(c, d).Draft? && (InText(n) ==> held(d).None?)
    ensures held(PlanText(c, d)) == if InText(n) then TextField(c, n) else held(d)
  {
  }

  predicate InMiddle(n: Name) {
    InFlags(n) || n.Type? || n.LengthNew? || n.LengthOld?
  }

  /** What the middle of the element says. */
  function MiddleField(c: Change, n: Name): Option<string> {
    if InFlags(n) then FlagField(c, n) else if n.Type? then AsEscaped(c.kind) else LengthField(c, n)
  }

  lemma Defaults()
    ensures AsWritten(Some(Bool(false))) == Some("False") && AsWritten(Some(Int(0))) == Some("0")
  {
    ScalarPlain(Bool(false));
    ScalarPlain(Int(0));
    assert Decimal(0) == "0";
  }

  lemma MiddleOthers(held: Draft -> Option<string>, c: Change, d: Draft, n: Name)
    requires Holder(held, n) && PlanFlags(c, d).Draft? && !InMiddle(n)
    ensures held(PlanFlags(c, d)) == held(d)
  {
  }

  lemma MiddleHeld(held: Draft -> Option<string>, c: Change, d: Draft, n: Name)
    requires Holder(held, n) && PlanFlags(c, d).Draft? && !c.length.NotObject? && InMiddle(n) && held(d).None?
    ensures held(PlanFlags(c, d)) == MiddleField(c, n)
  {
    Defaults();
    var d1 := Raw(d, Bot, c.bot);
    var d2 := Raw(d1, Patrolled, Or(c.patrolled, Bool(false)));
    var d3 := Raw(d2, Minor, Or(c.minor, Bool(false)));
    assert held(d3) == if InFlags(n) then FlagField(c, n) else None;
    var d4 := Free(d3, Type, c.kind);
    assert held(d4) == if n.Type? then AsEscaped(c.kind) else held(d3);
  }

  lemma LogHeld(held: Draft -> Option<string>, c: Change, d: Draft, n: Name)
    requires Holder(held, n) && PlanLog(c, d).Draft? && (InLog(n) ==> held(d).None?)
    ensures held(PlanLog(c, d)) == if InLog(n) then LogField(c, n) else held(d)
  {
  }

  lemma BodyHeld(held: Draft -> Option<string>, c: Change, d: Draft, n: Name)
    requires Holder(held, n) && PlanBody(c, d).Draft? && !c.length.NotObject? && (InText(n) || InMiddle(n) ==> held(d).None?)
    ensures held(PlanBody(c, d)) == if InText(n) then TextField(c, n) else if InMiddle(n) then MiddleField(c, n) else held(d)
  {
    var t := PlanText(c, d);
    TextHeld(held, c, d, n);
    if InMiddle(n) {
      MiddleHeld(held, c, t, n);
    } else {
      MiddleOthers(held, c, t, n);
    }
  }

  lemma AllDrafts(c: Change)
    requires Plan(c).Draft?
    ensures PlanHead(c).Draft? && PlanBody(c, PlanHead(c)).Draft? && PlanLog(c, PlanBody(c, PlanHead(c))).Draft?
  {
    if !PlanHead(c).Draft? {
      Stops(c, PlanHead(c));
    } else if !PlanBody(c, PlanHead(c)).Draft? {
      Stops(c, PlanBody(c, PlanHead(c)));
    }
  }

  lemma LastHeld(held: Draft -> Option<string>, c: Change, l: Draft, n: Name)
    requires Holder(held, n) && Raw(l, Timestamp, c.timestamp).Draft?
    ensures held(Raw(l, Timestamp, c.timestamp)) == if held(l).Some? || !n.Timestamp? then held(l) else AsWritten(c.timestamp)
  {
  }

  lemma HeadSays(c: Change, n: Name)
    requires PlanHead(c).Draft?
    ensures Held(n)(PlanHead(c)) == if InHead(n) then HeadField(c, n) else None
  {
    HeldHolds(n);
    HeadHeld(Held(n), c, n);
  }

  lemma BodySays(c: Change, d: Draft, n: Name)
    requires PlanBody(c, d).Draft? && !c.length.NotObject? && (InText(n) || InMiddle(n) ==> Held(n)(d).None?)
    ensures Held(n)(PlanBody(c, d)) ==
      if InText(n) then TextField(c, n) else if InMiddle(n) then MiddleField(c, n) else Held(n)(d)
  {
    HeldHolds(n);
    BodyHeld(Held(n), c, d, n);
  }

  lemma LogSays(c: Change, b: Draft, n: Name)
    requires PlanLog(c, b).Draft? && (InLog(n) ==> Held(n)(b).None?)
    ensures Held(n)(PlanLog(c, b)) == if InLog(n) then LogField(c, n) else Held(n)(b)
  {
    HeldHolds(n);
    LogHeld(Held(n), c, b, n);
  }

  lemma LastSays(c: Change, l: Draft, n: Name)
    requires Raw(l, Timestamp, c.timestamp).Draft?
    ensures Held(n)(Raw(l, Timestamp, c.timestamp)) ==
      if Held(n)(l).Some? || !n.Timestamp? then Held(n)(l) else AsWritten(c.timestamp)
  {
    HeldHolds(n);
    LastHeld(Held(n), c, l, n);
  }

  /** What comes after the body of the element. */
  function Rest(c: Change, b: Draft): Draft {
    Raw(PlanLog(c, b), Timestamp, c.timestamp)
  }

  lemma RestSays(c: Change, b: Draft, n: Name)
    requires Rest(c, b).Draft? && (InLog(n) || n.Timestamp? ==> Held(n)(b).None?)
    ensures Held(n)(Rest(c, b)) ==
      if InLog(n) then LogField(c, n) else if n.Timestamp? then AsWritten(c.timestamp) else Held(n)(b)
  {
    LogSays(c, b, n);
    LastSays(c, PlanLog(c, b), n);
  }

  lemma Joined(c: Change, n: Name, head: Option<string>, body: Option<string>, all: Option<string>)
    requires !InHead(n) ==> head.None?
    requires body == if InText(n) then TextField(c, n) else if InMiddle(n) then MiddleField(c, n) else head
    requires all == if InLog(n) then LogField(c, n) else if n.Timestamp? then AsWritten(c.timestamp) else body
    ensures all == if InHead(n) then head else FieldOf(c, n)
  {
  }

  lemma JoinedSays(c: Change, b: Draft, n: Name, head: Option<string>)
    requires Rest(c, b).Draft? && (!InHead(n) ==> head.None?)
    requires Held(n)(b) == if InText(n) then TextField(c, n) else if InMiddle(n) then MiddleField(c, n) else head
    ensures Held(n)(Rest(c, b)) == if InHead(n) then head else FieldOf(c, n)
  {
    RestSays(c, b, n);
    Joined(c, n, head, Held(n)(b), Held(n)(Rest(c, b)));
  }

  lemma TailSays(c: Change, d: Draft, n: Name)
    requires d.Draft? && PlanBody(c, d).Draft? && Rest(c, PlanBody(c, d)).Draft? && !c.length.NotObject?
    requires !InHead(n) ==> Held(n)(d).None?
    ensures Held(n)(Rest(c, PlanBody(c, d))) == if InHead(n) then Held(n)(d) else FieldOf(c, n)
  {
    var b := PlanBody(c, d);
    BodySays(c, d, n);
    JoinedSays(c, b, n, Held(n)(d));
  }

  lemma PlanHeld(c: Change, n: Name)
    requires Plan(c).Draft? && !c.length.NotObject?
    ensures Held(n)(Plan(c)) == FieldOf(c, n)
  {
    AllDrafts(c);
    HeadSays(c, n);
    TailSays(c, PlanHead(c), n);
  }

  /** The element of a published, clean change says under each of the nineteen names exactly what the change's own
      keys call for, or has no such attribute; and it has no other name. */
  lemma FieldsReadBack(c: Change, n: Name)
    requires Publishable(c) && CleanChange(c)
    ensures Outcome(Plan(c)).Xml?
    ensures var e := ReadDocument(Outcome(Plan(c)).text);
      && e.Document? && e.name == "edit" && Lookup(e.attrs, Spell(n)) == FieldOf(c, n)
      && forall i | 0 <= i < |e.attrs| :: Named(e.attrs[i].0).Some?
  {
    AttributesReadBackIff(c);
    PlanHeld(c, n);
    forall i | 0 <= i < |Plan(c).attrs| ensures Named(MeantAll(Plan(c).attrs)[i].0).Some? {
      SpelledNamed(Plan(c).attrs[i].name);
    }
  }
}
