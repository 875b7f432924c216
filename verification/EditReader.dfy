/** What the C# client makes of a line, and of an edit element above all: processOutput in
    clients/c#/XmlRcs/XmlRcs/Provider.cs. */
module EditReader {
  import opened Base
  import opened EditElement
  import opened Scalars
  import opened UnixTime
  import opened XmlDocument

  datatype ChangeType = Edit | Log | New | Unknown

  /** A RecentChange; None stands for a null string. */
  datatype RecentChange = RecentChange(
    wiki: Option<string>, serverName: Option<string>, summary: Option<string>, title: Option<string>, user: Option<string>,
    revId: int, oldId: int, ns: int, lengthNew: int, lengthOld: int,
    bot: bool, patrolled: bool, minor: bool, kind: ChangeType,
    time: Option<int>) // milliseconds from 1970; None stands for DateTime.MinValue

  const UNFILLED := RecentChange(None, None, None, None, None, 0, 0, 0, 0, 0, false, false, false, Unknown, None)

  /** The record being filled, or the exception of bool.Parse, double.Parse or AddSeconds. */
  datatype Filled = Filled(rc: RecentChange) | Rejected

  function KindOf(s: string, before: ChangeType): ChangeType {
    var t := Lower(s);
    if t == "new" then New else if t == "log" then Log else if t == "edit" then Edit else before
  }

  /** The three words, in any case; anything else leaves the type as it was. */
  lemma KindTable(s: string, before: ChangeType)
    ensures KindOf("new", before) == New && KindOf("log", before) == Log && KindOf("edit", before) == Edit
    ensures KindOf("NEW", before) == New && KindOf("Log", before) == Log && KindOf("eDiT", before) == Edit
    ensures Lower(s) !in {"new", "log", "edit"} ==> KindOf(s, before) == before
  {
    assert Lower("new") == "new" && Lower("log") == "log" && Lower("edit") == "edit";
    assert Lower("NEW") == "new" && Lower("Log") == "log" && Lower("eDiT") == "edit";
  }

  function SetWord(f: Filled, n: Name, s: string): Filled {
    if f.Rejected? then f
    else
      Filled(f.rc.(
        wiki := if n.Wiki? then Some(s) else f.rc.wiki,
        serverName := if n.ServerName? then Some(s) else f.rc.serverName,
        summary := if n.Summary? then Some(s) else f.rc.summary,
        title := if n.Title? then Some(s) else f.rc.title,
        user := if n.User? then Some(s) else f.rc.user))
  }

  function SetNumber(f: Filled, n: Name, i: int): Filled {
    if f.Rejected? then f
    else
      Filled(f.rc.(
        revId := if n.RevId? then i else f.rc.revId,
        oldId := if n.OldId? then i else f.rc.oldId,
        ns := if n.Namespace? then i else f.rc.ns,
        lengthNew := if n.LengthNew? then i else f.rc.lengthNew,
        lengthOld := if n.LengthOld? then i else f.rc.lengthOld))
  }

  function SetFlag(f: Filled, n: Name, t: Truth): Filled {
    if f.Rejected? || t.NotBool? then Rejected
    else
      Filled(f.rc.(
        bot := if n.Bot? then t.b else f.rc.bot,
        patrolled := if n.Patrolled? then t.b else f.rc.patrolled,
        minor := if n.Minor? then t.b else f.rc.minor))
  }

  function SetKind(f: Filled, s: string): Filled {
    if f.Rejected? then f else Filled(f.rc.(kind := KindOf(s, f.rc.kind)))
  }

  function SetTime(f: Filled, t: Moment): Filled {
    if f.Rejected? || t.NoMoment? then Rejected else Filled(f.rc.(time := Some(t.ms)))
  }

  predicate IsNumber(n: Name) {
    n.RevId? || n.OldId? || n.Namespace? || n.LengthNew? || n.LengthOld?
  }

  predicate IsFlag(n: Name) {
    n.Bot? || n.Patrolled? || n.Minor?
  }

  /** One turn of the switch over attribute names. */
  function Put(f: Filled, n: Name, s: string): Filled {
    if IsNumber(n) then SetNumber(f, n, TryParseIS(s))
    else if IsFlag(n) then SetFlag(f, n, BoolParse(s))
    else if n.Type? then SetKind(f, s)
    else if n.Timestamp? then SetTime(f, FromText(s))
    else SetWord(f, n, s)
  }

  /** Names the switch does not know are passed over. */
  function PutNamed(f: Filled, p: Pair): Filled {
    var n := Named(p.0);
    if n.None? then f else Put(f, n.value, p.1)
  }

  function Fill(attrs: seq<Pair>): Filled {
    if attrs == [] then Filled(UNFILLED) else PutNamed(Fill(attrs[..|attrs| - 1]), attrs[|attrs| - 1])
  }

  /** What a line comes to: a change, nothing that concerns changes, or an exception, which ends the connection. */
  datatype Reaction = Changed(rc: RecentChange) | Quiet | Ends

  function OnRecord(f: Filled): Reaction {
    if f.Rejected? then Ends else Changed(f.rc)
  }

  /** processOutput: LoadXml, and the switch over the root element's name. */
  function React(line: string): Reaction {
    var d := ReadDocument(line);
    if d.IllFormed? then Ends else if d.name == "edit" then OnRecord(Fill(d.attrs)) else Quiet
  }

  /** Provider_Exec after some lines: the changes handed on, and whether a line has raised and so ended it. */
  datatype Hearing = Hearing(heard: seq<RecentChange>, over: bool)

  function Hear(h: Hearing, r: Reaction): Hearing {
    if h.over then h
    else
      match r
      case Changed(rc) => Hearing(h.heard + [rc], false)
      case Quiet => h
      case Ends => Hearing(h.heard, true)
  }

  function HeardOf(rs: seq<Reaction>): Hearing {
    if rs == [] then Hearing([], false) else Hear(HeardOf(rs[..|rs| - 1]), rs[|rs| - 1])
  }

  /** After a line that raises nothing more is heard. */
  lemma {:induction false} DeafAfter(rs: seq<Reaction>, k: nat)
    requires k < |rs| && rs[k].Ends?
    ensures HeardOf(rs) == Hearing(HeardOf(rs[..k]).heard, true)
  {
    var before := rs[..|rs| - 1];
    if k < |before| {
      assert before[..k] == rs[..k];
      DeafAfter(before, k);
    }
  }

  /** The number of lines before the first that raises. */
  function Clear(rs: seq<Reaction>): (k: nat)
    ensures k <= |rs| && (k < |rs| ==> rs[k].Ends?)
    ensures forall i | 0 <= i < k :: !rs[i].Ends?
  {
    if rs == [] || rs[0].Ends? then 0 else 1 + Clear(rs[1..])
  }

  lemma {:induction false} RejectedStays(attrs: seq<Pair>, k: nat)
    requires k <= |attrs| && Fill(attrs[..k]).Rejected?
    ensures Fill(attrs).Rejected?
    decreases |attrs|
  {
    if k < |attrs| {
      assert attrs[..|attrs| - 1][..k] == attrs[..k];
      RejectedStays(attrs[..|attrs| - 1], k);
    } else {
      assert attrs[..k] == attrs;
    }
  }

  /** The switch itself. */
  method ReadAttribute(rc: RecentChange, n: Name, value: string) returns (f: Filled)
    ensures f == Put(Filled(rc), n, value)
  {
    match n
    case Wiki => return Filled(rc.(wiki := Some(value)));
    case ServerName => return Filled(rc.(serverName := Some(value)));
    case Summary => return Filled(rc.(summary := Some(value)));
    case RevId => return Filled(rc.(revId := TryParseIS(value)));
    case OldId => return Filled(rc.(oldId := TryParseIS(value)));
    case Title => return Filled(rc.(title := Some(value)));
    case Namespace => return Filled(rc.(ns := TryParseIS(value)));
    case User => return Filled(rc.(user := Some(value)));
    case Bot =>
      var b := BoolParse(value);
      return if b.NotBool? then Rejected else Filled(rc.(bot := b.b));
    case Patrolled =>
      var b := BoolParse(value);
      return if b.NotBool? then Rejected else Filled(rc.(patrolled := b.b));
    case Minor =>
      var b := BoolParse(value);
      return if b.NotBool? then Rejected else Filled(rc.(minor := b.b));
    case Type => return Filled(rc.(kind := KindOf(value, rc.kind)));
    case LengthNew => return Filled(rc.(lengthNew := TryParseIS(value)));
    case LengthOld => return Filled(rc.(lengthOld := TryParseIS(value)));
    case Timestamp =>
      var t := FromText(value);
      return if t.NoMoment? then Rejected else Filled(rc.(time := Some(t.ms)));
    case _ => return Filled(rc);
  }

  /** The loop of processOutput over the attributes of an edit. */
  method ReadAttributes(attrs: seq<Pair>) returns (f: Filled)
    ensures f == Fill(attrs)
  {
    f := Filled(UNFILLED);
    var i := 0;
    while i < |attrs|
      invariant i <= |attrs|
      invariant f.Filled? && f == Fill(attrs[..i])
    {
      assert attrs[..i + 1][..i] == attrs[..i];
      var name := Named(attrs[i].0);
      if name.Some? {
        f := ReadAttribute(f.rc, name.value, attrs[i].1);
      }
      if f.Rejected? {
        RejectedStays(attrs, i + 1);
        return;
      }
      i := i + 1;
    }
    assert attrs[..i] == attrs;
  }
}
