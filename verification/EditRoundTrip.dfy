/** What survives the way from a change record through format_xml, one line of XML and the C# client.
    src/es2r/es2r.py, clients/c#/XmlRcs/XmlRcs/Provider.cs. */
module EditRoundTrip {
  import opened Base
  import opened ChangeFormat
  import opened EditElement
  import opened EditReader
  import opened Scalars
  import opened UnixTime
  import opened XmlDocument
  import opened XmlText

  // ---------------------------------------------------------------- order and cleanliness of the attributes

  /** In order, all of rank below k. */
  ghost predicate Below(d: Draft, k: nat) {
    d.Draft? ==> InOrder(d.attrs) && forall i | 0 <= i < |d.attrs| :: Rank(d.attrs[i].name) < k
  }

  predicate CleanDraft(d: Draft) {
    d.Draft? ==> AllClean(d.attrs)
  }

  /** A value that may stand between double quotes unescaped. */
  predicate PlainIfThere(v: Option<Scalar>) {
    v.Some? ==> Plain(Str(v.value))
  }

  predicate LegalIfThere(v: Option<Scalar>) {
    v.Some? && v.value.Text? ==> AllLegal(v.value.s)
  }

  lemma PushClean(attrs: seq<Attr>, a: Attr)
    ensures AllClean(attrs + [a]) <==> AllClean(attrs) && Clean(a)
  {
    var all := attrs + [a];
    assert all[|attrs|] == a;
    assert forall i | 0 <= i < |attrs| :: all[i] == attrs[i];
  }

  lemma RawGrows(d: Draft, n: Name, v: Option<Scalar>, k: nat)
    requires Below(d, k) && k <= Rank(n)
    ensures Below(Raw(d, n, v), Rank(n) + 1)
    ensures Raw(d, n, v).Draft? ==> (CleanDraft(Raw(d, n, v)) <==> CleanDraft(d) && PlainIfThere(v))
  {
    if Raw(d, n, v).Draft? {
      PushClean(d.attrs, Attr(n, false, Str(v.value)));
    }
  }

  lemma FreeGrows(d: Draft, n: Name, v: Option<Scalar>, k: nat)
    requires Below(d, k) && k <= Rank(n)
    ensures Below(Free(d, n, v), Rank(n) + 1)
    ensures Free(d, n, v).Draft? ==> (CleanDraft(Free(d, n, v)) <==> CleanDraft(d) && LegalIfThere(v))
  {
    if Free(d, n, v).Draft? {
      PushClean(d.attrs, Attr(n, true, v.value.s));
    }
  }

  lemma RawIfGrows(d: Draft, n: Name, v: Option<Scalar>, k: nat)
    requires Below(d, k) && k <= Rank(n)
    ensures Below(RawIf(d, n, v), Rank(n) + 1)
    ensures RawIf(d, n, v).Draft? ==> (CleanDraft(RawIf(d, n, v)) <==> CleanDraft(d) && PlainIfThere(v))
    ensures RawIf(d, n, v).Draft? ==> d.Draft?
  {
    if v.Some? { RawGrows(d, n, v, k); }
  }

  lemma FreeIfGrows(d: Draft, n: Name, v: Option<Scalar>, k: nat)
    requires Below(d, k) && k <= Rank(n)
    ensures Below(FreeIf(d, n, v), Rank(n) + 1)
    ensures FreeIf(d, n, v).Draft? ==> (CleanDraft(FreeIf(d, n, v)) <==> CleanDraft(d) && LegalIfThere(v))
    ensures FreeIf(d, n, v).Draft? ==> d.Draft?
  {
    if v.Some? { FreeGrows(d, n, v, k); }
  }

  predicate CleanHead(c: Change) {
    PlainIfThere(c.wiki) && PlainIfThere(c.serverName)
    && (c.revision.Object? ==> PlainIfThere(c.revision.current) && PlainIfThere(c.revision.previous))
  }

  predicate CleanText(c: Change) {
    LegalIfThere(c.comment) && LegalIfThere(c.title) && PlainIfThere(c.ns) && LegalIfThere(c.user)
  }

  predicate CleanFlags(c: Change) {
    && PlainIfThere(c.bot) && PlainIfThere(c.patrolled) && PlainIfThere(c.minor) && LegalIfThere(c.kind)
    && (c.length.Object? ==> PlainIfThere(c.length.current) && PlainIfThere(c.length.previous))
  }

  predicate CleanLog(c: Change) {
    c.kind == Some(Text("log")) ==>
      PlainIfThere(c.logId) && LegalIfThere(c.logType) && LegalIfThere(c.logAction) && LegalIfThere(c.logActionComment)
  }

  /** Nothing written as it stands has a double quote, an ampersand or a less-than sign, and no text has a
      character XML does not allow. */
  predicate CleanChange(c: Change) {
    CleanHead(c) && CleanText(c) && CleanFlags(c) && CleanLog(c) && PlainIfThere(c.timestamp)
  }

  lemma HeadGrows(c: Change)
    ensures Below(PlanHead(c), 4)
    ensures PlanHead(c).Draft? ==> (CleanDraft(PlanHead(c)) <==> CleanHead(c))
  {
    var d := Begin(c);
    RawGrows(d, Wiki, c.wiki, 0);
    d := Raw(d, Wiki, c.wiki);
    RawGrows(d, ServerName, c.serverName, 1);
    d := Raw(d, ServerName, c.serverName);
    if c.revision.Object? {
      RawGrows(d, RevId, c.revision.current, 2);
      d := Raw(d, RevId, c.revision.current);
      RawIfGrows(d, OldId, c.revision.previous, 3);
    }
  }

  lemma TextGrows(c: Change, d0: Draft)
    requires Below(d0, 4)
    ensures Below(PlanText(c, d0), 8)
    ensures PlanText(c, d0).Draft? ==> (CleanDraft(PlanText(c, d0)) <==> CleanDraft(d0) && CleanText(c))
  {
    var d := d0;
    FreeGrows(d, Summary, Or(c.comment, Text("")), 4);
    d := Free(d, Summary, Or(c.comment, Text("")));
    FreeGrows(d, Title, c.title, 5);
    d := Free(d, Title, c.title);
    RawGrows(d, Namespace, c.ns, 6);
    d := Raw(d, Namespace, c.ns);
    FreeGrows(d, User, c.user, 7);
    assert AllLegal("");
  }

  lemma FlagsGrow(c: Change, d0: Draft)
    requires Below(d0, 8) && !c.length.NotObject?
    ensures Below(PlanFlags(c, d0), 14)
    ensures PlanFlags(c, d0).Draft? ==> (CleanDraft(PlanFlags(c, d0)) <==> CleanDraft(d0) && CleanFlags(c))
  {
    var d := d0;
    RawGrows(d, Bot, c.bot, 8);
    d := Raw(d, Bot, c.bot);
    RawGrows(d, Patrolled, Or(c.patrolled, Bool(false)), 9);
    d := Raw(d, Patrolled, Or(c.patrolled, Bool(false)));
    RawGrows(d, Minor, Or(c.minor, Bool(false)), 10);
    d := Raw(d, Minor, Or(c.minor, Bool(false)));
    FreeGrows(d, Type, c.kind, 11);
    d := Free(d, Type, c.kind);
    RawGrows(d, LengthNew, Current(c.length), 12);
    d := Raw(d, LengthNew, Current(c.length));
    RawGrows(d, LengthOld, Or(Previous(c.length), Int(0)), 13);
    ScalarPlain(Bool(false));
    ScalarPlain(Int(0));
  }

  lemma LogGrows(c: Change, d0: Draft)
    requires Below(d0, 14)
    ensures Below(PlanLog(c, d0), 18)
    ensures PlanLog(c, d0).Draft? ==> (CleanDraft(PlanLog(c, d0)) <==> CleanDraft(d0) && CleanLog(c))
  {
    if c.kind == Some(Text("log")) {
      var d1 := RawIf(d0, LogId, c.logId);
      var d2 := FreeIf(d1, LogType, c.logType);
      var d3 := FreeIf(d2, LogAction, c.logAction);
      RawIfGrows(d0, LogId, c.logId, 14);
      FreeIfGrows(d1, LogType, c.logType, 15);
      FreeIfGrows(d2, LogAction, c.logAction, 16);
      FreeIfGrows(d3, LogActionComment, c.logActionComment, 17);
    }
  }

  /** From the head on, for a change whose length object is in order. */
  lemma RestGrows(c: Change, d0: Draft)
    requires Below(d0, 4) && !c.length.NotObject?
    ensures var d := Raw(PlanLog(c, PlanBody(c, d0)), Timestamp, c.timestamp);
      Below(d, 19)
      && (d.Draft? ==>
            (CleanDraft(d) <==> CleanDraft(d0) && CleanText(c) && CleanFlags(c) && CleanLog(c) && PlainIfThere(c.timestamp)))
  {
    TextGrows(c, d0);
    var d1 := PlanText(c, d0);
    FlagsGrow(c, d1);
    var d2 := PlanFlags(c, d1);
    LogGrows(c, d2);
    RawGrows(PlanLog(c, d2), Timestamp, c.timestamp, 18);
  }

  lemma PlanGrows(c: Change)
    ensures Below(Plan(c), 19)
    ensures Plan(c).Draft? ==> (AllClean(Plan(c).attrs) <==> CleanChange(c))
  {
    var d := PlanHead(c);
    if d.Draft? {
      HeadGrows(c);
      RestGrows(c, d);
    } else {
      Stops(c, d);
    }
  }

  /** Every published change is read back with exactly the attributes it was given, each name once, if and
      only if it is clean. */
  lemma AttributesReadBackIff(c: Change)
    requires Publishable(c)
    ensures Plan(c).Draft? && UniqueNames(MeantAll(Plan(c).attrs))
    ensures ReadDocument(WriteEdit(Plan(c).attrs)) == Document("edit", MeantAll(Plan(c).attrs)) <==> CleanChange(c)
  {
    PublishedIff(c);
    PlanGrows(c);
    NamesUnique(Plan(c).attrs);
    EditReadsBackIff(Plan(c).attrs);
  }

  // ---------------------------------------------------------------- what the client gets

  /** A number of the record: itself if 32 bits hold it, 0 if it is missing, too large or no number. */
  function NumberOf(v: Option<Scalar>): int {
    if v.None? then 0
    else if v.value.Int? then if -0x8000_0000 <= v.value.i <= 0x7fff_ffff then v.value.i else 0
    else if v.value.Text? then TryParseIS(NormAll(v.value.s))
    else 0
  }

  /** A flag of the record, false if it is missing; null and numbers are no truth values. */
  function TruthOf(v: Option<Scalar>): Truth {
    if v.None? then Truth(false)
    else if v.value.Bool? then Truth(v.value.b)
    else if v.value.Text? then BoolParse(NormAll(v.value.s))
    else NotBool
  }

  function TextOf(v: Option<Scalar>): string {
    if v.Some? && v.value.Text? then v.value.s else ""
  }

  /** The timestamp of the record, if it is a number of seconds that a DateTime can hold. */
  function TimeOf(v: Option<Scalar>): Moment {
    if v.None? then NoMoment
    else if v.value.Int? then
      if -62_135_596_800 <= v.value.i <= 253_402_300_799 then Moment(v.value.i * 1000) else NoMoment
    else if v.value.Text? then FromText(NormAll(v.value.s))
    else NoMoment
  }

  predicate FlagsGood(c: Change) {
    TruthOf(c.bot).Truth? && TruthOf(c.patrolled).Truth? && TruthOf(c.minor).Truth?
  }

  /** The record the client ends with, or its exception: a flag is no truth value, or the timestamp no time. */
  function Received(c: Change): Filled
    requires c.wiki.Some? && c.serverName.Some?
  {
    if !FlagsGood(c) || TimeOf(c.timestamp).NoMoment? then Rejected
    else
      Filled(RecentChange(
        Some(NormAll(Str(c.wiki.value))), Some(NormAll(Str(c.serverName.value))),
        Some(TextOf(c.comment)), Some(TextOf(c.title)), Some(TextOf(c.user)),
        NumberOf(Current(c.revision)), NumberOf(Previous(c.revision)), NumberOf(c.ns),
        NumberOf(Current(c.length)), NumberOf(Previous(c.length)),
        TruthOf(c.bot).b, TruthOf(c.patrolled).b, TruthOf(c.minor).b,
        KindOf(TextOf(c.kind), Unknown), Some(TimeOf(c.timestamp).ms)))
  }

  lemma NumberBack(v: Scalar)
    ensures TryParseIS(NormAll(Str(v))) == NumberOf(Some(v))
  {
    if v.Int? {
      ScalarPlain(v);
      IntReadsBack(v.i);
    } else if !v.Text? {
      ScalarPlain(v);
      StrTame(v);
      NothingToTrim(Str(v));
      assert Str(v)[0] == 'T' || Str(v)[0] == 'F' || Str(v)[0] == 'N';
    }
  }

  lemma TruthBack(v: Scalar)
    ensures BoolParse(NormAll(Str(v))) == TruthOf(Some(v))
  {
    if !v.Text? {
      ScalarPlain(v);
      BoolReadsBackIff(v);
    }
  }

  lemma TimeBack(v: Scalar)
    ensures FromText(NormAll(Str(v))) == TimeOf(Some(v))
  {
    if !v.Text? {
      ScalarPlain(v);
      TimeReadsBackIff(v);
    }
  }

  function Seen(d: Draft): Filled {
    if d.Draft? then Fill(MeantAll(d.attrs)) else Rejected
  }

  lemma {:induction false} MeantPush(attrs: seq<Attr>, a: Attr)
    ensures MeantAll(attrs + [a]) == MeantAll(attrs) + [Meant(a)]
  {
    if attrs == [] {
      assert [] + [a] == [a] && [a][1..] == [];
    } else {
      assert (attrs + [a])[1..] == attrs[1..] + [a];
      MeantPush(attrs[1..], a);
    }
  }

  lemma PushSeen(attrs: seq<Attr>, a: Attr)
    ensures Fill(MeantAll(attrs + [a])) == Put(Fill(MeantAll(attrs)), a.name, Meant(a).1)
  {
    MeantPush(attrs, a);
    var ps := MeantAll(attrs) + [Meant(a)];
    assert ps[..|ps| - 1] == MeantAll(attrs);
    SpelledNamed(a.name);
  }

  predicate IsWord(n: Name) {
    !IsNumber(n) && !IsFlag(n) && !n.Type? && !n.Timestamp?
  }

  lemma WordSeen(d: Draft, n: Name, v: Option<Scalar>)
    requires Raw(d, n, v).Draft? && IsWord(n)
    ensures Seen(Raw(d, n, v)) == SetWord(Seen(d), n, NormAll(Str(v.value)))
  {
    PushSeen(d.attrs, Attr(n, false, Str(v.value)));
  }

  lemma TimeSeen(d: Draft, v: Option<Scalar>)
    requires Raw(d, Timestamp, v).Draft?
    ensures Seen(Raw(d, Timestamp, v)) == SetTime(Seen(d), TimeOf(v))
  {
    PushSeen(d.attrs, Attr(Timestamp, false, Str(v.value)));
    TimeBack(v.value);
  }

  lemma NumberSeen(d: Draft, n: Name, v: Option<Scalar>)
    requires Raw(d, n, v).Draft? && IsNumber(n)
    ensures Seen(Raw(d, n, v)) == SetNumber(Seen(d), n, NumberOf(v))
  {
    PushSeen(d.attrs, Attr(n, false, Str(v.value)));
    NumberBack(v.value);
  }

  lemma FlagSeen(d: Draft, n: Name, v: Option<Scalar>)
    requires Raw(d, n, v).Draft? && IsFlag(n)
    ensures Seen(Raw(d, n, v)) == SetFlag(Seen(d), n, TruthOf(v))
  {
    PushSeen(d.attrs, Attr(n, false, Str(v.value)));
    TruthBack(v.value);
  }

  lemma FreeSeen(d: Draft, n: Name, v: Option<Scalar>)
    requires Free(d, n, v).Draft? && (IsWord(n) || n.Type?)
    ensures Seen(Free(d, n, v)) == if n.Type? then SetKind(Seen(d), TextOf(v)) else SetWord(Seen(d), n, TextOf(v))
  {
    PushSeen(d.attrs, Attr(n, true, v.value.s));
  }

  /** What the proofs below use of Seen: how each kind of attribute changes the record. */
  ghost predicate Reader(seen: Draft -> Filled) {
    && (forall d, n, v {:trigger Raw(d, n, v)} :: Raw(d, n, v).Draft? && IsNumber(n) ==>
      seen(Raw(d, n, v)) == SetNumber(seen(d), n, NumberOf(v)))
    && (forall d, n, v {:trigger Raw(d, n, v)} :: Raw(d, n, v).Draft? && IsFlag(n) ==>
      seen(Raw(d, n, v)) == SetFlag(seen(d), n, TruthOf(v)))
    && (forall d, n, v {:trigger Raw(d, n, v)} :: Raw(d, n, v).Draft? && IsWord(n) ==>
      seen(Raw(d, n, v)) == SetWord(seen(d), n, NormAll(Str(v.value))))
    && (forall d, v {:trigger Raw(d, Timestamp, v)} :: Raw(d, Timestamp, v).Draft? ==>
      seen(Raw(d, Timestamp, v)) == SetTime(seen(d), TimeOf(v)))
    && (forall d, n, v {:trigger Free(d, n, v)} :: Free(d, n, v).Draft? && (IsWord(n) || n.Type?) ==>
      seen(Free(d, n, v)) == if n.Type? then SetKind(seen(d), TextOf(v)) else SetWord(seen(d), n, TextOf(v)))
  }

  lemma SeenReads()
    ensures Reader(Seen)
  {
    forall d, n, v | Raw(d, n, v).Draft? && IsNumber(n) ensures Seen(Raw(d, n, v)) == SetNumber(Seen(d), n, NumberOf(v)) {
      NumberSeen(d, n, v);
    }
    forall d, n, v | Raw(d, n, v).Draft? && IsFlag(n) ensures Seen(Raw(d, n, v)) == SetFlag(Seen(d), n, TruthOf(v)) {
      FlagSeen(d, n, v);
    }
    forall d, v | Raw(d, Timestamp, v).Draft? ensures Seen(Raw(d, Timestamp, v)) == SetTime(Seen(d), TimeOf(v)) {
      TimeSeen(d, v);
    }
    forall d, n, v | Raw(d, n, v).Draft? && IsWord(n)
      ensures Seen(Raw(d, n, v)) == SetWord(Seen(d), n, NormAll(Str(v.value)))
    {
      WordSeen(d, n, v);
    }
    forall d, n, v | Free(d, n, v).Draft? && (IsWord(n) || n.Type?)
      ensures Seen(Free(d, n, v)) == if n.Type? then SetKind(Seen(d), TextOf(v)) else SetWord(Seen(d), n, TextOf(v))
    {
      FreeSeen(d, n, v);
    }
  }

  lemma HeadSeen(seen: Draft -> Filled, c: Change)
    requires Reader(seen) && PlanHead(c).Draft? && seen(Draft([])) == Filled(UNFILLED)
    ensures seen(PlanHead(c)) == Filled(UNFILLED.(
      wiki := Some(NormAll(Str(c.wiki.value))), serverName := Some(NormAll(Str(c.serverName.value))),
      revId := NumberOf(Current(c.revision)), oldId := NumberOf(Previous(c.revision))))
  {
  }

  lemma TextSeen(seen: Draft -> Filled, c: Change, d: Draft)
    requires Reader(seen) && PlanText(c, d).Draft? && seen(d).Filled?
    ensures seen(PlanText(c, d)) == Filled(seen(d).rc.(
      summary := Some(TextOf(c.comment)), title := Some(TextOf(c.title)), user := Some(TextOf(c.user)), ns := NumberOf(c.ns)))
  {
  }

  lemma FlagsSeen(seen: Draft -> Filled, c: Change, d: Draft)
    requires Reader(seen) && PlanFlags(c, d).Draft? && seen(d).Filled?
    ensures seen(PlanFlags(c, d)) == if FlagsGood(c) then Filled(seen(d).rc.(
      bot := TruthOf(c.bot).b, patrolled := TruthOf(c.patrolled).b, minor := TruthOf(c.minor).b,
      kind := KindOf(TextOf(c.kind), seen(d).rc.kind),
      lengthNew := NumberOf(Current(c.length)), lengthOld := NumberOf(Previous(c.length)))) else Rejected
  {
  }

  /** The client passes over the attributes of log entries. */
  lemma LogSeen(seen: Draft -> Filled, c: Change, d: Draft)
    requires Reader(seen) && PlanLog(c, d).Draft?
    ensures seen(PlanLog(c, d)) == seen(d)
  {
  }

  lemma PlanSeen(seen: Draft -> Filled, c: Change)
    requires Publishable(c) && Plan(c).Draft?
    requires Reader(seen) && seen(Draft([])) == Filled(UNFILLED)
    ensures seen(Plan(c)) == Received(c)
  {
    var d := PlanHead(c);
    HeadSeen(seen, c);
    TextSeen(seen, c, d);
    d := PlanText(c, d);
    FlagsSeen(seen, c, d);
    d := PlanFlags(c, d);
    LogSeen(seen, c, d);
  }

  /** The round trip.  A clean, publishable change becomes a well-formed element from which the client
      gets back the summary, title, user, type, flags and time unchanged, every number that fits in 32 bits and
      0 for any other, and an exception exactly when one of the three flags is no truth value or the
      timestamp is no number of seconds that a DateTime can hold. */
  lemma RoundTrip(c: Change)
    requires Publishable(c) && CleanChange(c)
    ensures Plan(c).Draft?
    ensures React(WriteEdit(Plan(c).attrs)) == OnRecord(Received(c))
  {
    AttributesReadBackIff(c);
    SeenReads();
    PlanSeen(Seen, c);
  }

  /** A change that es2r publishes and no client can take: its flags are in order and its timestamp is null. */
  function NoTime(): Change {
    var t, b := Some(Text("x")), Some(Bool(false));
    Change(t, t, Absent, Absent, None, None, None, t, Some(Int(0)), t, b, t, None, None, None, None, Some(Null))
  }

  lemma NoTimeRejected()
    ensures var c := NoTime();
      Publishable(c) && CleanChange(c) && FlagsGood(c) && Plan(c).Draft? && React(WriteEdit(Plan(c).attrs)) == Ends
  {
    var c := NoTime();
    assert Plain("x") && AllLegal("x");
    ScalarPlain(Bool(false));
    ScalarPlain(Int(0));
    ScalarPlain(Null);
    assert Text("x") != Text("log");
    RoundTrip(c);
  }

  // ---------------------------------------------------------------- one line

  predicate OneLineIfThere(v: Option<Scalar>) {
    v.Some? ==> OneLine(Str(v.value))
  }

  predicate OneLinePart(p: Part) {
    p.Object? ==> OneLineIfThere(p.current) && OneLineIfThere(p.previous)
  }

  /** The values that format_xml writes as they stand have no line breaks. */
  predicate UnbrokenChange(c: Change) {
    && OneLineIfThere(c.wiki) && OneLineIfThere(c.serverName) && OneLinePart(c.revision) && OneLineIfThere(c.ns)
    && OneLineIfThere(c.bot) && OneLineIfThere(c.patrolled) && OneLineIfThere(c.minor) && OneLinePart(c.length)
    && (c.kind == Some(Text("log")) ==> OneLineIfThere(c.logId)) && OneLineIfThere(c.timestamp)
  }

  predicate Unbroken(d: Draft) {
    d.Draft? ==> AllRawOneLine(d.attrs)
  }

  lemma PushOneLine(attrs: seq<Attr>, a: Attr)
    ensures AllRawOneLine(attrs + [a]) <==> AllRawOneLine(attrs) && RawOneLine(a)
  {
    var all := attrs + [a];
    assert all[|attrs|] == a;
    assert forall i | 0 <= i < |attrs| :: all[i] == attrs[i];
  }

  /** What the proof below uses of Unbroken: only what is written as it stands can break it. */
  ghost predicate Breaks(whole: Draft -> bool) {
    && (forall d, n, v {:trigger Raw(d, n, v)} :: Raw(d, n, v).Draft? ==> (whole(Raw(d, n, v)) <==> whole(d) && OneLineIfThere(v)))
    && (forall d, n, v {:trigger Free(d, n, v)} :: Free(d, n, v).Draft? ==> (whole(Free(d, n, v)) <==> whole(d)))
  }

  lemma UnbrokenGrows()
    ensures Breaks(Unbroken)
  {
    forall d, n, v | Raw(d, n, v).Draft? ensures Unbroken(Raw(d, n, v)) <==> Unbroken(d) && OneLineIfThere(v) {
      PushOneLine(d.attrs, Attr(n, false, Str(v.value)));
    }
    forall d, n, v | Free(d, n, v).Draft? ensures Unbroken(Free(d, n, v)) <==> Unbroken(d) {
      PushOneLine(d.attrs, Attr(n, true, v.value.s));
    }
  }

  lemma PlanUnbroken(whole: Draft -> bool, c: Change)
    requires Breaks(whole) && Plan(c).Draft? && whole(Draft([]))
    requires OneLineIfThere(Some(Bool(false))) && OneLineIfThere(Some(Int(0)))
    ensures whole(Plan(c)) <==> UnbrokenChange(c)
  {
  }

  /** A published change is one line of the stream exactly when no value of it that is written as it stands
      has a line break; comments, titles and names never break it. */
  lemma OneLineIff(c: Change)
    requires Publishable(c)
    ensures Plan(c).Draft?
    ensures OneLine(WriteEdit(Plan(c).attrs)) <==> UnbrokenChange(c)
  {
    PublishedIff(c);
    EditOneLineIff(Plan(c).attrs);
    UnbrokenGrows();
    StrTame(Bool(false));
    StrTame(Int(0));
    PlanUnbroken(Unbroken, c);
  }
}
