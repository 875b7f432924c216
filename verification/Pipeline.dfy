/** The whole way of a change: es2r formats it and pushes its frame, the daemon pops frames, splits them and
    fans them out, a sender writes to a subscriber, and the C# client reads the stream line by line and takes
    each element apart.  src/es2r/es2r.py, src/xmlrcsd/streamitem.cpp, src/xmlrcsd/client.cpp,
    clients/c#/XmlRcs/XmlRcs/Provider.cs. */
module Pipeline {
  import opened Base
  import opened ChangeFormat
  import C = Converter
  import Commands
  import D = Daemon
  import opened EditElement
  import opened EditReader
  import opened EditRoundTrip
  import Notices
  import Q = RedisQueue
  import Registry
  import S = DaemonSessions
  import V = DaemonDelivery
  import X = XmlDocument

  /** SendLineNow: a line end is added unless the line has one. */
  function WithEnd(line: string): string {
    if line != "" && line[|line| - 1] == '\n' then line else line + "\r\n"
  }

  /** What the sender thread writes for a series of lines. */
  function Stream(lines: seq<string>): string {
    if lines == [] then "" else WithEnd(lines[0]) + Stream(lines[1..])
  }

  /** StreamReader.ReadLine until the end: a line ends at a line feed, a carriage return, or both. */
  function ReadLines(partial: string, s: string): seq<string>
    decreases |s|
  {
    if s == "" then []
    else if s[0] == '\n' then [partial] + ReadLines("", s[1..])
    else if s[0] == '\r' then [partial] + ReadLines("", if |s| > 1 && s[1] == '\n' then s[2..] else s[1..])
    else ReadLines(partial + [s[0]], s[1..])
  }

  lemma {:induction false} ReadWritten(partial: string, line: string, more: string)
    requires OneLine(line)
    ensures ReadLines(partial, line + "\r\n" + more) == [partial + line] + ReadLines("", more)
    decreases |line|
  {
    var s := line + "\r\n" + more;
    if line == "" {
      assert s[2..] == more && partial + line == partial;
    } else {
      assert line == [line[0]] + line[1..];
      assert s[1..] == line[1..] + "\r\n" + more;
      assert partial + [line[0]] + line[1..] == partial + line;
      ReadWritten(partial + [line[0]], line[1..], more);
    }
  }

  lemma {:induction false} ReadEnded(partial: string, line: string, more: string)
    requires OneLine(line)
    ensures ReadLines(partial, line + "\n" + more) == [partial + line] + ReadLines("", more)
    decreases |line|
  {
    var s := line + "\n" + more;
    if line == "" {
      assert s[1..] == more && partial + line == partial;
    } else {
      assert line == [line[0]] + line[1..];
      assert s[1..] == line[1..] + "\n" + more;
      assert partial + [line[0]] + line[1..] == partial + line;
      ReadEnded(partial + [line[0]], line[1..], more);
    }
  }

  /** A line, which may have its own line feed at the end. */
  function Bare(line: string): string {
    if line != "" && line[|line| - 1] == '\n' then line[..|line| - 1] else line
  }

  function Bares(lines: seq<string>): (r: seq<string>)
    ensures |r| == |lines|
  {
    if lines == [] then [] else [Bare(lines[0])] + Bares(lines[1..])
  }

  /** The client reads exactly the lines the daemon has written, one for each, whether they came with a line feed
      of their own or not. */
  lemma {:induction false} LinesArrive(lines: seq<string>)
    requires forall l | l in lines :: OneLine(Bare(l))
    ensures ReadLines("", Stream(lines)) == Bares(lines)
  {
    if lines != [] {
      var l, more := lines[0], Stream(lines[1..]);
      assert l in lines && forall m | m in lines[1..] :: m in lines;
      LinesArrive(lines[1..]);
      if l != "" && l[|l| - 1] == '\n' {
        assert WithEnd(l) == Bare(l) + "\n";
        ReadEnded("", Bare(l), more);
      } else {
        assert WithEnd(l) == l + "\r\n";
        ReadWritten("", l, more);
      }
      assert "" + Bare(l) == Bare(l);
    }
  }

  lemma {:induction false} BareAlready(lines: seq<string>)
    requires forall l | l in lines :: OneLine(l)
    ensures Bares(lines) == lines
    ensures forall l | l in lines :: OneLine(Bare(l))
  {
    if lines != [] {
      assert lines[0] in lines && forall m | m in lines[1..] :: m in lines;
      BareAlready(lines[1..]);
      assert lines == [lines[0]] + lines[1..];
    }
  }

  // ---------------------------------------------------------------- one change

  /** A change that is published, clean, and without line breaks in its unescaped values; its server name,
      which goes before the bar, has no bar. */
  predicate Deliverable(c: Change) {
    C.Framed(c) && CleanChange(c) && UnbrokenChange(c) && '|' !in c.serverName.value.s
  }

  /** The element the daemon takes out of the frame. */
  function XmlOf(c: Change): string
    requires C.Framed(c)
  {
    var parts := Registry.Split(C.Frame(c));
    if parts.Some? then parts.value.1 else ""
  }

  /** The line is a well-formed element from which the client gets what the change says. */
  predicate Conveys(line: string, c: Change) {
    c.wiki.Some? && c.serverName.Some? && React(line) == OnRecord(Received(c))
  }

  lemma OneDelivered(c: Change)
    requires Deliverable(c)
    ensures Registry.Split(C.Frame(c)) == Some((c.serverName.value.s, XmlOf(c)))
    ensures OneLine(XmlOf(c)) && Conveys(XmlOf(c), c)
  {
    RoundTrip(c);
    Registry.SplitFrame(c.serverName.value.s, Outcome(Plan(c)).text);
    OneLineIff(c);
  }

  // ---------------------------------------------------------------- a run

  function TextOf(l: D.Line): string {
    match l
    case Edit(xml) => xml
    case Notice(text) => text
  }

  function TextsOf(lines: seq<D.Line>): (r: seq<string>)
    ensures |r| == |lines| && forall i | 0 <= i < |r| :: r[i] == TextOf(lines[i])
  {
    if lines == [] then [] else [TextOf(lines[0])] + TextsOf(lines[1..])
  }

  /** The items are what the frames of the changes give, in the order in which Redis gave them back. */
  ghost predicate Feeds(cs: seq<Change>, q: Q.Queue, items: seq<D.Item>) {
    && |items| <= |q.popped|
    && forall k | 0 <= k < |items| :: FeedsAt(cs, q.popped[k], items[k])
  }

  predicate FeedsAt(cs: seq<Change>, at: nat, item: D.Item) {
    at < |cs| && C.Framed(cs[at]) && Registry.Split(C.Frame(cs[at])) == Some((item.site, item.xml))
  }

  predicate AllDeliverable(cs: seq<Change>) {
    forall i | 0 <= i < |cs| :: Deliverable(cs[i])
  }

  /** The change behind an item that was fanned out. */
  ghost predicate Carries(cs: seq<Change>, at: nat, item: D.Item) {
    at < |cs| && Deliverable(cs[at]) && item == D.Item(cs[at].serverName.value.s, XmlOf(cs[at]))
  }

  lemma FannedCarries(cs: seq<Change>, q: Q.Queue, schedule: seq<D.Pick>, k: nat)
    requires AllDeliverable(cs) && Feeds(cs, q, S.Accepted(schedule)) && k < |D.Run(schedule).fanned|
    ensures k < |q.popped| && Carries(cs, q.popped[k], D.Run(schedule).fanned[k])
  {
    S.FannedIsTaken(schedule);
    var items := S.Accepted(schedule);
    assert items[k] == D.Run(schedule).fanned[k];
    assert FeedsAt(cs, q.popped[k], items[k]);
    OneDelivered(cs[q.popped[k]]);
  }

  /** An edit among the lines is one of the edits. */
  lemma {:induction false} EditListed(lines: seq<D.Line>, i: nat)
    requires i < |lines| && lines[i].Edit?
    ensures lines[i].xml in V.Edits(lines)
  {
    var before := lines[..|lines| - 1];
    if i < |before| {
      assert before[i] == lines[i];
      EditListed(before, i);
    }
  }

  predicate IsWarning(text: string) {
    text == Registry.Warning(false) || text == Registry.Warning(true)
  }

  /** The client's command thread reads lines as ReadLine yields them, and the pump has its two warnings. */
  predicate Proper(schedule: seq<D.Pick>, id: nat) {
    S.Reads(schedule, id, OneLine) && S.Warnings(schedule, IsWarning)
  }

  lemma WarningOneLine(auto_kill: bool)
    ensures OneLine(Registry.Warning(auto_kill))
  {
    Notices.EmptyText();
    Notices.RestartingText();
    if auto_kill {
      assert OneLine("<warning>") && OneLine("</warning>");
    } else {
      assert OneLine("<fatal>") && OneLine("</fatal>");
    }
  }

  lemma ProperTidy(schedule: seq<D.Pick>, id: nat)
    requires Proper(schedule, id)
    ensures S.TidyRun(schedule, id)
  {
    WarningOneLine(false);
    WarningOneLine(true);
    forall i | 0 <= i < |schedule| && schedule[i].t.Pump? ensures S.WarningIs(schedule[i].e, OneLine) {
      assert S.WarningIs(schedule[i].e, IsWarning);
    }
  }

  lemma WrittenOneLine(cs: seq<Change>, q: Q.Queue, schedule: seq<D.Pick>, id: nat, i: nat)
    requires AllDeliverable(cs) && Feeds(cs, q, S.Accepted(schedule)) && Proper(schedule, id)
    requires id in D.Run(schedule).objs && i < |D.Run(schedule).objs[id].mem.written|
    ensures OneLine(TextOf(D.Run(schedule).objs[id].mem.written[i]))
  {
    var s := D.Run(schedule);
    var m := s.objs[id].mem;
    if m.written[i].Edit? {
      EditListed(m.written, i);
      var k: nat :| k < |V.Edits(m.written)| && V.Edits(m.written)[k] == m.written[i].xml;
      V.WrittenEdit(schedule, id, k);
      var at := V.MatchedBy(s, id)[k];
      FannedCarries(cs, q, schedule, at);
      OneDelivered(cs[q.popped[at]]);
    } else {
      V.DeliveryExact(schedule, id);
      ProperTidy(schedule, id);
      S.RunTidy(schedule, id);
      assert m.enqueued[i] == m.written[i];
    }
  }

  /** The i-th edit written to the client is a change that was pushed, fanned out under its server name, and
      met by the client at the i-th position of its own in the fan-out order; and it conveys the change. */
  ghost predicate Arrives(cs: seq<Change>, q: Q.Queue, s: D.State, id: nat, i: nat) {
    var at, edits := V.MatchedBy(s, id), V.Edits(D.Obj(s, id).mem.written);
    i < |edits| ==>
      && i < |at| && at[i] < |s.fanned| && at[i] < |q.popped| && edits[i] == s.fanned[at[i]].xml
      && Carries(cs, q.popped[at[i]], s.fanned[at[i]]) && Conveys(edits[i], cs[q.popped[at[i]]])
  }

  lemma OneArrives(cs: seq<Change>, q: Q.Queue, schedule: seq<D.Pick>, id: nat, i: nat)
    requires AllDeliverable(cs) && Feeds(cs, q, S.Accepted(schedule)) && id in D.Run(schedule).objs
    ensures Arrives(cs, q, D.Run(schedule), id, i)
  {
    if i < |V.Edits(D.Run(schedule).objs[id].mem.written)| {
      V.WrittenEdit(schedule, id, i);
      var k := V.MatchedBy(D.Run(schedule), id)[i];
      FannedCarries(cs, q, schedule, k);
      OneDelivered(cs[q.popped[k]]);
    }
  }

  lemma AllWrittenArrive(cs: seq<Change>, q: Q.Queue, schedule: seq<D.Pick>, id: nat)
    requires AllDeliverable(cs) && Feeds(cs, q, S.Accepted(schedule)) && Proper(schedule, id) && id in D.Run(schedule).objs
    ensures var texts := TextsOf(D.Run(schedule).objs[id].mem.written); ReadLines("", Stream(texts)) == texts
  {
    var written := D.Run(schedule).objs[id].mem.written;
    forall i | 0 <= i < |written| ensures OneLine(TextsOf(written)[i]) {
      WrittenOneLine(cs, q, schedule, id, i);
    }
    BareAlready(TextsOf(written));
    LinesArrive(TextsOf(written));
  }

  /** From es2r to the client, over any run of the Redis list and any schedule of the daemon whose pump takes
      what the list gives back.  Every client reads exactly the lines written to it.  The edits among
      them are changes that were pushed and fanned out, at increasing positions of the order in which Redis
      gave them back; and each conveys its change. */
  lemma EndToEnd(cs: seq<Change>, ops: seq<Q.Op>, schedule: seq<D.Pick>, id: nat)
    requires AllDeliverable(cs) && Proper(schedule, id) && id in D.Run(schedule).objs
    requires Q.DoAll(ops, Q.EMPTY).next == |cs| && Feeds(cs, Q.DoAll(ops, Q.EMPTY), S.Accepted(schedule))
    ensures var texts := TextsOf(D.Run(schedule).objs[id].mem.written); ReadLines("", Stream(texts)) == texts
    ensures Increasing(V.MatchedBy(D.Run(schedule), id))
    ensures forall i: nat :: Arrives(cs, Q.DoAll(ops, Q.EMPTY), D.Run(schedule), id, i)
  {
    var q := Q.DoAll(ops, Q.EMPTY);
    AllWrittenArrive(cs, q, schedule, id);
    V.MatchedInOrder(schedule, id);
    forall i: nat ensures Arrives(cs, q, D.Run(schedule), id, i) {
      OneArrives(cs, q, schedule, id, i);
    }
  }

  // ---------------------------------------------------------------- what the application hears

  function Reactions(texts: seq<string>): (rs: seq<Reaction>)
    ensures |rs| == |texts|
  {
    seq(|texts|, i requires 0 <= i < |texts| => React(texts[i]))
  }

  predicate AllFilled(outs: seq<Filled>) {
    forall i | 0 <= i < |outs| :: outs[i].Filled?
  }

  function Records(outs: seq<Filled>): (rs: seq<RecentChange>)
    requires AllFilled(outs)
    ensures |rs| == |outs|
  {
    seq(|outs|, i requires 0 <= i < |outs| => outs[i].rc)
  }

  /** The number of edits before the line. */
  function Nth(lines: seq<D.Line>, i: nat): nat
    requires i <= |lines|
  {
    |V.Edits(lines[..i])|
  }

  /** Each edit reads as the record, or the rejection, that is due, and no notice reads as a change. */
  predicate Carry(lines: seq<D.Line>, rs: seq<Reaction>, outs: seq<Filled>) {
    && |rs| == |lines| && |outs| == |V.Edits(lines)|
    && (forall i | 0 <= i < |lines| :: lines[i].Edit? ==> Nth(lines, i) < |outs| && rs[i] == OnRecord(outs[Nth(lines, i)]))
    && (forall i | 0 <= i < |lines| :: lines[i].Notice? ==> !rs[i].Changed?)
  }

  lemma CarryPrefix(lines: seq<D.Line>, rs: seq<Reaction>, outs: seq<Filled>, k: nat)
    requires Carry(lines, rs, outs) && k <= |lines|
    ensures Nth(lines, k) <= |outs| && Carry(lines[..k], rs[..k], outs[..Nth(lines, k)])
  {
    EditsGrow(lines, k, |lines|);
    assert lines[..|lines|] == lines;
    forall i | 0 <= i < k ensures lines[..k][..i] == lines[..i] && (lines[i].Edit? ==> Nth(lines, i) < Nth(lines, k)) {
      EditsGrow(lines, i + 1, k);
      assert lines[..i + 1][..i] == lines[..i];
    }
  }

  lemma {:induction false} EditsGrow(lines: seq<D.Line>, i: nat, k: nat)
    requires i <= k <= |lines|
    ensures Nth(lines, i) <= Nth(lines, k)
  {
    if i < k {
      EditsGrow(lines, i, k - 1);
      assert lines[..k][..k - 1] == lines[..k - 1];
    }
  }

  /** Lines none of which raises are heard as the records of the changes behind the edits among them. */
  lemma {:induction false} AllHeard(lines: seq<D.Line>, rs: seq<Reaction>, outs: seq<Filled>)
    requires Carry(lines, rs, outs) && forall i | 0 <= i < |rs| :: !rs[i].Ends?
    ensures AllFilled(outs) && HeardOf(rs) == Hearing(Records(outs), false)
  {
    if lines != [] {
      var n := |lines| - 1;
      var k := Nth(lines, n);
      CarryPrefix(lines, rs, outs, n);
      AllHeard(lines[..n], rs[..n], outs[..k]);
      if lines[n].Edit? {
        assert outs == outs[..k] + [outs[k]];
        assert Records(outs) == Records(outs[..k]) + [outs[k].rc];
      } else {
        assert outs == outs[..k];
      }
    }
  }

  /** In general they are, up to the first line that raises; from there on nothing is heard. */
  lemma HeardUpToEnd(lines: seq<D.Line>, rs: seq<Reaction>, outs: seq<Filled>)
    requires Carry(lines, rs, outs)
    ensures var n := Nth(lines, Clear(rs));
      && n <= |outs| && AllFilled(outs[..n])
      && HeardOf(rs) == Hearing(Records(outs[..n]), Clear(rs) < |rs|)
  {
    var k := Clear(rs);
    CarryPrefix(lines, rs, outs, k);
    AllHeard(lines[..k], rs[..k], outs[..Nth(lines, k)]);
    if k < |rs| {
      DeafAfter(rs, k);
    } else {
      assert rs[..k] == rs;
    }
  }

  // ---------------------------------------------------------------- why a notice ends a connection

  /** The client's command thread has read this line. */
  predicate ReadBy(schedule: seq<D.Pick>, id: nat, line: string) {
    exists i | 0 <= i < |schedule| :: S.ReadsAt(schedule, i, id) && schedule[i].e.text == line
  }

  /** The text is the reply that repeats a line which may not stand in an XML element. */
  predicate Repeats(line: string, subs: Commands.Subs, text: string) {
    && S.ReplyTo(line, subs) == Some(text)
    && Notices.Echoes(Commands.Parse(line), subs) && !X.Content(line)
  }

  ghost predicate Unreadable(schedule: seq<D.Pick>, id: nat, text: string) {
    exists line, subs :: ReadBy(schedule, id, line) && Repeats(line, subs, text)
  }

  ghost predicate Explained(schedule: seq<D.Pick>, id: nat, text: string) {
    !React(text).Changed? && (React(text).Ends? ==> Unreadable(schedule, id, text))
  }

  lemma ReplyExplained(schedule: seq<D.Pick>, id: nat, line: string, subs: Commands.Subs)
    requires ReadBy(schedule, id, line) && S.ReplyTo(line, subs).Some?
    ensures Explained(schedule, id, S.ReplyTo(line, subs).value)
  {
    Notices.StatReads(D.STAT);
    Notices.ReplyEndsIff(Commands.Parse(line), line, D.STAT, subs);
    if React(S.ReplyTo(line, subs).value).Ends? {
      assert Repeats(line, subs, S.ReplyTo(line, subs).value);
    }
  }

  ghost function Expected(schedule: seq<D.Pick>, id: nat): string -> bool {
    text => Explained(schedule, id, text)
  }

  function LinesOf(schedule: seq<D.Pick>, id: nat): string -> bool {
    line => ReadBy(schedule, id, line)
  }

  lemma QuietExplained(schedule: seq<D.Pick>, id: nat, text: string)
    requires text == "<ping></ping>" || IsWarning(text)
    ensures Explained(schedule, id, text)
  {
    if IsWarning(text) {
      Notices.WarningReads(false);
      Notices.WarningReads(true);
    } else {
      Notices.PingReads(text);
    }
  }

  lemma WarningsExplained(schedule: seq<D.Pick>, id: nat)
    requires Proper(schedule, id)
    ensures S.Warnings(schedule, Expected(schedule, id))
  {
    forall i | 0 <= i < |schedule| && schedule[i].t.Pump? ensures S.WarningIs(schedule[i].e, Expected(schedule, id)) {
      assert S.WarningIs(schedule[i].e, IsWarning);
      if schedule[i].e.job.Some? && schedule[i].e.job.value.Warn? {
        QuietExplained(schedule, id, schedule[i].e.job.value.text);
      }
    }
  }

  lemma RepliesExplained(schedule: seq<D.Pick>, id: nat)
    ensures S.Earns(LinesOf(schedule, id), Expected(schedule, id))
  {
    QuietExplained(schedule, id, "<ping></ping>");
    forall line, subs | LinesOf(schedule, id)(line) ensures S.ReplyIs(line, subs, Expected(schedule, id)) {
      if S.ReplyTo(line, subs).Some? {
        ReplyExplained(schedule, id, line, subs);
      }
    }
  }

  /** Every notice ever enqueued for the client is read without an exception, or repeats an unreadable line. */
  lemma NoticesExplained(schedule: seq<D.Pick>, id: nat)
    requires Proper(schedule, id)
    ensures S.NoticesAre(D.Obj(D.Run(schedule), id).mem.enqueued, Expected(schedule, id))
  {
    WarningsExplained(schedule, id);
    RepliesExplained(schedule, id);
    S.RunNotices(schedule, id, LinesOf(schedule, id), Expected(schedule, id));
  }

  // ---------------------------------------------------------------- from end to end

  /** What the client makes of each change. */
  function Outs(sent: seq<Change>): (outs: seq<Filled>)
    requires AllNamed(sent)
    ensures |outs| == |sent|
  {
    seq(|sent|, i requires 0 <= i < |sent| => Received(sent[i]))
  }

  predicate AllNamed(cs: seq<Change>) {
    forall i | 0 <= i < |cs| :: cs[i].wiki.Some? && cs[i].serverName.Some?
  }

  /** The change behind each edit written to a client. */
  ghost predicate Behind(cs: seq<Change>, q: Q.Queue, s: D.State, id: nat, sent: seq<Change>) {
    var at := V.MatchedBy(s, id);
    && |sent| == |V.Edits(D.Obj(s, id).mem.written)| <= |at|
    && forall i | 0 <= i < |sent| :: at[i] < |q.popped| && q.popped[at[i]] < |cs| && sent[i] == cs[q.popped[at[i]]]
  }

  lemma {:induction false} EditNth(lines: seq<D.Line>, i: nat)
    requires i < |lines| && lines[i].Edit?
    ensures Nth(lines, i) < |V.Edits(lines)| && V.Edits(lines)[Nth(lines, i)] == lines[i].xml
  {
    var before := lines[..|lines| - 1];
    if i < |before| {
      assert before[i] == lines[i] && before[..i] == lines[..i];
      EditNth(before, i);
    }
  }

  ghost predicate ConveyAll(lines: seq<D.Line>, sent: seq<Change>) {
    |sent| == |V.Edits(lines)| && forall i | 0 <= i < |sent| :: Conveys(V.Edits(lines)[i], sent[i])
  }

  lemma CarryAll(schedule: seq<D.Pick>, id: nat, lines: seq<D.Line>, sent: seq<Change>)
    requires ConveyAll(lines, sent) && AllNamed(sent) && S.NoticesAre(lines, Expected(schedule, id))
    ensures Carry(lines, Reactions(TextsOf(lines)), Outs(sent))
  {
    forall i | 0 <= i < |lines| && lines[i].Edit?
      ensures Nth(lines, i) < |sent| && React(TextOf(lines[i])) == OnRecord(Received(sent[Nth(lines, i)]))
    {
      EditNth(lines, i);
      assert Conveys(V.Edits(lines)[Nth(lines, i)], sent[Nth(lines, i)]);
    }
    forall i | 0 <= i < |lines| && lines[i].Notice? ensures !React(TextOf(lines[i])).Changed? {
      assert Explained(schedule, id, lines[i].text);
    }
  }

  lemma WrittenConveys(cs: seq<Change>, q: Q.Queue, schedule: seq<D.Pick>, id: nat, sent: seq<Change>)
    requires AllDeliverable(cs) && Feeds(cs, q, S.Accepted(schedule)) && id in D.Run(schedule).objs
    requires Behind(cs, q, D.Run(schedule), id, sent)
    ensures AllNamed(sent) && ConveyAll(D.Run(schedule).objs[id].mem.written, sent)
  {
    forall i | 0 <= i < |sent| ensures Conveys(V.Edits(D.Run(schedule).objs[id].mem.written)[i], sent[i]) {
      OneArrives(cs, q, schedule, id, i);
    }
  }

  lemma WrittenExplained(schedule: seq<D.Pick>, id: nat)
    requires Proper(schedule, id) && id in D.Run(schedule).objs
    ensures S.NoticesAre(D.Run(schedule).objs[id].mem.written, Expected(schedule, id))
  {
    NoticesExplained(schedule, id);
    V.DeliveryExact(schedule, id);
    var m := D.Run(schedule).objs[id].mem;
    forall i | 0 <= i < |m.written| ensures m.written[i] == m.enqueued[i] {
    }
  }

  /** What the application hears of these lines: the records of the changes behind the edits among them, in
      that order, up to the first line that raises.  That line, if there is one, is an edit whose flags
      or timestamp the client rejects, or the reply that repeats a command which may not stand in an element. */
  ghost predicate HeardOfThem(schedule: seq<D.Pick>, id: nat, lines: seq<D.Line>, rs: seq<Reaction>, outs: seq<Filled>) {
    var k := Clear(rs);
    && |rs| == |lines|
    && var n := Nth(lines, k);
    && n <= |outs| && AllFilled(outs[..n]) && HeardOf(rs) == Hearing(Records(outs[..n]), k < |rs|)
    && (k < |rs| ==>
          (lines[k].Edit? && n < |outs| && outs[n].Rejected?)
          || (lines[k].Notice? && Unreadable(schedule, id, lines[k].text)))
  }

  lemma HeardOfLines(schedule: seq<D.Pick>, id: nat, lines: seq<D.Line>, sent: seq<Change>)
    requires ConveyAll(lines, sent) && AllNamed(sent) && S.NoticesAre(lines, Expected(schedule, id))
    ensures HeardOfThem(schedule, id, lines, Reactions(TextsOf(lines)), Outs(sent))
  {
    var rs, outs := Reactions(TextsOf(lines)), Outs(sent);
    CarryAll(schedule, id, lines, sent);
    HeardUpToEnd(lines, rs, outs);
    var k := Clear(rs);
    if k < |rs| && lines[k].Notice? {
      assert Explained(schedule, id, lines[k].text);
    }
  }

  /** From es2r to the application, over any run of list and daemon: of the bytes written to a client the
      application hears the records of the changes behind the edits, up to the first line that raises, and
      that line is a rejected edit or an unreadable command repeated. */
  lemma HeardEndToEnd(cs: seq<Change>, ops: seq<Q.Op>, schedule: seq<D.Pick>, id: nat, sent: seq<Change>)
    requires AllDeliverable(cs) && Proper(schedule, id) && id in D.Run(schedule).objs
    requires Q.DoAll(ops, Q.EMPTY).next == |cs| && Feeds(cs, Q.DoAll(ops, Q.EMPTY), S.Accepted(schedule))
    requires Behind(cs, Q.DoAll(ops, Q.EMPTY), D.Run(schedule), id, sent)
    ensures AllNamed(sent)
    ensures var written := D.Run(schedule).objs[id].mem.written;
      HeardOfThem(schedule, id, written, Reactions(ReadLines("", Stream(TextsOf(written)))), Outs(sent))
  {
    var q := Q.DoAll(ops, Q.EMPTY);
    AllWrittenArrive(cs, q, schedule, id);
    WrittenConveys(cs, q, schedule, id, sent);
    WrittenExplained(schedule, id);
    HeardOfLines(schedule, id, D.Run(schedule).objs[id].mem.written, sent);
  }

  lemma NeverUnreadable(schedule: seq<D.Pick>, id: nat, text: string)
    requires S.Reads(schedule, id, X.Content)
    ensures !Unreadable(schedule, id, text)
  {
    forall line, subs ensures !(ReadBy(schedule, id, line) && Repeats(line, subs, text)) {
    }
  }

  lemma AllOfThem(schedule: seq<D.Pick>, id: nat, lines: seq<D.Line>, rs: seq<Reaction>, outs: seq<Filled>)
    requires HeardOfThem(schedule, id, lines, rs, outs) && |outs| == |V.Edits(lines)|
    requires S.Reads(schedule, id, X.Content) && AllFilled(outs)
    ensures HeardOf(rs) == Hearing(Records(outs), false)
  {
    forall text ensures !Unreadable(schedule, id, text) {
      NeverUnreadable(schedule, id, text);
    }
    assert lines[..|lines|] == lines && outs[..|outs|] == outs;
  }

  /** If every command line of the client may stand in an element, and no edit is rejected, all is heard. */
  lemma HeardInFull(cs: seq<Change>, ops: seq<Q.Op>, schedule: seq<D.Pick>, id: nat, sent: seq<Change>)
    requires AllDeliverable(cs) && Proper(schedule, id) && id in D.Run(schedule).objs
    requires Q.DoAll(ops, Q.EMPTY).next == |cs| && Feeds(cs, Q.DoAll(ops, Q.EMPTY), S.Accepted(schedule))
    requires Behind(cs, Q.DoAll(ops, Q.EMPTY), D.Run(schedule), id, sent)
    requires S.Reads(schedule, id, X.Content) && AllNamed(sent) && AllFilled(Outs(sent))
    ensures var written := D.Run(schedule).objs[id].mem.written;
      HeardOf(Reactions(ReadLines("", Stream(TextsOf(written))))) == Hearing(Records(Outs(sent)), false)
  {
    HeardEndToEnd(cs, ops, schedule, id, sent);
    var written := D.Run(schedule).objs[id].mem.written;
    AllOfThem(schedule, id, written, Reactions(ReadLines("", Stream(TextsOf(written)))), Outs(sent));
  }
}
