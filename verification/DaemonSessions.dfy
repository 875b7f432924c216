/** What the command threads keep in every run of the daemon: subscriptions in order, and replies of one
    line each if the commands are, as those that ReadLine yields. */
module DaemonSessions {
  import opened Base
  import opened Commands
  import opened Daemon

  // ---------------------------------------------------------------- subscriptions

  ghost predicate SoundAt(s: State, id: nat) {
    Sound(Obj(s, id).mem.subs)
  }

  lemma RanSound(m: Memory)
    requires Sound(m.subs)
    ensures Sound(Ran(m).subs)
  {
    CommandSound(m.todo, m.line, STAT, m.subs);
  }

  lemma StepSound(s: State, t: Tid, e: Env, j: nat)
    requires Next(s, t, e).To? && SoundAt(s, j)
    ensures SoundAt(Next(s, t, e).s, j)
  {
    match t
    case Listener =>
    case Pump =>
    case Killer =>
    case Cmd(_) => RanSound(Obj(s, j).mem);
    case Snd(_) =>
  }

  /** In every run the vector of every client holds no duplicate, never "all", only names of length 1
      to 200, and at most 801 of them. */
  lemma {:induction false} RunSound(schedule: seq<Pick>, id: nat)
    ensures Sound(Obj(Run(schedule), id).mem.subs)
  {
    if schedule != [] {
      var before, p := schedule[..|schedule| - 1], schedule[|schedule| - 1];
      RunSound(before, id);
      if Next(Run(before), p.t, p.e).To? {
        StepSound(Run(before), p.t, p.e, id);
      }
    }
  }

  // ---------------------------------------------------------------- notices

  /** The lines the client's command thread reads, and the warnings the pump is given, are all of one kind. */
  predicate Reads(schedule: seq<Pick>, id: nat, kind: string -> bool) {
    forall i | 0 <= i < |schedule| :: ReadsAt(schedule, i, id) ==> kind(schedule[i].e.text)
  }

  /** At this pick the client's command thread reads a line and goes on to run it. */
  predicate ReadsAt(schedule: seq<Pick>, i: nat, id: nat) {
    i < |schedule| && schedule[i].t == Cmd(id) && Takes(Obj(Run(schedule[..i]), id), schedule[i].e)
  }

  predicate Takes(c: Client, e: Env) {
    c.ctl.cmd.CRead? && e.ok && e.text != "exit"
  }

  predicate Warnings(schedule: seq<Pick>, kind: string -> bool) {
    forall i | 0 <= i < |schedule| :: schedule[i].t.Pump? ==> WarningIs(schedule[i].e, kind)
  }

  predicate WarningIs(e: Env, kind: string -> bool) {
    e.job.Some? && e.job.value.Warn? ==> kind(e.job.value.text)
  }

  predicate NoticesAre(lines: seq<Line>, kind: string -> bool) {
    forall i | 0 <= i < |lines| :: lines[i].Notice? ==> kind(lines[i].text)
  }

  function ReplyTo(line: string, s: Subs): Option<string> {
    ExecCommand(Parse(line), line, STAT, s).1
  }

  predicate ReplyIs(line: string, s: Subs, kind: string -> bool) {
    ReplyTo(line, s).Some? ==> kind(ReplyTo(line, s).value)
  }

  /** Commands of the first kind earn replies of the second, and so does the Killer's ping. */
  ghost predicate Earns(commands: string -> bool, kind: string -> bool) {
    kind("<ping></ping>") && forall line, s :: commands(line) ==> ReplyIs(line, s, kind)
  }

  /** The command thread has a line to run. */
  predicate Holds(c: CmdPc) {
    c.CAct? || c.CSubLock? || c.CSubWrite?
  }

  predicate SessionIs(c: Client, commands: string -> bool, kind: string -> bool) {
    && (Holds(c.ctl.cmd) ==> c.mem.todo == Parse(c.mem.line) && commands(c.mem.line))
    && (c.ctl.cmd.CReplyPush? ==> c.mem.reply.Some?)
    && (c.mem.reply.Some? ==> kind(c.mem.reply.value))
    && NoticesAre(c.mem.enqueued, kind)
  }

  predicate NoticesAt(s: State, id: nat, commands: string -> bool, kind: string -> bool) {
    SessionIs(Obj(s, id), commands, kind) && (s.pump.job.Warn? && !s.pump.pc.PIdle? ==> kind(s.pump.job.text))
  }

  lemma PushIs(lines: seq<Line>, l: Line, kind: string -> bool)
    requires NoticesAre(lines, kind) && (l.Notice? ==> kind(l.text))
    ensures NoticesAre(lines + [l], kind)
  {
  }

  lemma PumpIs(s: State, e: Env, j: nat, commands: string -> bool, kind: string -> bool)
    requires NextPump(s, e).To? && NoticesAt(s, j, commands, kind) && WarningIs(e, kind)
    ensures NoticesAt(NextPump(s, e).s, j, commands, kind)
  {
    if s.pump.pc.PPush? {
      PushIs(Obj(s, j).mem.enqueued, JobLine(s.pump.job), kind);
    }
  }

  lemma KillerIs(s: State, e: Env, j: nat, commands: string -> bool, kind: string -> bool)
    requires NextKiller(s, e).To? && NoticesAt(s, j, commands, kind) && kind("<ping></ping>")
    ensures NoticesAt(NextKiller(s, e).s, j, commands, kind)
  {
    PushIs(Obj(s, j).mem.enqueued, Notice("<ping></ping>"), kind);
  }

  lemma RanIs(m: Memory, commands: string -> bool, kind: string -> bool)
    requires m.todo == Parse(m.line) && commands(m.line) && Earns(commands, kind)
    ensures Ran(m).reply.Some? ==> kind(Ran(m).reply.value)
    ensures Ran(m).enqueued == m.enqueued && Ran(m).todo == m.todo && Ran(m).line == m.line
  {
    assert ReplyIs(m.line, m.subs, kind);
  }

  lemma CmdHolds(c: Client, branch: bool, e: Env, commands: string -> bool, kind: string -> bool)
    requires Holds(c.ctl.cmd) && SessionIs(c, commands, kind) && Earns(commands, kind)
    ensures SessionIs(Client(CmdCtl(c.ctl, branch), CmdMem(c.mem, c.ctl, branch, e)), commands, kind)
  {
    RanIs(c.mem, commands, kind);
    var r := Ran(c.mem);
    assert CmdMem(c.mem, c.ctl, branch, e) == r || CmdMem(c.mem, c.ctl, branch, e) == c.mem;
  }

  lemma CmdIs(c: Client, branch: bool, e: Env, commands: string -> bool, kind: string -> bool)
    requires SessionIs(c, commands, kind) && Earns(commands, kind) && branch == CmdBranch(c, e)
    requires Takes(c, e) ==> commands(e.text)
    ensures SessionIs(Client(CmdCtl(c.ctl, branch), CmdMem(c.mem, c.ctl, branch, e)), commands, kind)
  {
    if Holds(c.ctl.cmd) {
      CmdHolds(c, branch, e, commands, kind);
    } else if c.ctl.cmd.CReplyPush? {
      PushIs(c.mem.enqueued, Notice(c.mem.reply.value), kind);
    }
  }

  lemma StepIs(s: State, t: Tid, e: Env, j: nat, commands: string -> bool, kind: string -> bool)
    requires Next(s, t, e).To? && NoticesAt(s, j, commands, kind) && Earns(commands, kind)
    requires (t == Cmd(j) && Takes(Obj(s, j), e) ==> commands(e.text)) && (t.Pump? ==> WarningIs(e, kind))
    ensures NoticesAt(Next(s, t, e).s, j, commands, kind)
  {
    match t
    case Listener =>
    case Pump => PumpIs(s, e, j, commands, kind);
    case Killer => KillerIs(s, e, j, commands, kind);
    case Cmd(id) =>
      if id == j {
        CmdIs(Obj(s, j), CmdBranch(Obj(s, j), e), e, commands, kind);
      }
    case Snd(_) =>
  }

  lemma KindsBefore(schedule: seq<Pick>, id: nat, commands: string -> bool, kind: string -> bool)
    requires schedule != [] && Reads(schedule, id, commands) && Warnings(schedule, kind)
    ensures Reads(schedule[..|schedule| - 1], id, commands) && Warnings(schedule[..|schedule| - 1], kind)
  {
    var before := schedule[..|schedule| - 1];
    forall i | 0 <= i < |before|
      ensures before[i] == schedule[i] && (ReadsAt(before, i, id) <==> ReadsAt(schedule, i, id))
    {
      assert before[..i] == schedule[..i];
    }
  }

  /** In every run, if the lines that the client's command thread reads earn replies of one kind, and pings and
      warnings are of that kind, then so is every notice ever enqueued for the client. */
  lemma {:induction false} RunNotices(schedule: seq<Pick>, id: nat, commands: string -> bool, kind: string -> bool)
    requires Reads(schedule, id, commands) && Warnings(schedule, kind) && Earns(commands, kind)
    ensures NoticesAt(Run(schedule), id, commands, kind)
  {
    if schedule != [] {
      var before, p := schedule[..|schedule| - 1], schedule[|schedule| - 1];
      assert ReadsAt(schedule, |before|, id) <==> p.t == Cmd(id) && Takes(Obj(Run(before), id), p.e);
      KindsBefore(schedule, id, commands, kind);
      RunNotices(before, id, commands, kind);
      if Next(Run(before), p.t, p.e).To? {
        StepIs(Run(before), p.t, p.e, id, commands, kind);
      }
    }
  }

  // ---------------------------------------------------------------- notices of one line

  lemma ErrorOneLine(text: string, code: string)
    requires OneLine(text) && OneLine(code)
    ensures OneLine(MakeError(text, code))
  {
    assert OneLine("<error code=\"") && OneLine("\">") && OneLine("</error>");
  }

  lemma AlreadyExistOneLine()
    ensures OneLine(SubReply("", AlreadyExist))
  {
    ErrorOneLine("You are already subscribed to this one", "1");
  }

  lemma InvalidOneLine()
    ensures OneLine(SubReply("", Invalid))
  {
    ErrorOneLine("This is not a valid wiki name", "2");
  }

  lemma NotExistOneLine()
    ensures OneLine(SubReply("", NotExist))
  {
    ErrorOneLine("You are not subscribed to this one", "4");
  }

  lemma TooManyOneLine()
    ensures OneLine(SubReply("", TooMany))
  {
    ErrorOneLine("You subscribed to too many wikis now", "8");
  }

  lemma SubReplyOneLine(line: string, st: Status)
    requires OneLine(line)
    ensures OneLine(SubReply(line, st))
  {
    match st
    case Fine => assert OneLine("<ok>") && OneLine("</ok>");
    case AlreadyExist => AlreadyExistOneLine();
    case Invalid => InvalidOneLine();
    case NotExist => NotExistOneLine();
    case TooMany => TooManyOneLine();
  }

  lemma ReplyOneLine(c: Command, line: string, s: Subs)
    requires OneLine(line)
    ensures var r := ExecCommand(c, line, STAT, s).1; r.Some? ==> OneLine(r.value)
  {
    match c
    case Sub(wiki) => SubReplyOneLine(line, Subscribe(s, wiki).1);
    case Unsub(wiki) => SubReplyOneLine(line, Unsubscribe(s, wiki).1);
    case Unknown =>
      assert OneLine("Unknown: ");
      ErrorOneLine("Unknown: " + line, "0");
    case Version => assert OneLine("<versioninfo>1.1.0</versioninfo>");
    case Clear => assert OneLine("<ok></ok>");
    case Ping => assert OneLine("<pong></pong>");
    case Stat => assert OneLine("<stat></stat>");
    case Exit =>
    case Pong =>
  }

  /** Every line the client's command thread reads is one line, and so is every warning. */
  predicate TidyRun(schedule: seq<Pick>, id: nat) {
    Reads(schedule, id, OneLine) && Warnings(schedule, OneLine)
  }

  /** Then every notice is one line. */
  lemma RunTidy(schedule: seq<Pick>, id: nat)
    requires TidyRun(schedule, id)
    ensures NoticesAre(Obj(Run(schedule), id).mem.enqueued, OneLine)
  {
    assert OneLine("<ping></ping>");
    forall line, s | OneLine(line) ensures ReplyIs(line, s, OneLine) {
      ReplyOneLine(Parse(line), line, s);
    }
    RunNotices(schedule, id, OneLine, OneLine);
  }

  // ---------------------------------------------------------------- what the pump has taken

  /** The items the pump has taken from the list, in order. */
  function Accepted(schedule: seq<Pick>): seq<Item> {
    if schedule == [] then []
    else
      var before, p := schedule[..|schedule| - 1], schedule[|schedule| - 1];
      Accepted(before) +
        (if p.t.Pump? && Run(before).pump.pc.PIdle? && p.e.job.Some? && p.e.job.value.Fan? then [p.e.job.value.item] else [])
  }

  /** The fan-outs begun are the items taken, in the same order, but for one the pump may still hold. */
  lemma {:induction false} FannedIsTaken(schedule: seq<Pick>)
    ensures var s := Run(schedule);
      Accepted(schedule) == s.fanned + (if s.pump.pc.PLock? && s.pump.job.Fan? then [s.pump.job.item] else [])
  {
    if schedule != [] {
      FannedIsTaken(schedule[..|schedule| - 1]);
    }
  }
}
