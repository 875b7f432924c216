/** What the command threads do in every run of the daemon, told by the lines they have read: the
    subscriptions, the replies, and the time a client was last heard.  src/xmlrcsd/client.cpp. */
module DaemonCommands {
  import opened Base
  import opened Commands
  import opened Daemon
  import opened DaemonInvariant
  import opened DaemonSafety
  import opened DaemonSessions

  // ---------------------------------------------------------------- what was read and answered

  /** The lines other than exit that the client's command thread has read, in order. */
  function LinesRead(schedule: seq<Pick>, id: nat): seq<string> {
    if schedule == [] then []
    else
      var k := |schedule| - 1;
      LinesRead(schedule[..k], id) + (if ReadsAt(schedule, k, id) then [schedule[k].e.text] else [])
  }

  /** The lines that came after the others. */
  function Appended(before: seq<Line>, after: seq<Line>): seq<Line> {
    if |before| <= |after| then after[|before|..] else []
  }

  /** What the command thread, and no other, has enqueued for its client, in order. */
  function Replied(schedule: seq<Pick>, id: nat): seq<Line> {
    if schedule == [] then []
    else
      var k := |schedule| - 1;
      Replied(schedule[..k], id) +
        (if schedule[k].t == Cmd(id) then
           Appended(Obj(Run(schedule[..k]), id).mem.enqueued, Obj(Run(schedule), id).mem.enqueued)
         else [])
  }

  /** The lines that have been run: all but one still in hand. */
  function RunLines(c: Client, lines: seq<string>): seq<string> {
    if Holds(c.ctl.cmd) && lines != [] then lines[..|lines| - 1] else lines
  }

  function Noticed(texts: seq<string>): (r: seq<Line>)
    ensures |r| == |texts|
  {
    seq(|texts|, i requires 0 <= i < |texts| => Notice(texts[i]))
  }

  /** A reply earned but not yet enqueued. */
  function Unsent(c: Client): seq<Line> {
    if (c.ctl.cmd.CSubUnlock? || c.ctl.cmd.CReplyLock? || c.ctl.cmd.CReplyPush?) && c.mem.reply.Some? then
      [Notice(c.mem.reply.value)]
    else []
  }

  ghost predicate Follows(c: Client, lines: seq<string>, replied: seq<Line>) {
    && "exit" !in lines
    && (Holds(c.ctl.cmd) ==> lines != [] && c.mem.line == lines[|lines| - 1] && c.mem.todo == Parse(c.mem.line))
    && (c.ctl.cmd.CReplyPush? ==> c.mem.reply.Some?)
    && (c.ctl.cmd.CNone? ==> lines == [] && replied == [])
    && c.mem.subs == ExecAll(RunLines(c, lines), NO_SUBS)
    && replied + Unsent(c) == Noticed(Answers(RunLines(c, lines), STAT, NO_SUBS))
  }

  // ---------------------------------------------------------------- one step of the command thread

  lemma ParseExit(line: string)
    ensures Parse(line) == Exit <==> line == "exit"
  {
  }

  function CmdStep(c: Client, e: Env): Client {
    Client(CmdCtl(c.ctl, CmdBranch(c, e)), CmdMem(c.mem, c.ctl, CmdBranch(c, e), e))
  }

  lemma CmdReads(c: Client, e: Env, lines: seq<string>, replied: seq<Line>)
    requires Follows(c, lines, replied) && Takes(c, e)
    ensures var d := CmdStep(c, e); d.mem.enqueued == c.mem.enqueued && Follows(d, lines + [e.text], replied)
  {
    ParseExit(e.text);
    assert (lines + [e.text])[..|lines|] == lines;
    assert Unsent(c) == [] && Unsent(CmdStep(c, e)) == [];
  }

  /** The command thread is about to run the line in hand. */
  predicate Running(c: Client) {
    (c.ctl.cmd.CAct? && !TakesSubsLock(c.mem.todo, c.mem.subs)) || c.ctl.cmd.CSubWrite?
  }

  lemma RanIsExec(m: Memory)
    requires m.todo == Parse(m.line)
    ensures Ran(m) == m.(subs := Exec(m.line, STAT, m.subs).0, reply := Exec(m.line, STAT, m.subs).1)
  {
  }

  lemma NoticedPush(texts: seq<string>, reply: Option<string>)
    ensures Noticed(texts + (if reply.Some? then [reply.value] else [])) ==
      Noticed(texts) + (if reply.Some? then [Notice(reply.value)] else [])
  {
  }

  lemma RanNext(m: Memory, lines: seq<string>, line: string)
    requires m.line == line && m.todo == Parse(line) && "exit" !in lines && line != "exit"
    requires m.subs == ExecAll(lines, NO_SUBS)
    ensures Ran(m).subs == ExecAll(lines + [line], NO_SUBS)
    ensures Noticed(Answers(lines + [line], STAT, NO_SUBS)) ==
      Noticed(Answers(lines, STAT, NO_SUBS)) + (if Ran(m).reply.Some? then [Notice(Ran(m).reply.value)] else [])
  {
    RanIsExec(m);
    ExecAllPush(lines, line, STAT, NO_SUBS);
    AnswersPush(lines, line, STAT, NO_SUBS);
    NoticedPush(Answers(lines, STAT, NO_SUBS), Exec(line, STAT, m.subs).1);
  }

  lemma CmdRuns(c: Client, e: Env, lines: seq<string>, replied: seq<Line>)
    requires Follows(c, lines, replied) && Running(c)
    ensures var d := CmdStep(c, e); d.mem.enqueued == c.mem.enqueued && Follows(d, lines, replied)
  {
    var k := |lines| - 1;
    assert lines == lines[..k] + [lines[k]];
    RanNext(c.mem, lines[..k], lines[k]);
    var d := CmdStep(c, e);
    assert d.mem == Ran(c.mem) && (d.ctl.cmd.CReplyLock? || d.ctl.cmd.CSubUnlock?);
    assert Unsent(c) == [] && replied + [] == replied;
  }

  lemma CmdReplies(c: Client, e: Env, lines: seq<string>, replied: seq<Line>)
    requires Follows(c, lines, replied) && c.ctl.cmd.CReplyPush?
    ensures var d := CmdStep(c, e); Follows(d, lines, replied + Appended(c.mem.enqueued, d.mem.enqueued))
  {
    var d := CmdStep(c, e);
    assert Appended(c.mem.enqueued, d.mem.enqueued) == Unsent(c) && Unsent(d) == [];
    assert replied + Unsent(c) + [] == replied + Unsent(c);
  }

  /** What every other statement leaves alone. */
  lemma CmdCalmMemory(c: Client, e: Env)
    requires !Takes(c, e) && !Running(c) && !c.ctl.cmd.CReplyPush?
    ensures CmdStep(c, e).mem == c.mem.(outgoing := CmdStep(c, e).mem.outgoing)
  {
    ParseExit(e.text);
  }

  lemma CmdCalmControl(c: Client, e: Env)
    requires !Takes(c, e) && !Running(c) && !c.ctl.cmd.CReplyPush?
    ensures var d := CmdStep(c, e).ctl.cmd;
      && (Holds(d) <==> Holds(c.ctl.cmd))
      && (d.CReplyPush? ==> c.ctl.cmd.CReplyLock? && c.mem.reply.Some?)
      && (d.CNone? ==> c.ctl.cmd.CNone?)
  {
    ParseExit(e.text);
  }

  lemma CmdCalmReply(c: Client, e: Env)
    requires !Takes(c, e) && !Running(c) && !c.ctl.cmd.CReplyPush?
    ensures var d := CmdStep(c, e).ctl.cmd;
      && (d.CReplyPush? || d.CReplyLock? || d.CSubUnlock? ==> c.ctl.cmd.CReplyLock? || c.ctl.cmd.CSubUnlock?)
      && (c.ctl.cmd.CSubUnlock? ==> d.CReplyLock?)
      && (c.ctl.cmd.CReplyLock? && c.mem.reply.Some? ==> d.CReplyPush?)
  {
    ParseExit(e.text);
  }

  /** Every other statement leaves lines and replies alone. */
  lemma CmdPasses(c: Client, e: Env, lines: seq<string>, replied: seq<Line>)
    requires Follows(c, lines, replied) && !Takes(c, e) && !Running(c) && !c.ctl.cmd.CReplyPush?
    ensures var d := CmdStep(c, e); d.mem.enqueued == c.mem.enqueued && Follows(d, lines, replied)
  {
    CmdCalmMemory(c, e);
    CmdCalmControl(c, e);
    CmdCalmReply(c, e);
    var d := CmdStep(c, e);
    assert Unsent(d) == Unsent(c) && RunLines(d, lines) == RunLines(c, lines);
  }

  lemma CmdFollows(c: Client, e: Env, lines: seq<string>, replied: seq<Line>)
    requires Follows(c, lines, replied)
    ensures var d := CmdStep(c, e);
      Follows(d, lines + (if Takes(c, e) then [e.text] else []), replied + Appended(c.mem.enqueued, d.mem.enqueued))
  {
    assert lines + [] == lines && replied + [] == replied;
    if Takes(c, e) {
      CmdReads(c, e, lines, replied);
    } else if Running(c) {
      CmdRuns(c, e, lines, replied);
    } else if c.ctl.cmd.CReplyPush? {
      CmdReplies(c, e, lines, replied);
    } else {
      CmdPasses(c, e, lines, replied);
    }
  }

  // ---------------------------------------------------------------- every run

  /** What a step of another thread leaves alone. */
  predicate Leaves(c: Client, d: Client) {
    && d.mem.subs == c.mem.subs && d.mem.line == c.mem.line && d.mem.todo == c.mem.todo && d.mem.reply == c.mem.reply
    && (d.ctl.cmd == c.ctl.cmd || (c.ctl.cmd.CNone? && d.ctl.cmd.CLoop?))
  }

  lemma ListenerLeaves(s: State, e: Env, j: nat)
    requires NextListener(s, e).To? && s.lastID !in s.objs && LifeAt(s, s.lis.id)
    ensures Leaves(Obj(s, j), Obj(NextListener(s, e).s, j))
  {}

  lemma OthersLeave(s: State, t: Tid, e: Env, j: nat)
    requires Next(s, t, e).To? && t != Cmd(j) && s.lastID !in s.objs && LifeAt(s, s.lis.id)
    ensures Leaves(Obj(s, j), Obj(Next(s, t, e).s, j))
  {
    match t
    case Listener => ListenerLeaves(s, e, j);
    case Pump =>
    case Killer =>
    case Cmd(_) =>
    case Snd(_) =>
  }

  lemma OthersFollow(c: Client, d: Client, lines: seq<string>, replied: seq<Line>)
    requires Follows(c, lines, replied)
    requires Leaves(c, d)
    ensures Follows(d, lines, replied)
  {
    assert Unsent(d) == Unsent(c) && RunLines(d, lines) == RunLines(c, lines);
  }

  lemma StepFollows(s: State, t: Tid, e: Env, j: nat, lines: seq<string>, replied: seq<Line>)
    requires Next(s, t, e).To? && s.lastID !in s.objs && LifeAt(s, s.lis.id) && Follows(Obj(s, j), lines, replied)
    ensures var c, d := Obj(s, j), Obj(Next(s, t, e).s, j);
      Follows(d, lines + (if t == Cmd(j) && Takes(c, e) then [e.text] else []),
              replied + (if t == Cmd(j) then Appended(c.mem.enqueued, d.mem.enqueued) else []))
  {
    assert lines + [] == lines && replied + [] == replied;
    if t == Cmd(j) {
      CmdFollows(Obj(s, j), e, lines, replied);
      assert Obj(Next(s, t, e).s, j) == CmdStep(Obj(s, j), e);
    } else {
      OthersLeave(s, t, e, j);
      OthersFollow(Obj(s, j), Obj(Next(s, t, e).s, j), lines, replied);
    }
  }

  /** A command thread that takes a line is not blocked, and one that is blocked enqueues nothing. */
  lemma BlockedSilent(s: State, p: Pick, j: nat)
    requires Next(s, p.t, p.e).Blocked?
    ensures !(p.t == Cmd(j) && Takes(Obj(s, j), p.e)) && Appended(Obj(s, j).mem.enqueued, Obj(s, j).mem.enqueued) == []
  {
  }

  lemma LastPick(schedule: seq<Pick>, p: Pick, id: nat)
    ensures Run(schedule + [p]) == match Next(Run(schedule), p.t, p.e) case Blocked => Run(schedule) case To(u) => u
    ensures LinesRead(schedule + [p], id) ==
      LinesRead(schedule, id) + (if p.t == Cmd(id) && Takes(Obj(Run(schedule), id), p.e) then [p.e.text] else [])
    ensures Replied(schedule + [p], id) == Replied(schedule, id) +
      (if p.t == Cmd(id) then
         Appended(Obj(Run(schedule), id).mem.enqueued, Obj(Run(schedule + [p]), id).mem.enqueued) else [])
  {
    var all := schedule + [p];
    assert all[..|schedule|] == schedule && all[|schedule|] == p;
    assert ReadsAt(all, |schedule|, id) <==> p.t == Cmd(id) && Takes(Obj(Run(schedule), id), p.e);
  }

  lemma Unchanged(lines: seq<string>, replied: seq<Line>)
    ensures lines + [] == lines && replied + [] == replied
  {
  }

  lemma PickFollows(schedule: seq<Pick>, p: Pick, id: nat)
    requires Follows(Obj(Run(schedule), id), LinesRead(schedule, id), Replied(schedule, id))
    ensures Follows(Obj(Run(schedule + [p]), id), LinesRead(schedule + [p], id), Replied(schedule + [p], id))
  {
    var s := Run(schedule);
    LastPick(schedule, p, id);
    RunInv(schedule);
    assert LifeAt(s, s.lis.id) && s.lastID !in s.objs;
    if Next(s, p.t, p.e).To? {
      StepFollows(s, p.t, p.e, id, LinesRead(schedule, id), Replied(schedule, id));
    } else {
      BlockedSilent(s, p, id);
      Unchanged(LinesRead(schedule, id), Replied(schedule, id));
    }
  }

  lemma {:induction false} RunFollows(schedule: seq<Pick>, id: nat)
    ensures Follows(Obj(Run(schedule), id), LinesRead(schedule, id), Replied(schedule, id))
  {
    if schedule == [] {
      assert Answers([], STAT, NO_SUBS) == [];
    } else {
      var k := |schedule| - 1;
      RunFollows(schedule[..k], id);
      PickFollows(schedule[..k], schedule[k], id);
      assert schedule == schedule[..k] + [schedule[k]];
    }
  }

  /** In every run a client's subscriptions are what the lines read for it make of none, as a flag and a set; a
      line still in hand has no effect yet. */
  lemma CommandsTakeEffect(schedule: seq<Pick>, id: nat)
    ensures var c := Obj(Run(schedule), id);
            var lines := RunLines(c, LinesRead(schedule, id));
            c.mem.subs == ExecAll(lines, NO_SUBS) && Abs(c.mem.subs) == AbsExecAll(lines, Abstract(false, {}))
  {
    RunFollows(schedule, id);
    var lines := RunLines(Obj(Run(schedule), id), LinesRead(schedule, id));
    RunsRefine(lines, NO_SUBS);
    assert Abs(NO_SUBS) == Abstract(false, {});
  }

  /** In every run what the command thread has enqueued are the answers to those lines, in order, but for one it
      may still be about to enqueue. */
  lemma CommandsAreAnswered(schedule: seq<Pick>, id: nat)
    ensures var c := Obj(Run(schedule), id);
            Replied(schedule, id) + Unsent(c) == Noticed(Answers(RunLines(c, LinesRead(schedule, id)), STAT, NO_SUBS))
  {
    RunFollows(schedule, id);
  }

  // ---------------------------------------------------------------- who enqueues what

  /** What the statement at hand enqueues for the client. */
  function Enqueues(s: State, t: Tid, id: nat): seq<Line> {
    match t
    case Pump =>
      if s.pump.pc.PPush? && At(s, s.pump.i) == id then
        [if s.pump.job.Fan? then Edit(s.pump.job.item.xml) else Notice(s.pump.job.text)]
      else []
    case Killer => if s.kil.pc.KPush? && At(s, s.kil.i) == id then [Notice("<ping></ping>")] else []
    case Cmd(j) => if j == id && Obj(s, id).ctl.cmd.CReplyPush? then Unsent(Obj(s, id)) else []
    case _ => []
  }

  lemma StepEnqueues(s: State, t: Tid, e: Env, id: nat)
    requires Next(s, t, e).To? && s.lastID !in s.objs
    requires Obj(s, id).ctl.cmd.CReplyPush? ==> Obj(s, id).mem.reply.Some?
    ensures Obj(Next(s, t, e).s, id).mem.enqueued == Obj(s, id).mem.enqueued + Enqueues(s, t, id)
  {
    var lines := Obj(s, id).mem.enqueued;
    assert lines + [] == lines;
    match t
    case Listener =>
    case Pump =>
    case Killer =>
    case Cmd(_) =>
    case Snd(_) =>
  }

  /** In every run each statement adds to a client's lines exactly this: the edit or warning the pump holds, a ping,
      or the reply to the client's own command; nothing is ever taken from what was enqueued. */
  lemma WhoEnqueues(schedule: seq<Pick>, p: Pick, id: nat)
    requires Next(Run(schedule), p.t, p.e).To?
    ensures Obj(Run(schedule + [p]), id).mem.enqueued == Obj(Run(schedule), id).mem.enqueued + Enqueues(Run(schedule), p.t, id)
  {
    LastPick(schedule, p, id);
    RunInv(schedule);
    RunFollows(schedule, id);
    assert Run(schedule).lastID !in Run(schedule).objs;
    StepEnqueues(Run(schedule), p.t, p.e, id);
  }
}
