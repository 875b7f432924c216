/** What reaches each client: exactly the edits it was subscribed to when its turn in the fan-out
    came, once each and in order, and every line pushed is written in order while connected. */
module DaemonDelivery {
  import opened Base
  import opened Commands
  import opened Daemon
  import opened DaemonInvariant
  import opened DaemonSafety

  // ---------------------------------------------------------------- specification

  /** The edits among a client's lines. */
  function Edits(lines: seq<Line>): seq<string> {
    if lines == [] then []
    else
      var l := lines[|lines| - 1];
      Edits(lines[..|lines| - 1]) + (if l.Edit? then [l.xml] else [])
  }

  /** The items a client must have been sent: those fanned out since it was registered whose site
      its subscriptions matched at its own turn.  seen[k] are its subscriptions at the turn of
      item born + k. */
  function Expected(fanned: seq<Item>, born: nat, seen: seq<Subs>): seq<string> {
    if seen == [] || born + |seen| > |fanned| then []
    else
      var k := |seen| - 1;
      Expected(fanned, born, seen[..k]) + (if Matches(seen[k], fanned[born + k].site) then [fanned[born + k].xml] else [])
  }

  lemma {:induction false} EditsPush(lines: seq<Line>, l: Line)
    ensures Edits(lines + [l]) == Edits(lines) + (if l.Edit? then [l.xml] else [])
  {
    assert (lines + [l])[..|lines|] == lines;
  }

  lemma {:induction false} ExpectedStable(fanned: seq<Item>, item: Item, born: nat, seen: seq<Subs>)
    requires born + |seen| <= |fanned|
    ensures Expected(fanned + [item], born, seen) == Expected(fanned, born, seen)
  {
    if seen != [] {
      ExpectedStable(fanned, item, born, seen[..|seen| - 1]);
    }
  }

  lemma ExpectedSee(fanned: seq<Item>, born: nat, seen: seq<Subs>, now: Subs)
    requires born + |seen| < |fanned|
    ensures Expected(fanned, born, seen + [now]) ==
            Expected(fanned, born, seen) + (if Matches(now, fanned[born + |seen|].site) then [fanned[born + |seen|].xml] else [])
  {
    assert (seen + [now])[..|seen|] == seen;
  }

  // ---------------------------------------------------------------- invariant

  /** The path of a line: pushed, taken by the sender, written. */
  ghost predicate Flow(c: Client, bare: bool) {
    && (c.ctl.connected ==> c.mem.written + c.mem.held + c.mem.outgoing == c.mem.enqueued)
    && Prefix(c.mem.written, c.mem.enqueued)
    && (c.mem.held != [] ==> c.ctl.snd.SUnlock? || c.ctl.snd.SWrite?)
    && (bare ==> c.mem.enqueued == [] && c.mem.written == [] && c.mem.held == [] && c.mem.outgoing == [])
  }

  ghost predicate FlowAt(s: State, id: nat) {
    id in s.objs ==> Flow(s.objs[id], Bare(s) == id)
  }

  /** The client that has passed the test of the current edit but has not been sent it yet. */
  function Pending(s: State): nat {
    if (s.pump.pc.POutLock? || s.pump.pc.PPush?) && s.pump.job.Fan? then At(s, s.pump.i) else 0
  }

  function PendingFor(s: State, id: nat): seq<string> {
    if Pending(s) == id then [JobXml(s.pump.job)] else []
  }

  /** What is owed to a client is what it has been sent and the edit pending for it, if any. */
  ghost predicate EditsOf(fanned: seq<Item>, m: Memory, pending: seq<string>, built: bool) {
    && m.born + |m.seen| <= |fanned|
    && Edits(m.enqueued) + pending == Expected(fanned, m.born, m.seen)
    && (built ==> m.seen == [])
  }

  ghost predicate EditsAt(s: State, id: nat) {
    id in s.objs ==>
      EditsOf(s.fanned, s.objs[id].mem, PendingFor(s, id), Built(s) == id)
  }

  function JobXml(j: Job): string {
    if j.Fan? then j.item.xml else ""
  }

  /** The edit being fanned out has not yet been tested against list position p. */
  predicate Untested(p: PumpState, pos: nat) {
    && p.job.Fan?
    && (((p.pc.PScan? || p.pc.PSubLock? || p.pc.PTest?) && p.i <= pos)
        || ((p.pc.POutLock? || p.pc.PPush? || p.pc.POutUnlock? || p.pc.PSubUnlock?) && p.i < pos))
  }

  /** Registered clients have seen every item since their registration. */
  ghost predicate SeenAt(s: State, pos: nat) {
    pos < |s.clients| ==>
      var m := Obj(s, s.clients[pos]).mem;
      m.born + |m.seen| == |s.fanned| - (if Untested(s.pump, pos) then 1 else 0)
  }

  ghost predicate CurrentItem(s: State) {
    PumpHolds(s.pump.pc) && !s.pump.pc.PUnlock? && s.pump.job.Fan? ==>
      s.fanned != [] && s.fanned[|s.fanned| - 1] == s.pump.job.item
  }

  ghost predicate Deliver(s: State) {
    && Inv(s)
    && CurrentItem(s)
    && (forall id: nat :: FlowAt(s, id))
    && (forall id: nat :: EditsAt(s, id))
    && (forall pos: nat :: SeenAt(s, pos))
  }

  // ---------------------------------------------------------------- flow of lines

  lemma PushedFlow(c: Client, l: Line)
    requires Flow(c, false)
    ensures Flow(Client(c.ctl, Pushed(c.mem, l)), false)
  {
    var m := c.mem;
    assert m.written + m.held + (m.outgoing + [l]) == m.written + m.held + m.outgoing + [l];
  }

  lemma SndFlow(c: Client)
    requires Flow(c, false) && !SndStuck(c.ctl)
    ensures Flow(Client(SndCtl(c.ctl, c.mem.outgoing == []), SndMem(c.mem, c.ctl)), false)
  {
    var m := c.mem;
    if c.ctl.snd.SPeek? && m.outgoing != [] {
      assert m.written + [] + m.outgoing == m.written + [m.outgoing[0]] + m.outgoing[1..];
    } else if c.ctl.snd.SWrite? && c.ctl.connected {
      assert m.written + m.held + m.outgoing == (m.written + m.held) + [] + m.outgoing;
    } else {
    }
  }

  lemma SndFlowAt(s: State, id: nat, j: nat)
    requires id in s.objs && NextSnd(s, id).To? && FlowAt(s, j) && LifeAt(s, id)
    ensures FlowAt(NextSnd(s, id).s, j)
  {
    if j == id { SndFlow(s.objs[id]); }
  }

  lemma CmdFlowAt(s: State, id: nat, e: Env, j: nat)
    requires id in s.objs && NextCmd(s, id, e).To? && Shape(s) && FlowAt(s, j) && LifeAt(s, id)
    ensures FlowAt(NextCmd(s, id, e).s, j)
  {
    var c := s.objs[id];
    if j == id {
      if c.ctl.cmd.CReplyPush? {
        assert Bare(s) != id && CmdCtl(c.ctl, CmdBranch(c, e)) == c.ctl.(cmd := CReplyUnlock);
        PushedFlow(c, Notice(if c.mem.reply.Some? then c.mem.reply.value else ""));
      } else if c.ctl.cmd.CDtor? {
      } else {
      }
    }
  }

  lemma PumpFlowAt(s: State, e: Env, j: nat)
    requires NextPump(s, e).To? && Shape(s) && FlowAt(s, j) && LifeAt(s, j)
    ensures FlowAt(NextPump(s, e).s, j)
  {
    if s.pump.pc.PPush? && j == At(s, s.pump.i) {
      assert s.clients[s.pump.i] in s.clients;
      PushedFlow(s.objs[j], JobLine(s.pump.job));
    }
  }

  lemma KillerFlowAt(s: State, e: Env, j: nat)
    requires NextKiller(s, e).To? && Shape(s) && FlowAt(s, j) && LifeAt(s, j)
    ensures FlowAt(NextKiller(s, e).s, j)
  {
    if s.kil.pc.KPush? && j == At(s, s.kil.i) {
      assert s.clients[s.kil.i] in s.clients;
      PushedFlow(s.objs[j], Notice("<ping></ping>"));
    } else if s.kil.pc.KDtor? && j == s.kil.id {
    } else {
    }
  }

  lemma ListenerFlowAt(s: State, e: Env, j: nat)
    requires NextListener(s, e).To? && Shape(s) && FlowAt(s, j)
    ensures FlowAt(NextListener(s, e).s, j)
  {}

  // ---------------------------------------------------------------- the fan-out

  lemma ListenerEdits(s: State, e: Env, j: nat)
    requires NextListener(s, e).To? && Shape(s) && LockThreads(s) && EditsAt(s, j)
    ensures EditsAt(NextListener(s, e).s, j)
  {
    var u := NextListener(s, e).s;
    assert Pending(u) == Pending(s);
  }

  lemma ListenerSeen(s: State, e: Env, pos: nat)
    requires NextListener(s, e).To? && Shape(s) && LockThreads(s) && EditsAt(s, s.lis.id) && SeenAt(s, pos)
    ensures SeenAt(NextListener(s, e).s, pos)
  {}

  lemma PumpLockEdits(s: State, e: Env, j: nat)
    requires NextPump(s, e).To? && s.pump.pc.PLock? && EditsAt(s, j)
    ensures EditsAt(NextPump(s, e).s, j)
  {
    if j in s.objs && s.pump.job.Fan? {
      ExpectedStable(s.fanned, s.pump.job.item, s.objs[j].mem.born, s.objs[j].mem.seen);
    }
  }

  lemma PumpTestEdits(s: State, e: Env, j: nat)
    requires NextPump(s, e).To? && s.pump.pc.PTest? && Shape(s) && LifeAt(s, j) && CurrentItem(s) && EditsAt(s, j)
    requires SeenAt(s, s.pump.i)
    ensures EditsAt(NextPump(s, e).s, j)
  {
    var u, m := NextPump(s, e).s, Obj(s, j).mem;
    assert u.fanned == s.fanned && Built(u) == Built(s) && Pending(s) == 0;
    if j in s.objs && j == At(s, s.pump.i) {
      assert s.clients[s.pump.i] in s.clients;
      TurnOwes(s.fanned, m);
      assert u.objs[j].mem == m.(seen := m.seen + [m.subs]);
    }
  }

  /** A turn makes the item owed if it matches. */
  lemma TurnOwes(fanned: seq<Item>, m: Memory)
    requires EditsOf(fanned, m, [], false) && m.born + |m.seen| + 1 == |fanned|
    ensures var item := fanned[|fanned| - 1];
      EditsOf(fanned, m.(seen := m.seen + [m.subs]), if Matches(m.subs, item.site) then [item.xml] else [], false)
  {
    ExpectedSee(fanned, m.born, m.seen, m.subs);
  }

  /** A notice leaves the edits alone. */
  lemma NoticeKeeps(fanned: seq<Item>, m: Memory, text: string, pending: seq<string>, built: bool)
    requires EditsOf(fanned, m, pending, built)
    ensures EditsOf(fanned, Pushed(m, Notice(text)), pending, built)
  {
    EditsPush(m.enqueued, Notice(text));
    assert Edits(m.enqueued) + [] == Edits(m.enqueued);
  }

  /** Pushing the pending edit settles it; pushing anything else changes nothing. */
  lemma PushSettles(fanned: seq<Item>, m: Memory, l: Line, pending: seq<string>, built: bool)
    requires EditsOf(fanned, m, pending, built)
    requires pending == if l.Edit? then [l.xml] else []
    ensures EditsOf(fanned, Pushed(m, l), [], built)
  {
    EditsPush(m.enqueued, l);
    assert Edits(m.enqueued + [l]) + [] == Edits(m.enqueued) + pending;
  }

  lemma PumpPushEdits(s: State, e: Env, j: nat)
    requires NextPump(s, e).To? && s.pump.pc.PPush? && Shape(s) && EditsAt(s, j)
    ensures EditsAt(NextPump(s, e).s, j)
  {
    var u := NextPump(s, e).s;
    assert u.fanned == s.fanned && Pending(u) == 0 && Built(u) == Built(s);
    if j in s.objs && j == At(s, s.pump.i) {
      PushSettles(s.fanned, s.objs[j].mem, JobLine(s.pump.job), PendingFor(s, j), Built(s) == j);
      assert u.objs[j].mem == Pushed(s.objs[j].mem, JobLine(s.pump.job));
    }
  }

  lemma PumpQuietEdits(s: State, e: Env, j: nat)
    requires NextPump(s, e).To? && Shape(s) && EditsAt(s, j)
    requires !s.pump.pc.PLock? && !s.pump.pc.PTest? && !s.pump.pc.PPush?
    ensures EditsAt(NextPump(s, e).s, j)
  {
    var u := NextPump(s, e).s;
    assert u.fanned == s.fanned && Pending(u) == Pending(s) && Built(u) == Built(s);
    assert j in s.objs ==> u.objs[j].mem == s.objs[j].mem;
  }

  lemma PumpEdits(s: State, e: Env, j: nat)
    requires NextPump(s, e).To? && Shape(s) && LifeAt(s, j) && CurrentItem(s) && EditsAt(s, j) && SeenAt(s, s.pump.i)
    ensures EditsAt(NextPump(s, e).s, j)
  {
    if s.pump.pc.PLock? {
      PumpLockEdits(s, e, j);
    } else if s.pump.pc.PTest? {
      PumpTestEdits(s, e, j);
    } else if s.pump.pc.PPush? {
      PumpPushEdits(s, e, j);
    } else {
      PumpQuietEdits(s, e, j);
    }
  }

  lemma PumpSeen(s: State, e: Env, pos: nat)
    requires NextPump(s, e).To? && Shape(s) && SeenAt(s, pos)
    ensures SeenAt(NextPump(s, e).s, pos)
  {
  }

  lemma KillerEdits(s: State, e: Env, j: nat)
    requires NextKiller(s, e).To? && Shape(s) && LockThreads(s) && EditsAt(s, j)
    ensures EditsAt(NextKiller(s, e).s, j)
  {
    var u := NextKiller(s, e).s;
    assert Pending(u) == Pending(s) && Built(u) == Built(s);
    if j !in s.objs {
    } else if s.kil.pc.KPush? && j == At(s, s.kil.i) {
      NoticeKeeps(s.fanned, s.objs[j].mem, "<ping></ping>", PendingFor(s, j), Built(s) == j);
    } else if s.kil.pc.KDtor? && j == s.kil.id {
      assert u.objs[j].mem == DtorMem(s.kil.dtor, s.objs[j].mem);
    } else {
      assert u.objs[j].mem == s.objs[j].mem;
    }
  }

  /** Unregistering moves clients to other list positions, but never during a fan-out. */
  lemma SeenErase(s: State, u: State, id: nat, pos: nat)
    requires Shape(s) && !PumpHolds(s.pump.pc) && (forall p: nat :: SeenAt(s, p))
    requires u.clients == Erase<nat>(s.clients, id) && u.fanned == s.fanned && u.pump == s.pump
    requires forall j {:trigger Obj(u, j)} :: Obj(u, j).mem == Obj(s, j).mem
    ensures SeenAt(u, pos)
  {
    if pos < |u.clients| {
      EraseRegistry(s.clients, id, s.lastID);
      assert u.clients[pos] in s.clients;
      var p: nat :| p < |s.clients| && s.clients[p] == u.clients[pos];
      assert SeenAt(s, p);
    }
  }

  lemma KillerSeen(s: State, e: Env, pos: nat)
    requires NextKiller(s, e).To? && Shape(s) && LockThreads(s) && (forall p: nat :: SeenAt(s, p))
    ensures SeenAt(NextKiller(s, e).s, pos)
  {
    if s.kil.pc.KDtor? && s.kil.dtor.DErase? {
      SeenErase(s, NextKiller(s, e).s, s.kil.id, pos);
    } else {
      assert SeenAt(s, pos);
    }
  }

  lemma CmdReplyEdits(s: State, id: nat, e: Env)
    requires id in s.objs && NextCmd(s, id, e).To? && s.objs[id].ctl.cmd.CReplyPush? && EditsAt(s, id)
    ensures EditsAt(NextCmd(s, id, e).s, id)
  {
    var u, m := NextCmd(s, id, e).s, s.objs[id].mem;
    var text := if m.reply.Some? then m.reply.value else "";
    assert u.fanned == s.fanned && PendingFor(u, id) == PendingFor(s, id) && Built(u) == Built(s);
    NoticeKeeps(s.fanned, m, text, PendingFor(s, id), Built(s) == id);
    assert u.objs[id].mem == Pushed(m, Notice(text));
  }

  lemma CmdEdits(s: State, id: nat, e: Env, j: nat)
    requires id in s.objs && NextCmd(s, id, e).To? && Shape(s) && LockThreads(s) && LockCmd(s, id) && EditsAt(s, j)
    ensures EditsAt(NextCmd(s, id, e).s, j)
  {
    var c := s.objs[id];
    var u := NextCmd(s, id, e).s;
    assert Pending(u) == Pending(s) && Built(u) == Built(s);
    if j == id && c.ctl.cmd.CReplyPush? {
      CmdReplyEdits(s, id, e);
    } else if j == id && c.ctl.cmd.CDtor? {
    } else {
    }
  }

  lemma CmdSeen(s: State, id: nat, e: Env, pos: nat)
    requires id in s.objs && NextCmd(s, id, e).To? && Shape(s) && LockThreads(s) && LockCmd(s, id) && (forall p: nat :: SeenAt(s, p))
    ensures SeenAt(NextCmd(s, id, e).s, pos)
  {
    if s.objs[id].ctl.cmd.CDtor? && s.objs[id].ctl.dtor.DErase? {
      SeenErase(s, NextCmd(s, id, e).s, id, pos);
    } else {
      assert SeenAt(s, pos);
    }
  }

  lemma SndEdits(s: State, id: nat, j: nat)
    requires id in s.objs && NextSnd(s, id).To? && EditsAt(s, j)
    ensures EditsAt(NextSnd(s, id).s, j)
  {}

  lemma SndSeen(s: State, id: nat, pos: nat)
    requires id in s.objs && NextSnd(s, id).To? && SeenAt(s, pos)
    ensures SeenAt(NextSnd(s, id).s, pos)
  {}

  // ---------------------------------------------------------------- every run

  lemma StepLines(s: State, t: Tid, e: Env, j: nat)
    requires Deliver(s) && Next(s, t, e).To?
    ensures FlowAt(Next(s, t, e).s, j) && EditsAt(Next(s, t, e).s, j)
  {
    assert LifeAt(s, j) && FlowAt(s, j) && EditsAt(s, j);
    match t
    case Listener => ListenerFlowAt(s, e, j); ListenerEdits(s, e, j);
    case Pump => PumpFlowAt(s, e, j); assert SeenAt(s, s.pump.i); PumpEdits(s, e, j);
    case Killer => KillerFlowAt(s, e, j); KillerEdits(s, e, j);
    case Cmd(id) =>
      assert LockCmd(s, id) && LifeAt(s, id);
      CmdFlowAt(s, id, e, j); CmdEdits(s, id, e, j);
    case Snd(id) =>
      assert LifeAt(s, id);
      SndFlowAt(s, id, j); SndEdits(s, id, j);
  }

  lemma StepSeen(s: State, t: Tid, e: Env, pos: nat)
    requires Deliver(s) && Next(s, t, e).To?
    ensures SeenAt(Next(s, t, e).s, pos) && CurrentItem(Next(s, t, e).s)
  {
    assert SeenAt(s, pos);
    match t
    case Listener => assert EditsAt(s, s.lis.id); ListenerSeen(s, e, pos);
    case Pump => PumpSeen(s, e, pos);
    case Killer => KillerSeen(s, e, pos);
    case Cmd(id) => assert LockCmd(s, id); CmdSeen(s, id, e, pos);
    case Snd(id) => SndSeen(s, id, pos);
  }

  lemma StepDelivers(s: State, t: Tid, e: Env)
    requires Deliver(s) && Next(s, t, e).To?
    ensures Deliver(Next(s, t, e).s)
  {
    var u := Next(s, t, e).s;
    StepKeeps(s, t, e);
    StepSeen(s, t, e, 0);
    forall j: nat ensures FlowAt(u, j) && EditsAt(u, j) { StepLines(s, t, e, j); }
    forall pos: nat ensures SeenAt(u, pos) { StepSeen(s, t, e, pos); }
  }

  lemma StartDelivers(s: State)
    requires Inv(s) && s.objs == map[] && s.clients == [] && s.pump.pc.PIdle?
    ensures Deliver(s)
  {}

  lemma {:induction false} RunDelivers(schedule: seq<Pick>)
    ensures Deliver(Run(schedule))
  {
    if schedule == [] {
      RunInv(schedule);
      StartDelivers(Run(schedule));
    } else {
      var before := schedule[..|schedule| - 1];
      var p := schedule[|schedule| - 1];
      RunDelivers(before);
      var step := Next(Run(before), p.t, p.e);
      if step.To? {
        StepDelivers(Run(before), p.t, p.e);
        assert Run(schedule) == step.s;
      } else {
        assert Run(schedule) == Run(before);
      }
    }
  }

  /** Delivery, in every run and for every client.  What was written is a prefix of what was
      pushed; while connected, written, held by the sender and buffered make up everything pushed.
      The edits pushed are exactly the expected ones, save one that the pump is about to push; and
      a registered client has taken its turn for every item since its registration, save at most
      the current one. */
  lemma DeliveryExact(schedule: seq<Pick>, id: nat)
    requires id in Run(schedule).objs
    ensures var s := Run(schedule);
            var m := s.objs[id].mem;
            && Prefix(m.written, m.enqueued)
            && (s.objs[id].ctl.connected ==> m.written + m.held + m.outgoing == m.enqueued)
            && Edits(m.enqueued) + PendingFor(s, id) == Expected(s.fanned, m.born, m.seen)
            && (id in s.clients ==>
                  m.born + |m.seen| == |s.fanned|
                  || (m.born + |m.seen| == |s.fanned| - 1 && PumpHolds(s.pump.pc) && s.pump.job.Fan?))
  {
    var s := Run(schedule);
    RunDelivers(schedule);
    assert FlowAt(s, id) && EditsAt(s, id);
    if id in s.clients {
      var p: nat :| p < |s.clients| && s.clients[p] == id;
      assert SeenAt(s, p);
    }
  }

  /** Between fan-outs nothing is outstanding: the edits pushed to a registered client are exactly
      the items since its registration that it matched. */
  lemma DeliveryAtRest(schedule: seq<Pick>, id: nat)
    requires id in Run(schedule).clients && !PumpHolds(Run(schedule).pump.pc)
    ensures var s := Run(schedule);
            && id in s.objs
            && var m := s.objs[id].mem;
               m.born + |m.seen| == |s.fanned| && Edits(m.enqueued) == Expected(s.fanned, m.born, m.seen)
  {
    RunInv(schedule);
    assert LifeAt(Run(schedule), id);
    DeliveryExact(schedule, id);
  }

  // ---------------------------------------------------------------- any two clients

  /** The items expected by a client, as positions in the common fan-out order. */
  function Matched(fanned: seq<Item>, born: nat, seen: seq<Subs>): seq<nat> {
    if seen == [] || born + |seen| > |fanned| then []
    else
      var k := |seen| - 1;
      Matched(fanned, born, seen[..k]) + (if Matches(seen[k], fanned[born + k].site) then [born + k] else [])
  }

  function Xmls(fanned: seq<Item>, at: seq<nat>): seq<string> {
    if at == [] then []
    else
      var k := at[|at| - 1];
      Xmls(fanned, at[..|at| - 1]) + (if k < |fanned| then [fanned[k].xml] else [])
  }

  lemma XmlsPush(fanned: seq<Item>, at: seq<nat>, k: nat)
    requires k < |fanned|
    ensures Xmls(fanned, at + [k]) == Xmls(fanned, at) + [fanned[k].xml]
  {
    assert (at + [k])[..|at|] == at;
  }

  lemma {:induction false} XmlsLength(fanned: seq<Item>, at: seq<nat>)
    ensures |Xmls(fanned, at)| <= |at|
  {
    if at != [] {
      XmlsLength(fanned, at[..|at| - 1]);
    }
  }

  lemma {:induction false} XmlsAt(fanned: seq<Item>, at: seq<nat>, i: nat)
    requires Within(at, |fanned|) && i < |at|
    ensures |Xmls(fanned, at)| == |at| && Xmls(fanned, at)[i] == fanned[at[i]].xml
    decreases |at|
  {
    var n := |at| - 1;
    if n > 0 {
      XmlsAt(fanned, at[..n], if i < n then i else 0);
    }
  }

  predicate Within(at: seq<nat>, hi: nat) {
    forall i | 0 <= i < |at| :: at[i] < hi
  }

  lemma {:induction false} MatchedIncreasing(fanned: seq<Item>, born: nat, seen: seq<Subs>)
    ensures Increasing(Matched(fanned, born, seen)) && Within(Matched(fanned, born, seen), born + |seen|)
  {
    if seen != [] && born + |seen| <= |fanned| {
      var k := |seen| - 1;
      MatchedIncreasing(fanned, born, seen[..k]);
      IncreasingPush(Matched(fanned, born, seen[..k]), born + k);
    }
  }

  lemma IncreasingPush(at: seq<nat>, k: nat)
    requires Increasing(at) && Within(at, k)
    ensures Increasing(at + [k]) && Within(at + [k], k + 1)
  {}

  lemma {:induction false} MatchedXmls(fanned: seq<Item>, born: nat, seen: seq<Subs>)
    ensures Xmls(fanned, Matched(fanned, born, seen)) == Expected(fanned, born, seen)
  {
    if seen != [] && born + |seen| <= |fanned| {
      var k := |seen| - 1;
      MatchedXmls(fanned, born, seen[..k]);
      if Matches(seen[k], fanned[born + k].site) {
        XmlsPush(fanned, Matched(fanned, born, seen[..k]), born + k);
      } else {
        assert Matched(fanned, born, seen) == Matched(fanned, born, seen[..k]);
      }
    }
  }

  /** The positions, in the common order, of the items that client id has been or is being sent. */
  function MatchedBy(s: State, id: nat): seq<nat> {
    Matched(s.fanned, Obj(s, id).mem.born, Obj(s, id).mem.seen)
  }

  lemma MatchedInOrder(schedule: seq<Pick>, id: nat)
    requires id in Run(schedule).objs
    ensures Increasing(MatchedBy(Run(schedule), id))
    ensures Prefix(Edits(Run(schedule).objs[id].mem.enqueued), Xmls(Run(schedule).fanned, MatchedBy(Run(schedule), id)))
  {
    var s := Run(schedule);
    var m := s.objs[id].mem;
    DeliveryExact(schedule, id);
    MatchedIncreasing(s.fanned, m.born, m.seen);
    MatchedXmls(s.fanned, m.born, m.seen);
  }

  /** The edits of a prefix of the lines pushed are items at increasing positions of the fan-out order. */
  lemma EditAt(fanned: seq<Item>, m: Memory, pending: seq<string>, i: nat)
    requires Prefix(m.written, m.enqueued) && EditsOf(fanned, m, pending, false) && i < |Edits(m.written)|
    ensures var at := Matched(fanned, m.born, m.seen);
            Increasing(at) && i < |at| && at[i] < |fanned| && Edits(m.written)[i] == fanned[at[i]].xml
  {
    EditsPrefix(m.written, m.enqueued);
    MatchedIncreasing(fanned, m.born, m.seen);
    MatchedXmls(fanned, m.born, m.seen);
    var at := Matched(fanned, m.born, m.seen);
    assert Edits(m.written)[i] == Xmls(fanned, at)[i];
    XmlsLength(fanned, at);
    XmlsAt(fanned, at, i);
  }

  /** The i-th edit written to a client is the item at its i-th position in the fan-out order. */
  lemma WrittenEdit(schedule: seq<Pick>, id: nat, i: nat)
    requires id in Run(schedule).objs && i < |Edits(Run(schedule).objs[id].mem.written)|
    ensures var s := Run(schedule);
            var at := MatchedBy(s, id);
            Increasing(at) && i < |at| && at[i] < |s.fanned| && Edits(s.objs[id].mem.written)[i] == s.fanned[at[i]].xml
  {
    var s := Run(schedule);
    DeliveryParts(schedule, id);
    EditAt(s.fanned, s.objs[id].mem, PendingFor(s, id), i);
  }

  /** In every run, any two clients receive the items they share in the same relative order: each
      one's edits are the items at an increasing sequence of positions of one common order, so
      positions present in both occur in the same order in both. */
  lemma SameOrder(schedule: seq<Pick>, a: nat, b: nat, i: nat, j: nat, p: nat, q: nat)
    requires a in Run(schedule).objs && b in Run(schedule).objs
    requires var x, y := MatchedBy(Run(schedule), a), MatchedBy(Run(schedule), b);
             i < |x| && j < |x| && p < |y| && q < |y| && x[i] == y[p] && x[j] == y[q]
    ensures i < j <==> p < q
    ensures var s := Run(schedule);
            && Prefix(Edits(s.objs[a].mem.enqueued), Xmls(s.fanned, MatchedBy(s, a)))
            && Prefix(Edits(s.objs[b].mem.enqueued), Xmls(s.fanned, MatchedBy(s, b)))
  {
    MatchedInOrder(schedule, a);
    MatchedInOrder(schedule, b);
  }

  // ---------------------------------------------------------------- a shared span

  /** What is left of a sequence after its first n elements. */
  function Cut(s: seq<string>, n: nat): seq<string> {
    if n <= |s| then s[n..] else []
  }

  lemma ExpectedLast(fanned: seq<Item>, born: nat, seen: seq<Subs>, k: nat)
    requires |seen| == k + 1 && born + |seen| <= |fanned|
    ensures Expected(fanned, born, seen) == Expected(fanned, born, seen[..k]) + Expected(fanned, born + k, [seen[k]])
  {
    var last := [seen[k]];
    assert last[..0] == [] && Expected(fanned, born + k, []) == [];
  }

  lemma {:induction false} ExpectedJoin(fanned: seq<Item>, born: nat, a: seq<Subs>, b: seq<Subs>)
    requires born + |a| + |b| <= |fanned|
    ensures Expected(fanned, born, a + b) == Expected(fanned, born, a) + Expected(fanned, born + |a|, b)
  {
    if b == [] {
      assert a + b == a;
    } else {
      var k := |b| - 1;
      assert (a + b)[..|a| + k] == a + b[..k];
      ExpectedJoin(fanned, born, a, b[..k]);
      ExpectedLast(fanned, born, a + b, |a| + k);
      ExpectedLast(fanned, born + |a|, b, k);
    }
  }

  lemma ExpectedSplit(fanned: seq<Item>, born: nat, seen: seq<Subs>, n: nat)
    requires n <= |seen| && born + |seen| <= |fanned|
    ensures Expected(fanned, born, seen) == Expected(fanned, born, seen[..n]) + Expected(fanned, born + n, seen[n..])
  {
    assert seen[..n] + seen[n..] == seen;
    ExpectedJoin(fanned, born, seen[..n], seen[n..]);
  }

  /** The items from position lo on were matched alike at the two clients' turns. */
  ghost predicate Alike(fanned: seq<Item>, lo: nat, x: seq<Subs>, y: seq<Subs>) {
    && lo + |x| <= |fanned| && lo + |y| <= |fanned|
    && forall k | 0 <= k < |x| && k < |y| :: Matches(x[k], fanned[lo + k].site) <==> Matches(y[k], fanned[lo + k].site)
  }

  lemma {:induction false} AlikeExpected(fanned: seq<Item>, lo: nat, x: seq<Subs>, y: seq<Subs>)
    requires Alike(fanned, lo, x, y) && |x| == |y|
    ensures Expected(fanned, lo, x) == Expected(fanned, lo, y)
  {
    if x != [] {
      AlikeExpected(fanned, lo, x[..|x| - 1], y[..|x| - 1]);
    }
  }

  lemma {:induction false} EditsPrefix(a: seq<Line>, b: seq<Line>)
    requires Prefix(a, b)
    ensures Prefix(Edits(a), Edits(b))
  {
    if |a| < |b| {
      assert b[..|b| - 1][..|a|] == b[..|a|];
      EditsPrefix(a, b[..|b| - 1]);
    } else {
      assert a == b;
    }
  }

  lemma CutPrefix(w: seq<string>, pre: seq<string>, span: seq<string>)
    requires Prefix(w, pre + span)
    ensures Prefix(Cut(w, |pre|), span)
  {
    if |pre| <= |w| {
      assert (pre + span)[..|w|][|pre|..] == span[..|w| - |pre|];
    }
  }

  function Take(s: seq<string>, n: nat): seq<string> {
    if n <= |s| then s[..n] else s
  }

  lemma TakePrefix(w: seq<string>, pre: seq<string>, later: seq<string>)
    requires Prefix(w, pre + later)
    ensures Prefix(Take(w, |pre|), pre)
  {
    if |pre| <= |w| {
      assert (pre + later)[..|w|][..|pre|] == pre;
    } else {
      assert (pre + later)[..|w|] == pre[..|w|];
    }
  }

  /** How many edits a client was to be sent for items before position k. */
  function Before(fanned: seq<Item>, m: Memory, k: nat): nat {
    var n := if k < m.born then 0 else if k - m.born <= |m.seen| then k - m.born else |m.seen|;
    |Expected(fanned, m.born, m.seen[..n])|
  }

  /** The edits written to it for items from position lo up to hi. */
  function WrittenFor(fanned: seq<Item>, m: Memory, lo: nat, hi: nat): seq<string> {
    Cut(Take(Edits(m.written), Before(fanned, m, hi)), Before(fanned, m, lo))
  }

  function Written(s: State, id: nat, lo: nat, hi: nat): seq<string> {
    WrittenFor(s.fanned, Obj(s, id).mem, lo, hi)
  }

  /** The client has been registered since before item lo was fanned out and has had its turn for every
      item before hi. */
  predicate Spans(s: State, id: nat, lo: nat, hi: nat) {
    id in s.objs && s.objs[id].mem.born <= lo <= hi <= s.objs[id].mem.born + |s.objs[id].mem.seen|
  }

  /** Its subscriptions at its turns for those items. */
  function SeenIn(s: State, id: nat, lo: nat, hi: nat): seq<Subs>
    requires Spans(s, id, lo, hi)
  {
    s.objs[id].mem.seen[lo - s.objs[id].mem.born..hi - s.objs[id].mem.born]
  }

  lemma ExpectedSpan(fanned: seq<Item>, born: nat, seen: seq<Subs>, n: nat, k: nat)
    requires n <= k <= |seen| && born + |seen| <= |fanned|
    ensures Expected(fanned, born, seen) == Expected(fanned, born, seen[..k]) + Expected(fanned, born + k, seen[k..])
    ensures Expected(fanned, born, seen[..k]) == Expected(fanned, born, seen[..n]) + Expected(fanned, born + n, seen[n..k])
  {
    ExpectedSplit(fanned, born, seen, k);
    ExpectedSplit(fanned, born, seen[..k], n);
    assert seen[..k][..n] == seen[..n] && seen[..k][n..] == seen[n..k];
  }

  lemma PrefixExtends(a: seq<string>, b: seq<string>, c: seq<string>)
    requires Prefix(a, b)
    ensures Prefix(a, b + c)
  {
    assert (b + c)[..|a|] == b[..|a|];
  }

  lemma CutTake(w: seq<string>, pre: seq<string>, span: seq<string>, later: seq<string>)
    requires Prefix(w, pre + span + later)
    ensures Prefix(Cut(Take(w, |pre + span|), |pre|), span)
  {
    TakePrefix(w, pre + span, later);
    CutPrefix(Take(w, |pre + span|), pre, span);
  }

  lemma WrittenForSpan(fanned: seq<Item>, m: Memory, pending: seq<string>, lo: nat, hi: nat)
    requires Prefix(m.written, m.enqueued) && EditsOf(fanned, m, pending, false)
    requires m.born <= lo <= hi <= m.born + |m.seen|
    ensures Prefix(WrittenFor(fanned, m, lo, hi), Expected(fanned, lo, m.seen[lo - m.born..hi - m.born]))
  {
    var n, k := lo - m.born, hi - m.born;
    EditsPrefix(m.written, m.enqueued);
    ExpectedSpan(fanned, m.born, m.seen, n, k);
    PrefixExtends(Edits(m.written), Edits(m.enqueued), pending);
    CutTake(Edits(m.written), Expected(fanned, m.born, m.seen[..n]), Expected(fanned, lo, m.seen[n..k]),
            Expected(fanned, hi, m.seen[k..]));
  }

  lemma DeliveryParts(schedule: seq<Pick>, id: nat)
    requires id in Run(schedule).objs
    ensures var s := Run(schedule);
            Prefix(s.objs[id].mem.written, s.objs[id].mem.enqueued) && EditsOf(s.fanned, s.objs[id].mem, PendingFor(s, id), false)
  {
    RunDelivers(schedule);
    assert FlowAt(Run(schedule), id) && EditsAt(Run(schedule), id);
  }

  lemma WrittenInSpan(schedule: seq<Pick>, id: nat, lo: nat, hi: nat)
    requires Spans(Run(schedule), id, lo, hi)
    ensures var s := Run(schedule); Prefix(Written(s, id, lo, hi), Expected(s.fanned, lo, SeenIn(s, id, lo, hi)))
  {
    var s := Run(schedule);
    DeliveryParts(schedule, id);
    WrittenForSpan(s.fanned, s.objs[id].mem, PendingFor(s, id), lo, hi);
  }

  /** In every run, over any span of items for which two clients have both taken their turns, and which both
      matched alike, the edits written to one are a prefix of the edits written to the other. */
  lemma SharedSpan(schedule: seq<Pick>, a: nat, b: nat, lo: nat, hi: nat)
    requires var s := Run(schedule);
             && Spans(s, a, lo, hi) && Spans(s, b, lo, hi)
             && Alike(s.fanned, lo, SeenIn(s, a, lo, hi), SeenIn(s, b, lo, hi))
    ensures var s := Run(schedule);
            Prefix(Written(s, a, lo, hi), Written(s, b, lo, hi)) || Prefix(Written(s, b, lo, hi), Written(s, a, lo, hi))
  {
    var s := Run(schedule);
    var x, y := SeenIn(s, a, lo, hi), SeenIn(s, b, lo, hi);
    WrittenInSpan(schedule, a, lo, hi);
    WrittenInSpan(schedule, b, lo, hi);
    AlikeExpected(s.fanned, lo, x, y);
    PrefixesCompare(Written(s, a, lo, hi), Written(s, b, lo, hi), Expected(s.fanned, lo, y));
  }
}
