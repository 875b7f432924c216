/** Whom the Killer kills in every run of the daemon, told by the lines clients have sent.
    src/xmlrcsd/main.cpp, src/xmlrcsd/client.cpp. */
module DaemonKiller {
  import opened Commands
  import opened Daemon
  import opened DaemonCommands
  import opened DaemonInvariant
  import opened DaemonSafety
  import opened DaemonSessions

  /** The listener has accepted the connection that becomes this client. */
  predicate Accepts(s: State, p: Pick, id: nat) {
    p.t.Listener? && s.lis.pc.LAccept? && p.e.ok && s.lastID == id
  }

  /** When a line that is not empty was last read from the client, or else when it was accepted. */
  function LastHeard(schedule: seq<Pick>, id: nat): int {
    if schedule == [] then 0
    else
      var k := |schedule| - 1;
      if Accepts(Run(schedule[..k]), schedule[k], id) || (ReadsAt(schedule, k, id) && schedule[k].e.text != "") then
        schedule[k].e.now
      else LastHeard(schedule[..k], id)
  }

  /** When the Killer last woke up. */
  function SweepTime(schedule: seq<Pick>): int {
    if schedule == [] then 0
    else
      var k := |schedule| - 1;
      if schedule[k].t.Killer? && Run(schedule[..k]).kil.pc.KSleep? then schedule[k].e.now else SweepTime(schedule[..k])
  }

  lemma HeardPush(schedule: seq<Pick>, p: Pick, id: nat)
    ensures LastHeard(schedule + [p], id) ==
      if Accepts(Run(schedule), p, id) || (p.t == Cmd(id) && Takes(Obj(Run(schedule), id), p.e) && p.e.text != "") then p.e.now
      else LastHeard(schedule, id)
    ensures SweepTime(schedule + [p]) ==
      if p.t.Killer? && Run(schedule).kil.pc.KSleep? then p.e.now else SweepTime(schedule)
  {
    var all := schedule + [p];
    assert all[..|schedule|] == schedule && all[|schedule|] == p;
    assert ReadsAt(all, |schedule|, id) <==> p.t == Cmd(id) && Takes(Obj(Run(schedule), id), p.e);
  }

  lemma StepHeard(s: State, t: Tid, e: Env, j: nat)
    requires Next(s, t, e).To? && s.lastID !in s.objs
    ensures Obj(Next(s, t, e).s, j).mem.lastPing ==
      if Accepts(s, Pick(t, e), j) || (t == Cmd(j) && Takes(Obj(s, j), e) && e.text != "") then e.now
      else Obj(s, j).mem.lastPing
  {
    match t
    case Listener =>
    case Pump =>
    case Killer =>
    case Cmd(_) => ParseExit(e.text);
    case Snd(_) =>
  }

  lemma StepSweep(s: State, t: Tid, e: Env)
    requires Next(s, t, e).To?
    ensures Next(s, t, e).s.kil.check == if t.Killer? && s.kil.pc.KSleep? then e.now else s.kil.check
  {
    match t
    case Listener =>
    case Pump =>
    case Killer =>
    case Cmd(_) =>
    case Snd(_) =>
  }

  /** In every run the fields that the Killer compares are these two times. */
  lemma {:induction false} TimesExact(schedule: seq<Pick>, id: nat)
    ensures Obj(Run(schedule), id).mem.lastPing == LastHeard(schedule, id)
    ensures Run(schedule).kil.check == SweepTime(schedule)
  {
    if schedule != [] {
      var k := |schedule| - 1;
      var before, p := schedule[..k], schedule[k];
      assert schedule == before + [p];
      TimesExact(before, id);
      RunInv(before);
      assert Run(before).lastID !in Run(before).objs;
      LastPick(before, p, id);
      HeardPush(before, p, id);
      if Next(Run(before), p.t, p.e).To? {
        StepHeard(Run(before), p.t, p.e, id);
        StepSweep(Run(before), p.t, p.e);
      }
    }
  }

  /** The client at the Killer's list position. */
  function Target(s: State): nat {
    At(s, s.kil.i)
  }

  /** At a client of its list the Killer turns to killing it exactly if nothing was heard from it for more than 80
      seconds before this sweep, and to pinging it otherwise. */
  lemma KillerDecides(schedule: seq<Pick>, e: Env)
    requires Run(schedule).kil.pc.KScan? && Run(schedule).kil.i < |Run(schedule).clients|
    ensures var pc := Run(schedule + [Pick(Killer, e)]).kil.pc;
      if LastHeard(schedule, Target(Run(schedule))) + 80 < SweepTime(schedule) then pc.KKill? else pc.KOutLock?
  {
    var s := Run(schedule);
    LastPick(schedule, Pick(Killer, e), Target(s));
    TimesExact(schedule, Target(s));
  }

  /** Before this the Killer has decided on this client. */
  ghost predicate Decided(schedule: seq<Pick>, id: nat) {
    exists k {:trigger schedule[..k]} | 0 <= k < |schedule| ::
      && schedule[k].t.Killer? && Run(schedule[..k]).kil.pc.KScan? && Target(Run(schedule[..k])) == id
      && LastHeard(schedule[..k], id) + 80 < SweepTime(schedule[..k])
  }

  lemma DecidedStays(schedule: seq<Pick>, p: Pick, id: nat)
    requires Decided(schedule, id)
    ensures Decided(schedule + [p], id)
  {
    var k :| 0 <= k < |schedule| && schedule[k].t.Killer? && Run(schedule[..k]).kil.pc.KScan?
      && Target(Run(schedule[..k])) == id && LastHeard(schedule[..k], id) + 80 < SweepTime(schedule[..k]);
    assert (schedule + [p])[..k] == schedule[..k] && (schedule + [p])[k] == schedule[k];
  }

  lemma DecidedNow(schedule: seq<Pick>, p: Pick, id: nat)
    requires p.t.Killer? && Run(schedule).kil.pc.KScan? && Target(Run(schedule)) == id
    requires LastHeard(schedule, id) + 80 < SweepTime(schedule)
    ensures Decided(schedule + [p], id)
  {
    assert (schedule + [p])[..|schedule|] == schedule && (schedule + [p])[|schedule|] == p;
  }

  /** Nobody else moves the Killer or, while it holds the lock, its target. */
  lemma TargetStays(s: State, t: Tid, e: Env)
    requires Inv(s) && Next(s, t, e).To? && !t.Killer?
    ensures var u := Next(s, t, e).s; u.kil == s.kil && (s.kil.pc.KKill? ==> Target(u) == Target(s))
  {
    match t
    case Listener =>
    case Pump =>
    case Cmd(id) => assert LockCmd(s, id);
    case Snd(_) =>
  }

  lemma AimsStep(s: State, e: Env)
    requires NextKiller(s, e).To? && NextKiller(s, e).s.kil.pc.KKill?
    ensures s.kil.pc.KScan? && Target(NextKiller(s, e).s) == Target(s) && Obj(s, Target(s)).mem.lastPing + 80 < s.kil.check
  {}

  lemma {:induction false} RunAims(schedule: seq<Pick>)
    ensures Run(schedule).kil.pc.KKill? ==> Decided(schedule, Target(Run(schedule)))
  {
    if schedule != [] {
      var k := |schedule| - 1;
      var before, p := schedule[..k], schedule[k];
      var s := Run(before);
      assert schedule == before + [p];
      RunAims(before);
      RunInv(before);
      LastPick(before, p, 0);
      if Run(schedule).kil.pc.KKill? {
        if Next(s, p.t, p.e).Blocked? || !p.t.Killer? {
          if Next(s, p.t, p.e).To? {
            TargetStays(s, p.t, p.e);
          }
          DecidedStays(before, p, Target(s));
        } else {
          AimsStep(s, p.e);
          TimesExact(before, Target(s));
          DecidedNow(before, p, Target(s));
        }
      }
    }
  }

  lemma WhoKills(s: State, t: Tid, e: Env, id: nat)
    requires Next(s, t, e).To? && id in s.objs && !s.objs[id].ctl.killed && s.lastID !in s.objs
    requires id in Next(s, t, e).s.objs && Next(s, t, e).s.objs[id].ctl.killed
    ensures (t.Killer? && s.kil.pc.KKill? && Target(s) == id) || (t == Cmd(id) && s.objs[id].ctl.cmd.CExit?)
  {
    match t
    case Listener =>
    case Pump =>
    case Killer =>
    case Cmd(_) =>
    case Snd(_) =>
  }

  /** In every run a client is killed by its own command thread at the end of its session, or by the Killer after it
      has found it silent for more than 80 seconds; in no other way. */
  lemma KilledOnlyWhenSilent(schedule: seq<Pick>, p: Pick, id: nat)
    requires id in Run(schedule).objs && !Run(schedule).objs[id].ctl.killed
    requires id in Run(schedule + [p]).objs && Run(schedule + [p]).objs[id].ctl.killed
    ensures (p.t.Killer? && Decided(schedule, id)) || (p.t == Cmd(id) && Run(schedule).objs[id].ctl.cmd.CExit?)
  {
    LastPick(schedule, p, id);
    RunInv(schedule);
    WhoKills(Run(schedule), p.t, p.e, id);
    RunAims(schedule);
  }
}
