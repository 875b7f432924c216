/** The inductive invariant of the daemon, one conjunct per concern, and its preservation. */
module DaemonInvariant {
  import opened Base
  import opened Daemon

  // ---------------------------------------------------------------- who is where

  /** The listener's client, from allocation to Launch; 0 is never an ID. */
  function Served(s: State): nat {
    if s.lis.pc.LAccept? then 0 else s.lis.id
  }

  /** The listener's client while it is not yet pushed onto clients. */
  function Built(s: State): nat {
    if s.lis.pc.LAccept? || s.lis.pc.LRegUnlock? || s.lis.pc.LLaunch? then 0 else s.lis.id
  }

  /** The listener's client while its sender does not exist yet. */
  function Bare(s: State): nat {
    if s.lis.pc.LCtorLock? || s.lis.pc.LCount? || s.lis.pc.LCtorUnlock? || s.lis.pc.LSpawn? then s.lis.id else 0
  }

  predicate LisHolds(l: LisPc) {
    l.LCount? || l.LCtorUnlock? || l.LPush? || l.LRegUnlock?
  }

  predicate PumpHolds(p: PumpPc) {
    !p.PIdle? && !p.PLock?
  }

  predicate KilHolds(k: KillerState) {
    k.pc.KScan? || KilAt(k.pc) || k.pc.KBounce? || k.pc.KRelease? || k.pc.KUnlock? || (k.pc.KDtor? && DtorHolds(k.dtor))
  }

  predicate CmdHolds(ctl: Control) {
    ctl.cmd.CDtor? && DtorHolds(ctl.dtor)
  }

  predicate DtorHolds(d: DtorPc) {
    d.DErase? || d.DUnlock?
  }

  /** The client whose subscriptions_lock, or OutgoingBuffer_lock, the pump or the Killer holds. */
  function PumpSub(s: State): nat {
    if PumpAt(s.pump.pc) && s.pump.job.Fan? && !s.pump.pc.PSubLock? then At(s, s.pump.i) else 0
  }

  function PumpOut(s: State): nat {
    if s.pump.pc.PPush? || s.pump.pc.POutUnlock? then At(s, s.pump.i) else 0
  }

  function KilOut(s: State): nat {
    if s.kil.pc.KPush? || s.kil.pc.KOutUnlock? then At(s, s.kil.i) else 0
  }

  /** The client the Killer has set killed and is destroying, and how far it has come. */
  function Doomed(s: State): nat {
    if s.kil.pc.KRelease? || s.kil.pc.KDtor? then s.kil.id else 0
  }

  function DoomStage(s: State): DtorPc {
    if s.kil.pc.KDtor? then s.kil.dtor else DClose
  }

  // ---------------------------------------------------------------- the conjuncts

  /** clients is strictly increasing by ID, hence without repeats. */
  ghost predicate Registry(clients: seq<nat>, lastID: nat) {
    && Increasing(clients)
    && (forall i {:trigger clients[i]} | 0 <= i < |clients| :: FIRST_ID <= clients[i] < lastID)
  }

  ghost predicate Shape(s: State) {
    && FIRST_ID <= s.lastID
    && (forall id {:trigger id in s.objs} :: id in s.objs <==> FIRST_ID <= id < s.lastID)
    && Registry(s.clients, s.lastID)
    && (!s.lis.pc.LAccept? ==> s.lis.id == s.lastID - 1 && FIRST_ID < s.lastID)
    && Built(s) !in s.clients
    && (s.pump.pc.PScan? ==> s.pump.i <= |s.clients|)
    && (PumpAt(s.pump.pc) ==> s.pump.i < |s.clients|)
    && (s.pump.pc.PTest? || s.pump.pc.PSubLock? || s.pump.pc.PSubUnlock? ==> s.pump.job.Fan?)
    && (s.kil.pc.KScan? ==> s.kil.i <= |s.clients|)
    && (KilAt(s.kil.pc) ==> s.kil.i < |s.clients|)
    && (s.kil.pc.KRelease? || s.kil.pc.KDtor? ==> FIRST_ID <= s.kil.id < s.lastID)
  }

  /** clients_lock is owned by exactly the thread whose counter says so. */
  ghost predicate LockThreads(s: State) {
    && (s.lock == Held(Listener) <==> LisHolds(s.lis.pc))
    && (s.lock == Held(Pump) <==> PumpHolds(s.pump.pc))
    && (s.lock == Held(Killer) <==> KilHolds(s.kil))
    && !(s.lock.Held? && s.lock.owner.Snd?)
  }

  ghost predicate LockCmd(s: State, id: nat) {
    s.lock == Held(Cmd(id)) <==> id in s.objs && CmdHolds(s.objs[id].ctl)
  }

  /** The same for one client's two locks. */
  ghost predicate ClientLocks(c: Control, pumpSub: bool, pumpOut: bool, kilOut: bool) {
    && Owns(c.subsLock, pumpSub, false, InSubs(c.cmd), false)
    && Owns(c.outLock, pumpOut, kilOut, InOut(c.cmd), Sending(c.snd))
  }

  // The critical sections of a client's own threads.
  predicate InSubs(c: CmdPc) { c.CSubWrite? || c.CSubUnlock? }
  predicate InOut(c: CmdPc) { c.CReplyPush? || c.CReplyUnlock? }
  predicate Sending(c: SndPc) { c.SPeek? || c.SUnlockEmpty? || c.SUnlock? }

  /** The owner recorded in a lock is the one thread inside its critical section, if any is. */
  ghost predicate Owns(h: Holder, pump: bool, killer: bool, cmd: bool, snd: bool) {
    && h == (if pump then ByPump else if killer then ByKiller else if cmd then ByCmd else if snd then BySnd else Nobody)
    && !(killer && pump) && !(cmd && (pump || killer)) && !(snd && (pump || killer || cmd))
  }

  ghost predicate LocksAt(s: State, id: nat) {
    id in s.objs ==> ClientLocks(s.objs[id].ctl, PumpSub(s) == id, PumpOut(s) == id, KilOut(s) == id)
  }

  /** One client's life: who destroys it, and what must have happened before it is freed. */
  ghost predicate Life(c: Control, built: bool, bare: bool, served: bool, registered: bool, doomed: bool, stage: DtorPc) {
    && (c.snd.SDone? <==> !c.threadRun)
    && (c.cmd.CDtor? || c.cmd.CDone? <==> !c.threadRun2)
    && (c.snd.SNone? <==> bare)
    && (c.cmd.CNone? <==> served)
    && (registered <==> !c.erased && !built)
    && (c.killed <==> doomed || c.cmd.CDtor? || c.frees == 1)
    && !(doomed && c.cmd.CDtor?)
    && c.frees <= 1
    && (c.cmd.CDone? ==> c.killed)
    && (c.frees == 1 ==> !doomed && c.erased && c.snd.SDone? && c.cmd.CDone? && c.closed && !c.connected)
    && (doomed ==> !built && Settled(c, stage))
    && (c.cmd.CDtor? ==> Settled(c, c.dtor))
    && (!doomed && !c.cmd.CDtor? && c.frees == 0 ==> !c.erased)
  }

  /** What is settled when the destructor reaches d. */
  predicate Settled(c: Control, d: DtorPc) {
    && (c.erased <==> d.DUnlock? || d.DStop? || d.DWaitSnd? || d.DWaitCmd? || d.DFree?)
    && (!d.DClose? ==> c.closed)
    && (!d.DClose? && !d.DDisconnect? ==> !c.connected)
    && (d.DWaitCmd? || d.DFree? ==> c.snd.SDone?)
    && (d.DFree? ==> !c.threadRun2)
  }

  ghost predicate LifeAt(s: State, id: nat) {
    id in s.objs ==>
      Life(s.objs[id].ctl, Built(s) == id, Bare(s) == id, Served(s) == id, id in s.clients, Doomed(s) == id, DoomStage(s))
  }

  ghost predicate Counters(s: State) {
    && s.users == |s.clients| + (if Counted(s.lis.pc) then 1 else 0)
    && s.total - s.users == |Gone(s)|
    && s.total == s.lastID - FIRST_ID - (if s.lis.pc.LCtorLock? || s.lis.pc.LCount? then 1 else 0)
  }

  /** The listener is between counting its client and registering it. */
  predicate Counted(l: LisPc) {
    l.LCtorUnlock? || l.LSpawn? || l.LRegLock? || l.LPush?
  }

  /** Clients whose destructor has run its unregister step. */
  ghost function Gone(s: State): set<nat> {
    set id | id in s.objs && s.objs[id].ctl.erased
  }

  ghost predicate Inv(s: State) {
    && Shape(s)
    && LockThreads(s)
    && (forall id: nat :: LockCmd(s, id))
    && (forall id: nat :: LocksAt(s, id))
    && (forall id: nat :: LifeAt(s, id))
    && Counters(s)
  }

  lemma {:induction false} EraseRegistry(s: seq<nat>, x: nat, lastID: nat)
    requires Registry(s, lastID)
    ensures Registry(Erase<nat>(s, x), lastID)
    ensures forall y :: y in Erase<nat>(s, x) <==> y in s && y != x
    ensures |Erase<nat>(s, x)| == if x in s then |s| - 1 else |s|
  {
    if s != [] {
      EraseRegistry(s[1..], x, lastID);
      var r := Erase<nat>(s[1..], x);
      assert s == [s[0]] + s[1..];
      if s[0] == x {
        assert x !in s[1..];
      } else {
        assert forall y :: y in [s[0]] + r <==> y == s[0] || y in r;
        assert forall i | 0 <= i < |r| :: r[i] in r;
      }
    }
  }

  // ---------------------------------------------------------------- one client's control

  /** How each thread enters and leaves its critical sections. */
  lemma Sections(c: Control, branch: bool)
    ensures InSubs(CmdNext(c, branch)) <==> c.cmd.CSubLock? || c.cmd.CSubWrite?
    ensures InOut(CmdNext(c, branch)) <==> (c.cmd.CReplyLock? && branch) || c.cmd.CReplyPush?
    ensures Sending(SndNext(c, branch)) <==> c.snd.SLock? || c.snd.SPeek?
  {}

  lemma CmdCtlLocks(c: Control, branch: bool, lock: Owner, pumpSub: bool, pumpOut: bool, kilOut: bool)
    requires !CmdStuck(c, branch, lock) && ClientLocks(c, pumpSub, pumpOut, kilOut)
    ensures ClientLocks(CmdCtl(c, branch), pumpSub, pumpOut, kilOut)
  {
    Sections(c, branch);
    if c.cmd.CDtor? {} else {}
  }

  lemma CmdCtlLife(c: Control, branch: bool, lock: Owner, built: bool, bare: bool, served: bool, registered: bool,
                   doomed: bool, stage: DtorPc)
    requires !CmdStuck(c, branch, lock) && Life(c, built, bare, served, registered, doomed, stage)
    ensures Life(CmdCtl(c, branch), built, bare, served, registered && !(c.cmd.CDtor? && c.dtor.DErase?), doomed, stage)
  {}

  lemma SndCtlLocks(c: Control, empty: bool, pumpSub: bool, pumpOut: bool, kilOut: bool)
    requires !SndStuck(c) && ClientLocks(c, pumpSub, pumpOut, kilOut)
    ensures ClientLocks(SndCtl(c, empty), pumpSub, pumpOut, kilOut)
  {
    Sections(c, empty);
  }

  lemma SndCtlLife(c: Control, empty: bool, built: bool, bare: bool, served: bool, registered: bool, doomed: bool, stage: DtorPc)
    requires !SndStuck(c) && Life(c, built, bare, served, registered, doomed, stage)
    ensures Life(SndCtl(c, empty), built, bare, served, registered, doomed, stage)
  {}

  lemma ListenerShape(s: State, e: Env)
    requires NextListener(s, e).To? && Shape(s) && LockThreads(s)
    ensures Shape(NextListener(s, e).s)
  {}

  lemma ListenerLockThreads(s: State, e: Env)
    requires NextListener(s, e).To? && LockThreads(s)
    ensures LockThreads(NextListener(s, e).s)
  {}

  lemma ListenerLockCmd(s: State, e: Env, j: nat)
    requires NextListener(s, e).To? && Shape(s) && LockThreads(s) && LockCmd(s, j) && LifeAt(s, j)
    ensures LockCmd(NextListener(s, e).s, j)
  {}

  lemma LisCtlLocks(pc: LisPc, c: Control, pumpSub: bool, pumpOut: bool, kilOut: bool)
    requires ClientLocks(c, pumpSub, pumpOut, kilOut)
    requires pc.LSpawn? ==> c.snd.SNone?
    requires pc.LLaunch? ==> c.cmd.CNone?
    ensures ClientLocks(LisCtl(pc, c), pumpSub, pumpOut, kilOut)
  {}

  /** The listener never moves what the pump or the Killer has locked. */
  lemma ListenerSections(s: State, e: Env)
    requires NextListener(s, e).To? && Shape(s) && LockThreads(s)
    ensures var u := NextListener(s, e).s; PumpSub(u) == PumpSub(s) && PumpOut(u) == PumpOut(s) && KilOut(u) == KilOut(s)
    ensures PumpSub(s) < s.lastID && PumpOut(s) < s.lastID && KilOut(s) < s.lastID
  {}

  lemma ListenerLocksAt(s: State, e: Env, j: nat)
    requires NextListener(s, e).To? && Shape(s) && LockThreads(s) && LocksAt(s, j)
    requires j == s.lis.id && j in s.objs ==>
               (s.lis.pc.LSpawn? ==> s.objs[j].ctl.snd.SNone?) && (s.lis.pc.LLaunch? ==> s.objs[j].ctl.cmd.CNone?)
    ensures LocksAt(NextListener(s, e).s, j)
  {
    var u, pc := NextListener(s, e).s, s.lis.pc;
    ListenerSections(s, e);
    ListenerTouches(s, e, j);
    if (pc.LSpawn? || pc.LPush? || pc.LLaunch?) && j == s.lis.id {
      LisCtlLocks(pc, s.objs[j].ctl, PumpSub(s) == j, PumpOut(s) == j, KilOut(s) == j);
    }
  }

  /** The listener makes a client, moves its own, or leaves the client alone. */
  lemma ListenerTouches(s: State, e: Env, j: nat)
    requires NextListener(s, e).To? && Shape(s)
    ensures var u, pc := NextListener(s, e).s, s.lis.pc;
      if pc.LAccept? && e.ok && j == s.lastID then j in u.objs && u.objs[j] == NewClient(e.now)
      else if (pc.LSpawn? || pc.LPush? || pc.LLaunch?) && j == s.lis.id then
        j in s.objs && j in u.objs && u.objs[j].ctl == LisCtl(pc, s.objs[j].ctl)
      else (j in u.objs <==> j in s.objs) && (j in u.objs ==> u.objs[j] == s.objs[j])
  {}

  lemma ListenerLifeAt(s: State, e: Env, j: nat)
    requires NextListener(s, e).To? && Shape(s) && LockThreads(s) && LifeAt(s, j)
    ensures LifeAt(NextListener(s, e).s, j)
  {}

  lemma PumpShape(s: State, e: Env)
    requires NextPump(s, e).To? && Shape(s) && LockThreads(s)
    ensures Shape(NextPump(s, e).s)
  {}

  lemma PumpLockThreads(s: State, e: Env)
    requires NextPump(s, e).To? && LockThreads(s)
    ensures LockThreads(NextPump(s, e).s)
  {}

  lemma PumpLockCmd(s: State, e: Env, j: nat)
    requires NextPump(s, e).To? && Shape(s) && LockThreads(s) && LockCmd(s, j)
    ensures LockCmd(NextPump(s, e).s, j)
  {}

  lemma PumpLocksAt(s: State, e: Env, j: nat)
    requires NextPump(s, e).To? && Shape(s) && LockThreads(s) && LocksAt(s, j)
    ensures LocksAt(NextPump(s, e).s, j)
  {}

  lemma PumpLifeAt(s: State, e: Env, j: nat)
    requires NextPump(s, e).To? && Shape(s) && LockThreads(s) && LifeAt(s, j)
    ensures LifeAt(NextPump(s, e).s, j)
  {}

  lemma KillerShape(s: State, e: Env)
    requires NextKiller(s, e).To? && Shape(s) && LockThreads(s)
    ensures Shape(NextKiller(s, e).s)
  {
    if s.kil.pc.KDtor? && s.kil.dtor.DErase? {
      EraseRegistry(s.clients, s.kil.id, s.lastID);
    } else {
    }
  }

  lemma KillerLockThreads(s: State, e: Env)
    requires NextKiller(s, e).To? && LockThreads(s)
    ensures LockThreads(NextKiller(s, e).s)
  {}

  lemma KillerLockCmd(s: State, e: Env, j: nat)
    requires NextKiller(s, e).To? && Shape(s) && LockThreads(s) && LockCmd(s, j)
    ensures LockCmd(NextKiller(s, e).s, j)
  {
    EraseRegistry(s.clients, s.kil.id, s.lastID);
  }

  lemma KilSections(s: State)
    ensures KilNext(s).KPush? || KilNext(s).KOutUnlock? <==> s.kil.pc.KOutLock? || s.kil.pc.KPush?
  {}

  lemma KillerLocksAt(s: State, e: Env, j: nat)
    requires NextKiller(s, e).To? && Shape(s) && LockThreads(s) && LocksAt(s, j)
    ensures LocksAt(NextKiller(s, e).s, j)
  {
    KilSections(s);
    EraseRegistry(s.clients, s.kil.id, s.lastID);
    if j == At(s, s.kil.i) {} else {}
  }

  lemma KillerLifeAt(s: State, e: Env, j: nat)
    requires NextKiller(s, e).To? && Shape(s) && LockThreads(s) && LifeAt(s, j)
    ensures LifeAt(NextKiller(s, e).s, j)
  {
    if s.kil.pc.KDtor? && s.kil.dtor.DErase? {
      EraseRegistry(s.clients, s.kil.id, s.lastID);
    } else if s.kil.pc.KDtor? && j == s.kil.id {
    } else if KilAt(s.kil.pc) && j == At(s, s.kil.i) {
    } else {
    }
  }

  // ---------------------------------------------------------------- the command and sender threads

  lemma CmdShape(s: State, id: nat, e: Env)
    requires id in s.objs && NextCmd(s, id, e).To? && Shape(s) && LockThreads(s) && LockCmd(s, id)
    ensures Shape(NextCmd(s, id, e).s)
  {
    if s.objs[id].ctl.cmd.CDtor? && s.objs[id].ctl.dtor.DErase? {
      EraseRegistry(s.clients, id, s.lastID);
    } else {
    }
  }

  lemma CmdLockThreads(s: State, id: nat, e: Env)
    requires id in s.objs && NextCmd(s, id, e).To? && LockThreads(s) && LockCmd(s, id)
    ensures LockThreads(NextCmd(s, id, e).s)
  {}

  lemma CmdLockCmd(s: State, id: nat, e: Env, j: nat)
    requires id in s.objs && NextCmd(s, id, e).To? && LockThreads(s) && LockCmd(s, id) && LockCmd(s, j)
    ensures LockCmd(NextCmd(s, id, e).s, j)
  {}

  lemma CmdLocksAt(s: State, id: nat, e: Env, j: nat)
    requires id in s.objs && NextCmd(s, id, e).To? && Shape(s) && LockThreads(s) && LockCmd(s, id) && LocksAt(s, j)
    ensures LocksAt(NextCmd(s, id, e).s, j)
  {
    var u := NextCmd(s, id, e).s;
    assert PumpSub(u) == PumpSub(s) && PumpOut(u) == PumpOut(s) && KilOut(u) == KilOut(s);
    if j == id {
      CmdCtlLocks(s.objs[id].ctl, CmdBranch(s.objs[id], e), s.lock, PumpSub(s) == j, PumpOut(s) == j, KilOut(s) == j);
    }
  }

  lemma CmdLifeAt(s: State, id: nat, e: Env, j: nat)
    requires id in s.objs && NextCmd(s, id, e).To? && Shape(s) && LifeAt(s, j)
    ensures LifeAt(NextCmd(s, id, e).s, j)
  {
    EraseRegistry(s.clients, id, s.lastID);
    if j == id {
      CmdCtlLife(s.objs[id].ctl, CmdBranch(s.objs[id], e), s.lock, Built(s) == id, Bare(s) == id, Served(s) == id,
                 id in s.clients, Doomed(s) == id, DoomStage(s));
    }
  }

  lemma SndKeeps(s: State, id: nat, j: nat)
    requires id in s.objs && NextSnd(s, id).To? && LockCmd(s, j) && LocksAt(s, j) && LifeAt(s, j)
    ensures var u := NextSnd(s, id).s; LockCmd(u, j) && LocksAt(u, j) && LifeAt(u, j)
  {
    if j == id {
      var c := s.objs[id];
      SndCtlLocks(c.ctl, c.mem.outgoing == [], PumpSub(s) == j, PumpOut(s) == j, KilOut(s) == j);
      SndCtlLife(c.ctl, c.mem.outgoing == [], Built(s) == id, Bare(s) == id, Served(s) == id, id in s.clients,
                 Doomed(s) == id, DoomStage(s));
    }
  }

  // ---------------------------------------------------------------- counters

  lemma GoneUnchanged(s: State, u: State)
    requires s.objs.Keys <= u.objs.Keys
    requires forall id {:trigger u.objs[id]} | id in u.objs :: u.objs[id].ctl.erased <==> id in s.objs && s.objs[id].ctl.erased
    ensures Gone(u) == Gone(s)
  {}

  lemma GoneGrows(s: State, u: State, id: nat)
    requires id in s.objs && !s.objs[id].ctl.erased && u.objs.Keys == s.objs.Keys && u.objs[id].ctl.erased
    requires forall j {:trigger u.objs[j]} | j in u.objs && j != id :: u.objs[j].ctl.erased <==> s.objs[j].ctl.erased
    ensures |Gone(u)| == |Gone(s)| + 1
  {
    assert Gone(u) == Gone(s) + {id};
  }

  lemma ListenerCounters(s: State, e: Env)
    requires NextListener(s, e).To? && Shape(s) && Counters(s)
    ensures Counters(NextListener(s, e).s)
  {
    GoneUnchanged(s, NextListener(s, e).s);
  }

  lemma PumpCounters(s: State, e: Env)
    requires NextPump(s, e).To? && Shape(s) && Counters(s)
    ensures Counters(NextPump(s, e).s)
  {
    GoneUnchanged(s, NextPump(s, e).s);
  }

  lemma KillerCounters(s: State, e: Env)
    requires NextKiller(s, e).To? && Shape(s) && LockThreads(s) && Counters(s)
    requires s.kil.pc.KDtor? ==> LifeAt(s, s.kil.id)
    ensures Counters(NextKiller(s, e).s)
  {
    if s.kil.pc.KDtor? && s.kil.dtor.DErase? {
      EraseRegistry(s.clients, s.kil.id, s.lastID);
      GoneGrows(s, NextKiller(s, e).s, s.kil.id);
    } else {
      GoneUnchanged(s, NextKiller(s, e).s);
    }
  }

  lemma CmdCounters(s: State, id: nat, e: Env)
    requires id in s.objs && NextCmd(s, id, e).To? && Shape(s) && Counters(s) && LifeAt(s, id)
    ensures Counters(NextCmd(s, id, e).s)
  {
    if s.objs[id].ctl.cmd.CDtor? && s.objs[id].ctl.dtor.DErase? {
      EraseRegistry(s.clients, id, s.lastID);
      GoneGrows(s, NextCmd(s, id, e).s, id);
    } else {
      GoneUnchanged(s, NextCmd(s, id, e).s);
    }
  }

  lemma SndShape(s: State, id: nat)
    requires id in s.objs && NextSnd(s, id).To? && Shape(s) && LockThreads(s) && Counters(s)
    ensures var u := NextSnd(s, id).s; Shape(u) && LockThreads(u) && Counters(u)
  {
    GoneUnchanged(s, NextSnd(s, id).s);
  }
}
