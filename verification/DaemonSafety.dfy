/** What the daemon guarantees under every schedule: object lifetime, the registry and its
    counters, and freedom from deadlock. */
module DaemonSafety {
  import opened Base
  import opened Daemon
  import opened DaemonInvariant

  // ---------------------------------------------------------------- the invariant holds in every run

  /** The part of the invariant that looks at one client. */
  ghost predicate ClientInv(s: State, id: nat) {
    LockCmd(s, id) && LocksAt(s, id) && LifeAt(s, id)
  }

  lemma StepClient(s: State, t: Tid, e: Env, j: nat)
    requires Inv(s) && Next(s, t, e).To?
    ensures ClientInv(Next(s, t, e).s, j)
  {
    assert LockCmd(s, j) && LocksAt(s, j) && LifeAt(s, j);
    match t
    case Listener => ListenerLockCmd(s, e, j); ListenerLocksAt(s, e, j); ListenerLifeAt(s, e, j);
    case Pump => PumpLockCmd(s, e, j); PumpLocksAt(s, e, j); PumpLifeAt(s, e, j);
    case Killer => KillerLockCmd(s, e, j); KillerLocksAt(s, e, j); KillerLifeAt(s, e, j);
    case Cmd(id) =>
      assert LockCmd(s, id);
      CmdLockCmd(s, id, e, j); CmdLocksAt(s, id, e, j); CmdLifeAt(s, id, e, j);
    case Snd(id) => SndKeeps(s, id, j);
  }

  lemma StepShared(s: State, t: Tid, e: Env)
    requires Inv(s) && Next(s, t, e).To?
    ensures var u := Next(s, t, e).s; Shape(u) && LockThreads(u) && Counters(u)
  {
    match t
    case Listener => ListenerShape(s, e); ListenerLockThreads(s, e); ListenerCounters(s, e);
    case Pump => PumpShape(s, e); PumpLockThreads(s, e); PumpCounters(s, e);
    case Killer =>
      assert LifeAt(s, s.kil.id);
      KillerShape(s, e); KillerLockThreads(s, e); KillerCounters(s, e);
    case Cmd(id) =>
      assert LockCmd(s, id) && LifeAt(s, id);
      CmdShape(s, id, e); CmdLockThreads(s, id, e); CmdCounters(s, id, e);
    case Snd(id) => SndShape(s, id);
  }

  lemma StepKeeps(s: State, t: Tid, e: Env)
    requires Inv(s) && Next(s, t, e).To?
    ensures Inv(Next(s, t, e).s)
  {
    var u := Next(s, t, e).s;
    StepShared(s, t, e);
    forall j: nat ensures LockCmd(u, j) && LocksAt(u, j) && LifeAt(u, j) {
      StepClient(s, t, e, j);
    }
  }

  lemma {:induction false} RunInv(schedule: seq<Pick>)
    ensures Inv(Run(schedule))
  {
    if schedule == [] {
      assert Gone(INIT) == {};
    } else {
      var p := schedule[|schedule| - 1];
      var s := Run(schedule[..|schedule| - 1]);
      RunInv(schedule[..|schedule| - 1]);
      if Next(s, p.t, p.e).To? {
        StepKeeps(s, p.t, p.e);
      }
    }
  }

  // ---------------------------------------------------------------- object lifetime

  /** The client objects the next statement of a thread dereferences. */
  function Touches(s: State, t: Tid): set<nat> {
    match t
    case Listener => if s.lis.pc.LAccept? then {} else {s.lis.id}
    case Pump => if PumpAt(s.pump.pc) then {At(s, s.pump.i)} else {}
    case Killer =>
      if s.kil.pc.KDtor? || s.kil.pc.KRelease? then {s.kil.id}
      else if KilAt(s.kil.pc) || (s.kil.pc.KScan? && s.kil.i != |s.clients|) then {At(s, s.kil.i)}
      else {}
    case Cmd(id) => if Obj(s, id).ctl.cmd.CNone? || Obj(s, id).ctl.cmd.CDone? then {} else {id}
    case Snd(id) => if Obj(s, id).ctl.snd.SNone? || Obj(s, id).ctl.snd.SDone? then {} else {id}
  }

  /** No other object is written ... */
  lemma WritesOnlyTouched(s: State, t: Tid, e: Env, j: nat)
    requires Next(s, t, e).To? && j in s.objs && j !in Touches(s, t) && s.lastID !in s.objs
    ensures var u := Next(s, t, e).s; j in u.objs && u.objs[j] == s.objs[j]
  {}

  /** The step taken with client j holding c instead of what it holds. */
  ghost predicate Indifferent(s: State, t: Tid, e: Env, j: nat, c: Client) {
    Next(s.(objs := s.objs[j := c]), t, e) ==
    match Next(s, t, e)
    case Blocked => Blocked
    case To(u) => To(u.(objs := u.objs[j := c]))
  }

  lemma KillerIndifferent(s: State, e: Env, j: nat, c: Client)
    requires j in s.objs && j !in Touches(s, Killer)
    ensures Indifferent(s, Killer, e, j, c)
  {}

  lemma PumpIndifferent(s: State, e: Env, j: nat, c: Client)
    requires j in s.objs && j !in Touches(s, Pump)
    ensures Indifferent(s, Pump, e, j, c)
  {}

  /** ... or read: the step is the same whatever the object holds. */
  lemma ReadsOnlyTouched(s: State, t: Tid, e: Env, j: nat, c: Client)
    requires j in s.objs && j !in Touches(s, t) && s.lastID !in s.objs
    requires (t.Cmd? || t.Snd?) ==> t.id != j
    ensures Indifferent(s, t, e, j, c)
  {
    match t
    case Pump => PumpIndifferent(s, e, j, c);
    case Killer => KillerIndifferent(s, e, j, c);
    case Listener =>
    case Cmd(_) =>
    case Snd(_) =>
  }

  /** In every run each object is destroyed at most once, and no thread ever stands at a statement
      that touches an object that does not exist or has been freed. */
  lemma Lifetime(schedule: seq<Pick>, t: Tid, id: nat)
    ensures var s := Run(schedule);
            && (id in s.objs ==> s.objs[id].ctl.frees <= 1)
            && (id in Touches(s, t) ==> id in s.objs && s.objs[id].ctl.frees == 0)
  {
    var s := Run(schedule);
    RunInv(schedule);
    assert LifeAt(s, id);
    if id in Touches(s, t) && t.Pump? {
      assert s.clients[s.pump.i] in s.clients;
    } else if id in Touches(s, t) && t.Killer? && id != s.kil.id {
      assert s.clients[s.kil.i] in s.clients;
    }
  }

  /** Nothing is leaked: in every run a killed client has been freed or is being destroyed, by the Killer or by its
      own command thread and not by both; and a freed one is unregistered, its socket closed and both its threads
      ended. */
  lemma KilledIsDestroyed(schedule: seq<Pick>, id: nat)
    requires id in Run(schedule).objs
    ensures var s := Run(schedule);
      var c := s.objs[id].ctl;
      var byKiller := (s.kil.pc.KRelease? || s.kil.pc.KDtor?) && s.kil.id == id;
      && (c.killed <==> c.frees == 1 || byKiller || c.cmd.CDtor?)
      && !(byKiller && c.cmd.CDtor?)
      && (c.frees == 1 ==> !byKiller && !c.cmd.CDtor?)
      && (c.frees == 1 ==> id !in s.clients && c.closed && !c.connected && c.snd.SDone? && c.cmd.CDone?)
  {
    RunInv(schedule);
    assert LifeAt(Run(schedule), id);
  }

  // ---------------------------------------------------------------- registry

  /** In every run clients is strictly increasing by ID; UsersCount is its length, plus one exactly
      while the listener is between counting a client and registering it; total_conn minus
      UsersCount is the number of clients whose destructor has unregistered; and every object is
      registered, unregistered, or still in the listener's hands. */
  lemma RegistryExact(schedule: seq<Pick>)
    ensures var s := Run(schedule);
            && Increasing(s.clients)
            && s.users == |s.clients| + (if Counted(s.lis.pc) then 1 else 0)
            && s.total - s.users == |Gone(s)|
            && s.total == s.lastID - FIRST_ID - (if s.lis.pc.LCtorLock? || s.lis.pc.LCount? then 1 else 0)
            && (forall id: nat :: id in s.objs <==> id in s.clients || id in Gone(s) || (id == Built(s) && id != 0))
            && (forall id: nat | id in s.clients :: id !in Gone(s) && id != Built(s))
  {
    var s := Run(schedule);
    RunInv(schedule);
    forall id: nat
      ensures id in s.objs <==> id in s.clients || id in Gone(s) || (id == Built(s) && id != 0)
      ensures id in s.clients ==> id !in Gone(s) && id != Built(s)
    {
      assert LifeAt(s, id);
    }
  }

  // ---------------------------------------------------------------- deadlock

  /** Threads that exist and are not finished. */
  predicate Alive(s: State, t: Tid) {
    match t
    case Cmd(id) => id in s.objs && !s.objs[id].ctl.cmd.CNone? && !s.objs[id].ctl.cmd.CDone?
    case Snd(id) => id in s.objs && !s.objs[id].ctl.snd.SNone? && !s.objs[id].ctl.snd.SDone?
    case _ => true
  }

  datatype Wait = NoWait | On(t: Tid)

  function OwnerOf(lock: Owner): Wait {
    if lock.Held? then On(lock.owner) else NoWait
  }

  function HolderOf(h: Holder, id: nat): Wait {
    match h
    case Nobody => NoWait
    case ByPump => On(Pump)
    case ByKiller => On(Killer)
    case ByCmd => On(Cmd(id))
    case BySnd => On(Snd(id))
  }

  /** Whom the destructor of id waits for: the owner of clients_lock, a thread of the client, or
      the listener when the command thread is still to be launched. */
  function DtorWait(s: State, id: nat, d: DtorPc): Wait {
    var c := Obj(s, id).ctl;
    match d
    case DLock => OwnerOf(s.lock)
    case DWaitSnd => if c.threadRun then On(Snd(id)) else NoWait
    case DWaitCmd => if !c.threadRun2 then NoWait else if c.cmd.CNone? then On(Listener) else On(Cmd(id))
    case _ => NoWait
  }

  /** The thread that a blocked thread is waiting for. */
  function WaitsOn(s: State, t: Tid): Wait {
    match t
    case Listener => if s.lis.pc.LCtorLock? || s.lis.pc.LRegLock? then OwnerOf(s.lock) else NoWait
    case Pump =>
      var id := At(s, s.pump.i);
      (match s.pump.pc
       case PLock => OwnerOf(s.lock)
       case PSubLock => HolderOf(Obj(s, id).ctl.subsLock, id)
       case POutLock => HolderOf(Obj(s, id).ctl.outLock, id)
       case _ => NoWait)
    case Killer =>
      (match s.kil.pc
       case KLock => OwnerOf(s.lock)
       case KOutLock => HolderOf(Obj(s, At(s, s.kil.i)).ctl.outLock, At(s, s.kil.i))
       case KDtor => DtorWait(s, s.kil.id, s.kil.dtor)
       case _ => NoWait)
    case Cmd(id) =>
      var c := Obj(s, id);
      (match c.ctl.cmd
       case CSubLock => HolderOf(c.ctl.subsLock, id)
       case CReplyLock => if c.mem.reply.Some? then HolderOf(c.ctl.outLock, id) else NoWait
       case CDtor => DtorWait(s, id, c.ctl.dtor)
       case _ => NoWait)
    case Snd(id) => if Obj(s, id).ctl.snd.SLock? then HolderOf(Obj(s, id).ctl.outLock, id) else NoWait
  }

  /** How early in the lock order a thread is waiting: 0 for none, then OutgoingBuffer_lock,
      subscriptions_lock, clients_lock, and the thread waits of the destructor. */
  function Rank(s: State, t: Tid): nat {
    match t
    case Listener => if s.lis.pc.LCtorLock? || s.lis.pc.LRegLock? then 3 else 0
    case Pump => if s.pump.pc.PLock? then 3 else if s.pump.pc.PSubLock? then 2 else if s.pump.pc.POutLock? then 1 else 0
    case Killer => if s.kil.pc.KLock? then 3 else if s.kil.pc.KOutLock? then 1 else if s.kil.pc.KDtor? then DtorRank(s.kil.dtor) else 0
    case Cmd(id) =>
      var c := Obj(s, id).ctl;
      if c.cmd.CSubLock? then 2 else if c.cmd.CReplyLock? then 1 else if c.cmd.CDtor? then DtorRank(c.dtor) else 0
    case Snd(id) => if Obj(s, id).ctl.snd.SLock? then 1 else 0
  }

  function DtorRank(d: DtorPc): nat {
    if d.DLock? then 3 else if d.DWaitSnd? || d.DWaitCmd? then 4 else 0
  }

  /** A live thread is blocked exactly when it waits for another. */
  lemma BlockedIffWaiting(s: State, t: Tid, e: Env)
    requires Alive(s, t)
    ensures Next(s, t, e).Blocked? <==> WaitsOn(s, t) != NoWait
  {}

  /** Owners of clients_lock wait for nothing above subscriptions_lock, ... */
  lemma RegistryOwner(s: State)
    requires Inv(s) && s.lock.Held?
    ensures Alive(s, s.lock.owner) && Rank(s, s.lock.owner) <= 2
  {
    if s.lock.owner.Cmd? {
      assert LockCmd(s, s.lock.owner.id);
    }
  }

  /** ... owners of a subscriptions_lock for nothing above OutgoingBuffer_lock, and owners of an
      OutgoingBuffer_lock for nothing at all. */
  lemma ClientOwners(s: State, id: nat)
    requires Inv(s) && id in s.objs
    ensures var h := HolderOf(s.objs[id].ctl.subsLock, id); h.On? ==> Alive(s, h.t) && Rank(s, h.t) <= 1
    ensures var h := HolderOf(s.objs[id].ctl.outLock, id); h.On? ==> Alive(s, h.t) && Rank(s, h.t) == 0
  {
    assert LocksAt(s, id);
  }

  /** The destructor waits for threads that wait at most for locks. */
  lemma DtorOwner(s: State, id: nat, d: DtorPc)
    requires Inv(s) && id in s.objs && DtorWait(s, id, d).On? && !d.DLock?
    requires Doomed(s) == id || (s.objs[id].ctl.cmd.CDtor? && !d.DWaitCmd?)
    ensures Alive(s, DtorWait(s, id, d).t) && Rank(s, DtorWait(s, id, d).t) <= 3
  {
    assert LifeAt(s, id);
  }

  /** The thread waited for is alive and, if it waits itself, waits later in the lock order. */
  lemma WaitDescends(s: State, t: Tid)
    requires Inv(s) && Alive(s, t) && WaitsOn(s, t).On?
    ensures var u := WaitsOn(s, t).t; Alive(s, u) && Rank(s, u) < Rank(s, t)
  {
    if s.lock.Held? {
      RegistryOwner(s);
    }
    match t
    case Listener =>
    case Pump =>
      if PumpAt(s.pump.pc) {
        ClientOwners(s, At(s, s.pump.i));
      }
    case Killer =>
      if KilAt(s.kil.pc) {
        ClientOwners(s, At(s, s.kil.i));
      } else if s.kil.pc.KDtor? && !s.kil.dtor.DLock? {
        assert LifeAt(s, s.kil.id);
        DtorOwner(s, s.kil.id, s.kil.dtor);
      }
    case Cmd(id) =>
      ClientOwners(s, id);
      assert LifeAt(s, id);
      if s.objs[id].ctl.cmd.CDtor? && !s.objs[id].ctl.dtor.DLock? {
        DtorOwner(s, id, s.objs[id].ctl.dtor);
      }
    case Snd(id) => ClientOwners(s, id);
  }

  /** The end of the chain of waiting that starts at t. */
  ghost function Front(s: State, t: Tid): (u: Tid)
    requires Inv(s) && Alive(s, t)
    ensures Alive(s, u) && WaitsOn(s, u) == NoWait
    decreases Rank(s, t)
  {
    if WaitsOn(s, t).On? then
      WaitDescends(s, t);
      Front(s, WaitsOn(s, t).t)
    else t
  }

  /** Freedom from deadlock: in every run, whichever live thread one looks at, the chain of threads
      waiting for one another ends at a live thread that can take its next step whatever the
      outside world answers; so nobody waits in a cycle or for a finished thread. */
  lemma NoDeadlock(schedule: seq<Pick>, t: Tid, e: Env)
    requires Alive(Run(schedule), t)
    ensures Inv(Run(schedule)) && Next(Run(schedule), Front(Run(schedule), t), e).To?
  {
    RunInv(schedule);
    BlockedIffWaiting(Run(schedule), Front(Run(schedule), t), e);
  }

  // ---------------------------------------------------------------- the destructor's waits end

  /** Steps the sender still takes once its client is disconnected. */
  function SndLeft(c: Control): nat {
    match c.snd
    case SNone => 0
    case SDone => 0
    case SStop => 1
    case SLoop => 2
    case SWrite => 3
    case SUnlockEmpty => 3
    case SUnlock => 4
    case SPeek => 5
    case SLock => 6
  }

  /** Steps the command thread still takes before it clears ThreadRun2. */
  function CmdLeft(c: Control): nat {
    match c.cmd
    case CNone => 12
    case CLoop => 2
    case CRead => 11
    case CAct => 9
    case CSubLock => 8
    case CSubWrite => 7
    case CSubUnlock => 6
    case CReplyLock => 5
    case CReplyPush => 4
    case CReplyUnlock => 3
    case CExit => 1
    case CDtor => 0
    case CDone => 0
  }

  /** One client's control moves towards the two flags, and never back to connected. */
  ghost predicate Drains(c: Control, d: Control) {
    !d.connected && d.killed && SndLeft(d) <= SndLeft(c) && CmdLeft(d) <= CmdLeft(c)
  }

  lemma CmdDrains(c: Control, branch: bool)
    requires !c.connected && c.killed && !c.cmd.CNone?
    ensures Drains(c, CmdCtl(c, branch))
    ensures CmdLeft(c) > 0 ==> CmdLeft(CmdCtl(c, branch)) < CmdLeft(c)
  {
    if c.cmd.CDtor? {} else {}
  }

  lemma SndDrains(c: Control, empty: bool)
    requires !c.connected && c.killed && !SndStuck(c)
    ensures Drains(c, SndCtl(c, empty)) && SndLeft(SndCtl(c, empty)) < SndLeft(c)
  {}

  lemma ListenerDrains(s: State, e: Env, id: nat)
    requires id in s.objs && NextListener(s, e).To? && Bare(s) != id && s.lastID != id
    requires Served(s) == id ==> s.objs[id].ctl.cmd.CNone?
    requires !s.objs[id].ctl.connected && s.objs[id].ctl.killed
    ensures var u := NextListener(s, e).s; id in u.objs && Drains(s.objs[id].ctl, u.objs[id].ctl)
  {}

  lemma PumpDrains(s: State, e: Env, id: nat)
    requires id in s.objs && NextPump(s, e).To? && Bare(s) != id && s.lastID != id
    requires Served(s) == id ==> s.objs[id].ctl.cmd.CNone?
    requires !s.objs[id].ctl.connected && s.objs[id].ctl.killed
    ensures var u := NextPump(s, e).s; id in u.objs && Drains(s.objs[id].ctl, u.objs[id].ctl)
  {}

  lemma KillerDrains(s: State, e: Env, id: nat)
    requires id in s.objs && NextKiller(s, e).To? && Bare(s) != id && s.lastID != id
    requires Served(s) == id ==> s.objs[id].ctl.cmd.CNone?
    requires !s.objs[id].ctl.connected && s.objs[id].ctl.killed
    ensures var u := NextKiller(s, e).s; id in u.objs && Drains(s.objs[id].ctl, u.objs[id].ctl)
  {}

  lemma StepDrains(s: State, t: Tid, e: Env, id: nat)
    requires Inv(s) && id in s.objs && Next(s, t, e).To? && s.objs[id].ctl.killed && !s.objs[id].ctl.connected
    ensures var c, u := s.objs[id].ctl, Next(s, t, e).s;
            && id in u.objs && Drains(c, u.objs[id].ctl)
            && (t == Snd(id) ==> SndLeft(u.objs[id].ctl) < SndLeft(c))
            && (t == Cmd(id) && c.threadRun2 ==> CmdLeft(u.objs[id].ctl) < CmdLeft(c))
  {
    var c := s.objs[id].ctl;
    assert LifeAt(s, id);
    if t == Cmd(id) {
      CmdDrains(c, CmdBranch(s.objs[id], e));
    } else if t == Snd(id) {
      SndDrains(c, s.objs[id].mem.outgoing == []);
    } else if t.Cmd? || t.Snd? {
    } else {
      match t
      case Listener => ListenerDrains(s, e, id);
      case Pump => PumpDrains(s, e, id);
      case Killer => KillerDrains(s, e, id);
      case _ =>
    }
  }

  /** While the destructor waits, its client stays disconnected, and each step of the client's own
      threads brings the flag it waits for closer: the waits last finitely many such steps. */
  lemma WaitsEnd(schedule: seq<Pick>, t: Tid, e: Env, id: nat)
    requires var s := Run(schedule);
             && id in s.objs && Next(s, t, e).To? && s.objs[id].ctl.killed && !s.objs[id].ctl.connected
    ensures var c, u := Run(schedule).objs[id].ctl, Next(Run(schedule), t, e).s;
            && id in u.objs && Drains(c, u.objs[id].ctl)
            && (t == Snd(id) ==> SndLeft(u.objs[id].ctl) < SndLeft(c))
            && (t == Cmd(id) && c.threadRun2 ==> CmdLeft(u.objs[id].ctl) < CmdLeft(c))
  {
    RunInv(schedule);
    StepDrains(Run(schedule), t, e, id);
  }

  lemma KilledNotBare(c: Control, built: bool, bare: bool, served: bool, registered: bool, doomed: bool, stage: DtorPc)
    requires Life(c, built, bare, served, registered, doomed, stage) && (bare ==> built && served) && c.killed
    ensures !bare
  {}

  lemma FlagsAt(c: Control, built: bool, served: bool, registered: bool, doomed: bool, stage: DtorPc)
    requires Life(c, built, false, served, registered, doomed, stage)
    ensures SndLeft(c) == 0 <==> !c.threadRun
    ensures CmdLeft(c) == 0 <==> !c.threadRun2
  {}

  /** The measures of a killed client reach 0 exactly when the destructor's two flags are cleared. */
  lemma WaitsOver(schedule: seq<Pick>, id: nat)
    requires id in Run(schedule).objs && Run(schedule).objs[id].ctl.killed
    ensures var c := Run(schedule).objs[id].ctl;
            (SndLeft(c) == 0 <==> !c.threadRun) && (CmdLeft(c) == 0 <==> !c.threadRun2)
  {
    var s := Run(schedule);
    RunInv(schedule);
    assert LifeAt(s, id);
    var c, registered := s.objs[id].ctl, id in s.clients;
    KilledNotBare(c, Built(s) == id, Bare(s) == id, Served(s) == id, registered, Doomed(s) == id, DoomStage(s));
    FlagsAt(c, Built(s) == id, Served(s) == id, registered, Doomed(s) == id, DoomStage(s));
  }

  /** Does the pick move the thread? */
  function Move(schedule: seq<Pick>, p: Pick, t: Tid): nat {
    if p.t == t && Next(Run(schedule), t, p.e).To? then 1 else 0
  }

  /** How often a thread moves after a schedule. */
  function Moves(schedule: seq<Pick>, more: seq<Pick>, t: Tid): nat {
    if more == [] then 0
    else Moves(schedule, more[..|more| - 1], t) + Move(schedule + more[..|more| - 1], more[|more| - 1], t)
  }

  lemma RunOne(schedule: seq<Pick>, p: Pick)
    ensures Run(schedule + [p]) == match Next(Run(schedule), p.t, p.e) case Blocked => Run(schedule) case To(u) => u
  {
    assert (schedule + [p])[..|schedule|] == schedule;
  }

  /** A cleared ThreadRun2 is never set again. */
  lemma FlagStays(schedule: seq<Pick>, t: Tid, e: Env, id: nat)
    requires id in Run(schedule).objs && Next(Run(schedule), t, e).To?
    requires id in Next(Run(schedule), t, e).s.objs && Next(Run(schedule), t, e).s.objs[id].ctl.threadRun2
    ensures Run(schedule).objs[id].ctl.threadRun2
  {
    RunInv(schedule);
  }

  /** After some moves of its two threads the client is no further from clearing its flags than this. */
  predicate Left(s: State, id: nat, snd: nat, cmd: nat, start: Control) {
    && id in s.objs && s.objs[id].ctl.killed && !s.objs[id].ctl.connected
    && snd + SndLeft(s.objs[id].ctl) <= SndLeft(start)
    && (s.objs[id].ctl.threadRun2 ==> cmd + CmdLeft(s.objs[id].ctl) <= CmdLeft(start))
  }

  lemma MoveLeft(schedule: seq<Pick>, p: Pick, id: nat, snd: nat, cmd: nat, start: Control)
    requires Left(Run(schedule), id, snd, cmd, start)
    ensures Left(Run(schedule + [p]), id, snd + Move(schedule, p, Snd(id)), cmd + Move(schedule, p, Cmd(id)), start)
  {
    RunOne(schedule, p);
    if Next(Run(schedule), p.t, p.e).To? {
      WaitsEnd(schedule, p.t, p.e, id);
      if Next(Run(schedule), p.t, p.e).s.objs[id].ctl.threadRun2 {
        FlagStays(schedule, p.t, p.e, id);
      }
    }
  }

  lemma {:induction false} MovesLeft(schedule: seq<Pick>, more: seq<Pick>, id: nat)
    requires var s := Run(schedule); id in s.objs && s.objs[id].ctl.killed && !s.objs[id].ctl.connected
    ensures Left(Run(schedule + more), id, Moves(schedule, more, Snd(id)), Moves(schedule, more, Cmd(id)),
                 Run(schedule).objs[id].ctl)
    decreases |more|
  {
    if more == [] {
      assert schedule + more == schedule;
    } else {
      var before, p := more[..|more| - 1], more[|more| - 1];
      MovesLeft(schedule, before, id);
      assert schedule + more == schedule + before + [p];
      MoveLeft(schedule + before, p, id, Moves(schedule, before, Snd(id)), Moves(schedule, before, Cmd(id)),
               Run(schedule).objs[id].ctl);
    }
  }

  /** Once a client is killed and disconnected, the flags that its destructor waits for are cleared after as many
      moves of its own threads as the measures say, whatever the other threads do. */
  lemma WaitsFinish(schedule: seq<Pick>, more: seq<Pick>, id: nat)
    requires var s := Run(schedule); id in s.objs && s.objs[id].ctl.killed && !s.objs[id].ctl.connected
    ensures var c, u := Run(schedule).objs[id].ctl, Run(schedule + more);
      && id in u.objs
      && (Moves(schedule, more, Snd(id)) >= SndLeft(c) ==> !u.objs[id].ctl.threadRun)
      && (Moves(schedule, more, Cmd(id)) >= CmdLeft(c) ==> !u.objs[id].ctl.threadRun2)
  {
    MovesLeft(schedule, more, id);
    WaitsOver(schedule + more, id);
  }

  // ---------------------------------------------------------------- a finer step

  /** The first half alone of the statement after the loop of Client::main: ThreadRun2 is cleared, and killed is
      still to be read. */
  function HalfExit(s: State, id: nat): State {
    var c := Obj(s, id);
    s.(objs := s.objs[id := c.(ctl := c.ctl.(threadRun2 := false))])
  }

  /** Between the two halves a Killer that waits for this client ends its wait and frees the client, and the
      command thread goes on to read killed in freed memory. */
  lemma HalfExitFrees(s: State, id: nat, e: Env)
    requires id in s.objs && s.objs[id].ctl.cmd.CExit? && s.kil.pc.KDtor? && s.kil.id == id && s.kil.dtor.DWaitCmd?
    ensures var h := NextKiller(HalfExit(s, id), e);
      h.To? &&
      var u := NextKiller(h.s, e);
      && u.To? && id in u.s.objs && u.s.objs[id].ctl.frees == s.objs[id].ctl.frees + 1
      && u.s.objs[id].ctl.cmd.CExit? && id in Touches(u.s, Cmd(id))
  {
    var c := HalfExit(s, id).objs[id].ctl;
    assert !DtorStuck(DWaitCmd, s.lock, c);
    var h := NextKiller(HalfExit(s, id), e).s;
    assert h.kil.dtor == DFree && h.kil.pc.KDtor? && h.objs[id].ctl == c;
  }
}
