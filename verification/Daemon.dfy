/** xmlrcsd as a concurrent step system: one listener, one Redis pump, one Killer, and for
    every client a command thread and a sender thread, over any number of clients.

    A thread's program counter names the next source statement it will run; the values of its
    local variables stand beside it.  `Next` runs one such statement, or says Blocked.  Each
    thread's statements are given as a table per effect: the counter it goes to, the locks it
    takes and drops, the flags and the data it writes.
    Objects that were freed stay in `objs` with `frees` counted, so a use after free is a step
    the model can take; that it never does is a theorem, not a guard. */
module Daemon {
  import opened Base
  import opened Commands

  // ---------------------------------------------------------------- threads and locks

  datatype Tid = Listener | Pump | Killer | Cmd(id: nat) | Snd(id: nat)

  /** Who owns clients_lock. */
  datatype Owner = Free | Held(owner: Tid)

  /** Who owns one of a client's two locks: a shared thread or one of the client's own. */
  datatype Holder = Nobody | ByPump | ByKiller | ByCmd | BySnd

  datatype LisPc = LAccept | LCtorLock | LCount | LCtorUnlock | LSpawn | LRegLock | LPush | LRegUnlock | LLaunch
  datatype PumpPc = PIdle | PLock | PScan | PSubLock | PTest | POutLock | PPush | POutUnlock | PSubUnlock | PUnlock
  datatype KilPc = KSleep | KLock | KScan | KOutLock | KPush | KOutUnlock | KKill | KBounce | KRelease | KDtor | KUnlock
  datatype CmdPc =
    | CNone | CLoop | CRead | CAct | CSubLock | CSubWrite | CSubUnlock | CReplyLock | CReplyPush | CReplyUnlock
    | CExit | CDtor | CDone
  datatype SndPc = SNone | SLoop | SLock | SPeek | SUnlockEmpty | SUnlock | SWrite | SStop | SDone

  /** The end of Kill and ~Client, as run by the thread that won the test of `killed`. */
  datatype DtorPc = DClose | DDisconnect | DLock | DErase | DUnlock | DStop | DWaitSnd | DWaitCmd | DFree

  // ---------------------------------------------------------------- data

  /** A line of OutgoingBuffer, tagged with where it came from. */
  datatype Line = Edit(xml: string) | Notice(text: string)

  datatype Item = Item(site: string, xml: string)

  /** What the pump walks the client list for: an edit, or the empty-queue warning. */
  datatype Job = Fan(item: Item) | Warn(text: string)

  /** The part of a client that decides who may run: flags, locks, counters. */
  datatype Control = Control(
    killed: bool, connected: bool, closed: bool, threadRun: bool, threadRun2: bool,
    subsLock: Holder, outLock: Holder, cmd: CmdPc, dtor: DtorPc, snd: SndPc,
    erased: bool, frees: nat)

  /** Its data, the locals of its threads (`todo`, `line`, `reply`, and the line `held` by the
      sender), and its history: everything ever pushed, everything written to the socket, the
      number of items fanned out before it was registered, and the subscriptions each fan-out
      step has seen since. */
  datatype Memory = Memory(
    lastPing: int, subs: Subs, outgoing: seq<Line>,
    todo: Command, line: string, reply: Option<string>, held: seq<Line>,
    enqueued: seq<Line>, written: seq<Line>, born: nat, seen: seq<Subs>)

  datatype Client = Client(ctl: Control, mem: Memory)

  datatype ListenerState = ListenerState(pc: LisPc, id: nat)
  datatype PumpState = PumpState(pc: PumpPc, job: Job, i: nat)
  datatype KillerState = KillerState(pc: KilPc, check: int, i: nat, id: nat, dtor: DtorPc)

  datatype State = State(
    objs: map<nat, Client>, clients: seq<nat>, lock: Owner,
    lastID: nat, users: int, total: int,
    lis: ListenerState, pump: PumpState, kil: KillerState,
    fanned: seq<Item>)  // history: items whose fan-out has taken clients_lock

  /** The outcome of asking a thread to move. */
  datatype Step = Blocked | To(s: State)

  /** What the outside world answers to one step: accept or read succeeds or not, RPOP gives an
      item or finds the list empty, a read gives a line, the clock shows a time. */
  datatype Env = Env(ok: bool, job: Option<Job>, text: string, now: int)

  const FIRST_ID := 10
  const STAT := "<stat></stat>" // the statistics text is not modelled

  function NewClient(now: int): Client {
    Client(Control(false, false, false, true, true, Nobody, Nobody, CNone, DClose, SNone, false, 0),
           Memory(now, NO_SUBS, [], Pong, "", None, [], [], [], 0, []))
  }

  function Obj(s: State, id: nat): Client {
    if id in s.objs then s.objs[id] else NewClient(0)
  }

  /** clients[i]; 0 is never an ID, so it stands for an index past the end. */
  function At(s: State, i: nat): nat {
    if i < |s.clients| then s.clients[i] else 0
  }

  const INIT := State(map[], [], Free, FIRST_ID, 0, 0, ListenerState(LAccept, 0), PumpState(PIdle, Warn(""), 0),
                      KillerState(KSleep, 0, 0, 0, DClose), [])

  // ---------------------------------------------------------------- listener

  /** Server::Listen with the constructor of Client inlined. */
  function NextListener(s: State, e: Env): Step {
    var pc, id := s.lis.pc, s.lis.id;
    if (pc.LCtorLock? || pc.LRegLock?) && s.lock.Held? then Blocked
    else To(s.(
      lis := ListenerState(LisNext(pc, e.ok), if pc.LAccept? && e.ok then s.lastID else id),
      lock := if pc.LCtorLock? || pc.LRegLock? then Held(Listener)
              else if pc.LCtorUnlock? || pc.LRegUnlock? then Free else s.lock,
      lastID := if pc.LAccept? && e.ok then s.lastID + 1 else s.lastID,
      users := if pc.LCount? then s.users + 1 else s.users,
      total := if pc.LCount? then s.total + 1 else s.total,
      clients := if pc.LPush? then s.clients + [id] else s.clients,
      objs := if pc.LAccept? && e.ok then s.objs[s.lastID := NewClient(e.now)]
              else if pc.LSpawn? || pc.LPush? || pc.LLaunch? then
                s.objs[id := Client(LisCtl(pc, Obj(s, id).ctl), LisMem(pc, Obj(s, id).mem, |s.fanned|))]
              else s.objs))
  }

  function LisNext(pc: LisPc, accepted: bool): LisPc {
    match pc
    case LAccept => if accepted then LCtorLock else LAccept
    case LCtorLock => LCount
    case LCount => LCtorUnlock
    case LCtorUnlock => LSpawn
    case LSpawn => LRegLock
    case LRegLock => LPush
    case LPush => LRegUnlock
    case LRegUnlock => LLaunch
    case LLaunch => LAccept
  }

  function LisCtl(pc: LisPc, c: Control): Control {
    c.(connected := c.connected || pc.LSpawn?,
       snd := if pc.LSpawn? then SLoop else c.snd,
       cmd := if pc.LLaunch? then CLoop else c.cmd)
  }

  function LisMem(pc: LisPc, m: Memory, fanned: nat): Memory {
    m.(born := if pc.LPush? then fanned else m.born)
  }

  // ---------------------------------------------------------------- Redis pump

  function JobLine(j: Job): Line {
    match j
    case Fan(item) => Edit(item.xml)
    case Warn(text) => Notice(text)
  }

  function Pushed(m: Memory, line: Line): Memory {
    m.(outgoing := m.outgoing + [line], enqueued := m.enqueued + [line])
  }

  /** The RPOP loop, StreamItem::ProcessItem and the empty-queue broadcast.  The last two hold
      clients_lock throughout; subscriptions_lock is taken for an edit only. */
  function NextPump(s: State, e: Env): Step {
    var pc, job, i := s.pump.pc, s.pump.job, s.pump.i;
    var id := At(s, i);
    var c := Obj(s, id);
    if PumpStuck(pc, s.lock, c.ctl) then Blocked
    else To(s.(
      pump := PumpState(PumpNext(s, e),
                        if pc.PIdle? && e.job.Some? then e.job.value else job,
                        if pc.PLock? then 0 else if PumpDone(pc, job) then i + 1 else i),
      lock := if pc.PLock? then Held(Pump) else if pc.PUnlock? then Free else s.lock,
      fanned := if pc.PLock? && job.Fan? then s.fanned + [job.item] else s.fanned,
      objs := if PumpAt(pc) then s.objs[id := Client(PumpCtl(pc, c.ctl), PumpMem(pc, job, c.mem))] else s.objs))
  }

  /** The pump stands at a list position. */
  predicate PumpAt(p: PumpPc) {
    p.PSubLock? || p.PTest? || p.POutLock? || p.PPush? || p.POutUnlock? || p.PSubUnlock?
  }

  /** The statement ends the loop body. */
  predicate PumpDone(pc: PumpPc, job: Job) {
    pc.PSubUnlock? || (pc.POutUnlock? && !job.Fan?)
  }

  predicate PumpStuck(pc: PumpPc, lock: Owner, c: Control) {
    || (pc.PLock? && lock.Held?)
    || (pc.PSubLock? && !c.subsLock.Nobody?)
    || (pc.POutLock? && !c.outLock.Nobody?)
  }

  function PumpNext(s: State, e: Env): PumpPc {
    var job, i := s.pump.job, s.pump.i;
    match s.pump.pc
    case PIdle => if e.job.Some? then PLock else PIdle
    case PLock => PScan
    case PScan => if i == |s.clients| then PUnlock else if job.Fan? then PSubLock else POutLock
    case PSubLock => PTest
    case PTest => if job.Fan? && Matches(Obj(s, At(s, i)).mem.subs, job.item.site) then POutLock else PSubUnlock
    case POutLock => PPush
    case PPush => POutUnlock
    case POutUnlock => if job.Fan? then PSubUnlock else PScan
    case PSubUnlock => PScan
    case PUnlock => PIdle
  }

  function PumpCtl(pc: PumpPc, c: Control): Control {
    c.(subsLock := if pc.PSubLock? then ByPump else if pc.PSubUnlock? then Nobody else c.subsLock,
       outLock := if pc.POutLock? then ByPump else if pc.POutUnlock? then Nobody else c.outLock)
  }

  function PumpMem(pc: PumpPc, job: Job, m: Memory): Memory {
    if pc.PTest? then m.(seen := m.seen + [m.subs])
    else if pc.PPush? then Pushed(m, JobLine(job))
    else m
  }

  // ---------------------------------------------------------------- destruction

  predicate DtorStuck(d: DtorPc, lock: Owner, c: Control) {
    || (d.DLock? && lock.Held?)
    || (d.DWaitSnd? && c.threadRun)
    || (d.DWaitCmd? && c.threadRun2)
  }

  function After(d: DtorPc): DtorPc {
    match d
    case DClose => DDisconnect
    case DDisconnect => DLock
    case DLock => DErase
    case DErase => DUnlock
    case DUnlock => DStop
    case DStop => DWaitSnd
    case DWaitSnd => DWaitCmd
    case DWaitCmd => DFree
    case DFree => DFree
  }

  function DtorCtl(d: DtorPc, c: Control): Control {
    c.(closed := c.closed || d.DClose?,
       connected := c.connected && !d.DDisconnect? && !d.DStop?,
       erased := c.erased || d.DErase?,
       frees := if d.DFree? then c.frees + 1 else c.frees)
  }

  function DtorMem(d: DtorPc, m: Memory): Memory {
    m.(outgoing := if d.DFree? then [] else m.outgoing)
  }

  function DtorLock(d: DtorPc, lock: Owner, me: Tid): Owner {
    if d.DLock? then Held(me) else if d.DUnlock? then Free else lock
  }

  // ---------------------------------------------------------------- Killer

  /** Killer: the sweep, with Kill(true) and the destructor inlined and `goto start` after it. */
  function NextKiller(s: State, e: Env): Step {
    var k := s.kil;
    var id := if k.pc.KDtor? then k.id else At(s, k.i);
    var c := Obj(s, id);
    var d := if k.pc.KDtor? then k.dtor else DClose;
    if KilStuck(k, s.lock, c.ctl) then Blocked
    else To(s.(
      kil := KillerState(KilNext(s),
                         if k.pc.KSleep? then e.now else k.check,
                         if k.pc.KLock? then 0 else if k.pc.KOutUnlock? then k.i + 1 else k.i,
                         if k.pc.KKill? then id else k.id,
                         if k.pc.KRelease? then DClose else if k.pc.KDtor? then After(d) else k.dtor),
      lock := if k.pc.KLock? then Held(Killer)
              else if k.pc.KBounce? || k.pc.KRelease? || k.pc.KUnlock? then Free
              else if k.pc.KDtor? then DtorLock(d, s.lock, Killer) else s.lock,
      users := if k.pc.KDtor? && d.DErase? then s.users - 1 else s.users,
      clients := if k.pc.KDtor? && d.DErase? then Erase<nat>(s.clients, id) else s.clients,
      objs := if KilAt(k.pc) || k.pc.KDtor? then s.objs[id := Client(KilCtl(k, c.ctl), KilMem(k, c.mem))] else s.objs))
  }

  /** The Killer stands at a list position. */
  predicate KilAt(k: KilPc) {
    k.KOutLock? || k.KPush? || k.KOutUnlock? || k.KKill?
  }

  predicate KilStuck(k: KillerState, lock: Owner, c: Control) {
    || (k.pc.KLock? && lock.Held?)
    || (k.pc.KOutLock? && !c.outLock.Nobody?)
    || (k.pc.KDtor? && DtorStuck(k.dtor, lock, c))
  }

  function KilNext(s: State): KilPc {
    var i := s.kil.i;
    match s.kil.pc
    case KSleep => KLock
    case KLock => KScan
    case KScan =>
      if i == |s.clients| then KUnlock
      else if Obj(s, At(s, i)).mem.lastPing + TIMEOUT < s.kil.check then KKill else KOutLock
    case KOutLock => KPush
    case KPush => KOutUnlock
    case KOutUnlock => KScan
    case KKill => if Obj(s, At(s, i)).ctl.killed then KBounce else KRelease
    case KBounce => KLock
    case KRelease => KDtor
    case KDtor => if s.kil.dtor.DFree? then KLock else KDtor
    case KUnlock => KSleep
  }

  function KilCtl(k: KillerState, c: Control): Control {
    if k.pc.KDtor? then DtorCtl(k.dtor, c)
    else c.(killed := c.killed || k.pc.KKill?,
            outLock := if k.pc.KOutLock? then ByKiller else if k.pc.KOutUnlock? then Nobody else c.outLock)
  }

  function KilMem(k: KillerState, m: Memory): Memory {
    if k.pc.KDtor? then DtorMem(k.dtor, m)
    else if k.pc.KPush? then Pushed(m, Notice("<ping></ping>"))
    else m
  }

  // ---------------------------------------------------------------- command thread

  /** Client::main, and the destructor when it wins the test of killed. */
  function NextCmd(s: State, id: nat, e: Env): Step {
    var c := Obj(s, id);
    var branch := CmdBranch(c, e);
    var d := c.ctl.dtor;
    var erasing := c.ctl.cmd.CDtor? && d.DErase?;
    if CmdStuck(c.ctl, branch, s.lock) then Blocked
    else To(s.(
      lock := if c.ctl.cmd.CDtor? then DtorLock(d, s.lock, Cmd(id)) else s.lock,
      users := if erasing then s.users - 1 else s.users,
      clients := if erasing then Erase<nat>(s.clients, id) else s.clients,
      objs := s.objs[id := Client(CmdCtl(c.ctl, branch), CmdMem(c.mem, c.ctl, branch, e))]))
  }

  /** The outcome of the test at the statement: a line other than exit has been read; the
      command takes subscriptions_lock; there is a reply. */
  predicate CmdBranch(c: Client, e: Env) {
    match c.ctl.cmd
    case CRead => e.ok && Parse(e.text) != Exit
    case CAct => TakesSubsLock(c.mem.todo, c.mem.subs)
    case CReplyLock => c.mem.reply.Some?
    case _ => false
  }

  predicate CmdStuck(c: Control, branch: bool, lock: Owner) {
    || c.cmd.CNone? || c.cmd.CDone?
    || (c.cmd.CDtor? && DtorStuck(c.dtor, lock, c))
    || (c.cmd.CSubLock? && !c.subsLock.Nobody?)
    || (c.cmd.CReplyLock? && branch && !c.outLock.Nobody?)
  }

  function CmdNext(c: Control, branch: bool): CmdPc {
    match c.cmd
    case CNone => CNone
    case CLoop => if c.connected then CRead else CExit
    case CRead => if branch then CAct else CExit
    case CAct => if branch then CSubLock else CReplyLock
    case CSubLock => CSubWrite
    case CSubWrite => CSubUnlock
    case CSubUnlock => CReplyLock
    case CReplyLock => if branch then CReplyPush else CLoop
    case CReplyPush => CReplyUnlock
    case CReplyUnlock => CLoop
    case CExit => if c.killed then CDone else CDtor
    case CDtor => if c.dtor.DFree? then CDone else CDtor
    case CDone => CDone
  }

  /** CExit is the one step `ThreadRun2 = false` plus the test-and-set of killed. */
  function CmdCtl(c: Control, branch: bool): Control {
    if c.cmd.CDtor? then DtorCtl(c.dtor, c).(cmd := CmdNext(c, branch), dtor := After(c.dtor))
    else c.(
      cmd := CmdNext(c, branch),
      subsLock := if c.cmd.CSubLock? then ByCmd else if c.cmd.CSubUnlock? then Nobody else c.subsLock,
      outLock := if c.cmd.CReplyLock? && branch then ByCmd else if c.cmd.CReplyUnlock? then Nobody else c.outLock,
      closed := c.closed || (c.cmd.CRead? && !branch),
      threadRun2 := c.threadRun2 && !c.cmd.CExit?,
      killed := c.killed || c.cmd.CExit?,
      dtor := if c.cmd.CExit? then DClose else c.dtor)
  }

  /** The command runs at CAct, or under subscriptions_lock at CSubWrite. */
  function CmdMem(m: Memory, c: Control, branch: bool, e: Env): Memory {
    if c.cmd.CRead? && branch then
      m.(todo := Parse(e.text), line := e.text, lastPing := if e.text != "" then e.now else m.lastPing)
    else if (c.cmd.CAct? && !branch) || c.cmd.CSubWrite? then Ran(m)
    else if c.cmd.CReplyPush? then Pushed(m, Notice(if m.reply.Some? then m.reply.value else ""))
    else if c.cmd.CDtor? then DtorMem(c.dtor, m)
    else m
  }

  /** The command has run: new subscriptions, and the reply still to be sent. */
  function Ran(m: Memory): Memory {
    var (t, reply) := ExecCommand(m.todo, m.line, STAT, m.subs);
    m.(subs := t, reply := reply)
  }

  // ---------------------------------------------------------------- sender thread

  /** SenderThread. */
  function NextSnd(s: State, id: nat): Step {
    var c := Obj(s, id);
    if SndStuck(c.ctl) then Blocked
    else To(s.(objs := s.objs[id := Client(SndCtl(c.ctl, c.mem.outgoing == []), SndMem(c.mem, c.ctl))]))
  }

  predicate SndStuck(c: Control) {
    c.snd.SNone? || c.snd.SDone? || (c.snd.SLock? && !c.outLock.Nobody?)
  }

  function SndNext(c: Control, empty: bool): SndPc {
    match c.snd
    case SNone => SNone
    case SLoop => if c.connected then SLock else SStop
    case SLock => SPeek
    case SPeek => if empty then SUnlockEmpty else SUnlock
    case SUnlockEmpty => SLoop
    case SUnlock => SWrite
    case SWrite => SLoop
    case SStop => SDone
    case SDone => SDone
  }

  function SndCtl(c: Control, empty: bool): Control {
    c.(snd := SndNext(c, empty),
       outLock := if c.snd.SLock? then BySnd else if c.snd.SUnlockEmpty? || c.snd.SUnlock? then Nobody else c.outLock,
       threadRun := c.threadRun && !c.snd.SStop?)
  }

  /** SendLineNow drops the line once the client is disconnected. */
  function SndMem(m: Memory, c: Control): Memory {
    if c.snd.SPeek? && m.outgoing != [] then m.(outgoing := m.outgoing[1..], held := [m.outgoing[0]])
    else if c.snd.SWrite? then m.(held := [], written := if c.connected then m.written + m.held else m.written)
    else m
  }

  // ---------------------------------------------------------------- schedules

  function Next(s: State, t: Tid, e: Env): Step {
    match t
    case Listener => NextListener(s, e)
    case Pump => NextPump(s, e)
    case Killer => NextKiller(s, e)
    case Cmd(id) => NextCmd(s, id, e)
    case Snd(id) => NextSnd(s, id)
  }

  /** A scheduler's choice: who moves, and what the outside world answers. */
  datatype Pick = Pick(t: Tid, e: Env)

  /** The state after any schedule; picking a thread that cannot move changes nothing. */
  function Run(schedule: seq<Pick>): State {
    if schedule == [] then INIT
    else
      var p := schedule[|schedule| - 1];
      var s := Run(schedule[..|schedule| - 1]);
      match Next(s, p.t, p.e)
      case Blocked => s
      case To(u) => u
  }
}
