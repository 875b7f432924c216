/** That the daemon does its work: for every site and every edit a run in which a client connects, subscribes to the
    site, is told so, and is sent the edit.  src/xmlrcsd/server.cpp, src/xmlrcsd/client.cpp, src/xmlrcsd/streamitem.cpp. */
module DaemonWitness {
  import opened Base
  import opened Commands
  import opened Daemon
  import opened DaemonCommands
  import opened DaemonSafety

  const CLIENT := FIRST_ID

  /** The state of a daemon with one registered client and everybody else at rest. */
  function World(c: Client, pump: PumpState, lock: Owner, fanned: seq<Item>): State {
    State(map[CLIENT := c], [CLIENT], lock, CLIENT + 1, 1, 1, ListenerState(LAccept, CLIENT), pump,
          KillerState(KSleep, 0, 0, 0, DClose), fanned)
  }

  function Working(mem: Memory): Client {
    Client(Control(false, true, false, true, true, Nobody, Nobody, CLoop, DClose, SLoop, false, 0), mem)
  }

  const ANY := Env(true, None, "", 0)

  // ---------------------------------------------------------------- connecting

  lemma Go(schedule: seq<Pick>, t: Tid, e: Env, u: State) returns (more: seq<Pick>)
    requires Next(Run(schedule), t, e) == To(u)
    ensures Run(more) == u
  {
    RunOne(schedule, Pick(t, e));
    more := schedule + [Pick(t, e)];
  }

  function Arriving(pc: LisPc, lock: Owner, counted: int, clients: seq<nat>, c: Client): State {
    INIT.(objs := map[CLIENT := c], clients := clients, lock := lock, lastID := CLIENT + 1, users := counted, total := counted,
          lis := ListenerState(pc, CLIENT))
  }

  function Spawned(): Client {
    NewClient(0).(ctl := NewClient(0).ctl.(connected := true, snd := SLoop))
  }

  lemma Accepted() returns (schedule: seq<Pick>)
    ensures Run(schedule) == Arriving(LSpawn, Free, 1, [], NewClient(0))
  {
    schedule := Go([], Listener, ANY, Arriving(LCtorLock, Free, 0, [], NewClient(0)));
    schedule := Go(schedule, Listener, ANY, Arriving(LCount, Held(Listener), 0, [], NewClient(0)));
    schedule := Go(schedule, Listener, ANY, Arriving(LCtorUnlock, Held(Listener), 1, [], NewClient(0)));
    schedule := Go(schedule, Listener, ANY, Arriving(LSpawn, Free, 1, [], NewClient(0)));
  }

  lemma Enlisted() returns (schedule: seq<Pick>)
    ensures Run(schedule) == Arriving(LRegUnlock, Held(Listener), 1, [CLIENT], Spawned())
  {
    schedule := Accepted();
    schedule := Go(schedule, Listener, ANY, Arriving(LRegLock, Free, 1, [], Spawned()));
    schedule := Go(schedule, Listener, ANY, Arriving(LPush, Held(Listener), 1, [], Spawned()));
    schedule := Go(schedule, Listener, ANY, Arriving(LRegUnlock, Held(Listener), 1, [CLIENT], Spawned()));
  }

  lemma Registered() returns (schedule: seq<Pick>)
    ensures Run(schedule) == World(Working(NewClient(0).mem), PumpState(PIdle, Warn(""), 0), Free, [])
  {
    schedule := Enlisted();
    schedule := Go(schedule, Listener, ANY, Arriving(LLaunch, Free, 1, [CLIENT], Spawned()));
    schedule := Go(schedule, Listener, ANY, World(Working(NewClient(0).mem), PumpState(PIdle, Warn(""), 0), Free, []));
  }

  // ---------------------------------------------------------------- the client's own threads

  /** Further steps of the command thread. */
  function CmdSteps(c: Client, e: Env, n: nat): Client {
    if n == 0 then c else CmdStep(CmdSteps(c, e, n - 1), e)
  }

  predicate CmdFree(c: Client, e: Env) {
    !c.ctl.cmd.CDtor? && !CmdStuck(c.ctl, CmdBranch(c, e), Free)
  }

  lemma CmdMoves(c: Client, pump: PumpState, fanned: seq<Item>, e: Env)
    requires CmdFree(c, e)
    ensures Next(World(c, pump, Free, fanned), Cmd(CLIENT), e) == To(World(CmdStep(c, e), pump, Free, fanned))
  {
    assert map[CLIENT := c][CLIENT := CmdStep(c, e)] == map[CLIENT := CmdStep(c, e)];
  }

  lemma CmdGoesOne(schedule: seq<Pick>, c: Client, pump: PumpState, fanned: seq<Item>, e: Env) returns (more: seq<Pick>)
    requires Run(schedule) == World(c, pump, Free, fanned) && CmdFree(c, e)
    ensures Run(more) == World(CmdStep(c, e), pump, Free, fanned)
  {
    CmdMoves(c, pump, fanned, e);
    more := Go(schedule, Cmd(CLIENT), e, World(CmdStep(c, e), pump, Free, fanned));
  }

  lemma {:induction false} CmdGoes(schedule: seq<Pick>, c: Client, pump: PumpState, fanned: seq<Item>, e: Env, n: nat)
    returns (more: seq<Pick>)
    requires Run(schedule) == World(c, pump, Free, fanned)
    requires forall k | 0 <= k < n :: CmdFree(CmdSteps(c, e, k), e)
    ensures Run(more) == World(CmdSteps(c, e, n), pump, Free, fanned)
  {
    more := schedule;
    if n > 0 {
      more := CmdGoes(schedule, c, pump, fanned, e, n - 1);
      var d := CmdSteps(c, e, n - 1);
      more := CmdGoesOne(more, d, pump, fanned, e);
    }
  }

  function SndStep(c: Client): Client {
    Client(SndCtl(c.ctl, c.mem.outgoing == []), SndMem(c.mem, c.ctl))
  }

  function SndSteps(c: Client, n: nat): Client {
    if n == 0 then c else SndStep(SndSteps(c, n - 1))
  }

  lemma SndMoves(c: Client, pump: PumpState, fanned: seq<Item>)
    requires !SndStuck(c.ctl)
    ensures Next(World(c, pump, Free, fanned), Snd(CLIENT), ANY) == To(World(SndStep(c), pump, Free, fanned))
  {
    assert map[CLIENT := c][CLIENT := SndStep(c)] == map[CLIENT := SndStep(c)];
  }

  lemma SndGoesOne(schedule: seq<Pick>, c: Client, pump: PumpState, fanned: seq<Item>) returns (more: seq<Pick>)
    requires Run(schedule) == World(c, pump, Free, fanned) && !SndStuck(c.ctl)
    ensures Run(more) == World(SndStep(c), pump, Free, fanned)
  {
    SndMoves(c, pump, fanned);
    more := Go(schedule, Snd(CLIENT), ANY, World(SndStep(c), pump, Free, fanned));
  }

  lemma {:induction false} SndGoes(schedule: seq<Pick>, c: Client, pump: PumpState, fanned: seq<Item>, n: nat)
    returns (more: seq<Pick>)
    requires Run(schedule) == World(c, pump, Free, fanned)
    requires forall k | 0 <= k < n :: !SndStuck(SndSteps(c, k).ctl)
    ensures Run(more) == World(SndSteps(c, n), pump, Free, fanned)
  {
    more := schedule;
    if n > 0 {
      more := SndGoes(schedule, c, pump, fanned, n - 1);
      var d := SndSteps(c, n - 1);
      more := SndGoesOne(more, d, pump, fanned);
    }
  }

  /** The sender takes the first line and writes it. */
  lemma Sends(m: Memory)
    requires m.outgoing != [] && m.held == []
    ensures SndSteps(Working(m), 5) == Working(m.(outgoing := m.outgoing[1..], written := m.written + [m.outgoing[0]]))
    ensures forall k | 0 <= k < 5 :: !SndStuck(SndSteps(Working(m), k).ctl)
  {
    var c := Working(m);
    assert SndSteps(c, 0) == c;
    var c1 := SndSteps(c, 1);
    assert c1 == c.(ctl := c.ctl.(snd := SLock));
    var c2 := SndSteps(c, 2);
    assert c2 == c.(ctl := c.ctl.(snd := SPeek, outLock := BySnd));
    var taken := m.(outgoing := m.outgoing[1..], held := [m.outgoing[0]]);
    var c3 := SndSteps(c, 3);
    assert c3 == Client(c.ctl.(snd := SUnlock, outLock := BySnd), taken);
    var c4 := SndSteps(c, 4);
    assert c4 == Client(c.ctl.(snd := SWrite), taken);
  }

  /** The client with its command thread at another statement. */
  function AtCmd(cmd: CmdPc, subs: Holder, out: Holder, m: Memory): Client {
    Client(Working(m).ctl.(cmd := cmd, subsLock := subs, outLock := out), m)
  }

  /** The command thread has read the line and is to run it. */
  function Read(m: Memory, e: Env): Memory {
    m.(todo := Parse(e.text), line := e.text, lastPing := e.now)
  }

  lemma Takes3(m: Memory, e: Env)
    requires e.ok && e.text != "exit" && e.text != "" && TakesSubsLock(Parse(e.text), m.subs)
    ensures CmdSteps(Working(m), e, 3) == AtCmd(CSubLock, Nobody, Nobody, Read(m, e))
    ensures forall k | 0 <= k < 3 :: CmdFree(CmdSteps(Working(m), e, k), e)
  {
    ParseExit(e.text);
    assert CmdSteps(Working(m), e, 0) == AtCmd(CLoop, Nobody, Nobody, m);
    assert CmdSteps(Working(m), e, 1) == AtCmd(CRead, Nobody, Nobody, m);
    assert CmdSteps(Working(m), e, 2) == AtCmd(CAct, Nobody, Nobody, Read(m, e));
  }

  lemma Runs3(m: Memory, e: Env)
    ensures CmdSteps(AtCmd(CSubLock, Nobody, Nobody, m), e, 3) == AtCmd(CReplyLock, Nobody, Nobody, Ran(m))
    ensures forall k | 0 <= k < 3 :: CmdFree(CmdSteps(AtCmd(CSubLock, Nobody, Nobody, m), e, k), e)
  {
    var c := AtCmd(CSubLock, Nobody, Nobody, m);
    assert CmdSteps(c, e, 0) == c;
    assert CmdSteps(c, e, 1) == AtCmd(CSubWrite, ByCmd, Nobody, m);
    assert CmdSteps(c, e, 2) == AtCmd(CSubUnlock, ByCmd, Nobody, Ran(m));
  }

  lemma Answers3(m: Memory, e: Env)
    requires m.reply.Some?
    ensures CmdSteps(AtCmd(CReplyLock, Nobody, Nobody, m), e, 3) == Working(Pushed(m, Notice(m.reply.value)))
    ensures forall k | 0 <= k < 3 :: CmdFree(CmdSteps(AtCmd(CReplyLock, Nobody, Nobody, m), e, k), e)
  {
    var c := AtCmd(CReplyLock, Nobody, Nobody, m);
    assert CmdSteps(c, e, 0) == c;
    assert CmdSteps(c, e, 1) == AtCmd(CReplyPush, Nobody, ByCmd, m);
    assert CmdSteps(c, e, 2) == AtCmd(CReplyUnlock, Nobody, ByCmd, Pushed(m, Notice(m.reply.value)));
  }

  // ---------------------------------------------------------------- a fan-out

  function Locked(m: Memory, subs: Holder, out: Holder): Client {
    AtCmd(CLoop, subs, out, m)
  }

  function Fanning(m: Memory, subs: Holder, out: Holder, pc: PumpPc, item: Item, i: nat): State {
    World(Locked(m, subs, out), PumpState(pc, Fan(item), i), Held(Pump), [item])
  }

  lemma FanBegins(schedule: seq<Pick>, m: Memory, item: Item) returns (more: seq<Pick>)
    requires Run(schedule) == World(Working(m), PumpState(PIdle, Warn(""), 0), Free, [])
    ensures Run(more) == Fanning(m, Nobody, Nobody, PScan, item, 0)
  {
    var e := Env(true, Some(Fan(item)), "", 0);
    more := Go(schedule, Pump, e, World(Working(m), PumpState(PLock, Fan(item), 0), Free, []));
    more := Go(more, Pump, e, Fanning(m, Nobody, Nobody, PScan, item, 0));
  }

  lemma FanStarts(schedule: seq<Pick>, m: Memory, item: Item) returns (more: seq<Pick>)
    requires Run(schedule) == World(Working(m), PumpState(PIdle, Warn(""), 0), Free, [])
    ensures Run(more) == Fanning(m, ByPump, Nobody, PTest, item, 0)
  {
    more := FanBegins(schedule, m, item);
    more := Go(more, Pump, ANY, Fanning(m, Nobody, Nobody, PSubLock, item, 0));
    more := Go(more, Pump, ANY, Fanning(m, ByPump, Nobody, PTest, item, 0));
  }

  lemma FanTests(schedule: seq<Pick>, m: Memory, item: Item) returns (more: seq<Pick>)
    requires Run(schedule) == Fanning(m, ByPump, Nobody, PTest, item, 0) && Matches(m.subs, item.site)
    ensures Run(more) == Fanning(m.(seen := m.seen + [m.subs]), ByPump, ByPump, PPush, item, 0)
  {
    var seen := m.(seen := m.seen + [m.subs]);
    more := Go(schedule, Pump, ANY, Fanning(seen, ByPump, Nobody, POutLock, item, 0));
    more := Go(more, Pump, ANY, Fanning(seen, ByPump, ByPump, PPush, item, 0));
  }

  lemma FanPushes(schedule: seq<Pick>, m: Memory, item: Item) returns (more: seq<Pick>)
    requires Run(schedule) == Fanning(m, ByPump, ByPump, PPush, item, 0)
    ensures Run(more) == Fanning(Pushed(m, Edit(item.xml)), ByPump, Nobody, PSubUnlock, item, 0)
  {
    var pushed := Pushed(m, Edit(item.xml));
    more := Go(schedule, Pump, ANY, Fanning(pushed, ByPump, ByPump, POutUnlock, item, 0));
    more := Go(more, Pump, ANY, Fanning(pushed, ByPump, Nobody, PSubUnlock, item, 0));
  }

  lemma FanEnds(schedule: seq<Pick>, m: Memory, item: Item) returns (more: seq<Pick>)
    requires Run(schedule) == Fanning(m, ByPump, Nobody, PSubUnlock, item, 0)
    ensures Run(more) == World(Working(m), PumpState(PIdle, Fan(item), 1), Free, [item])
  {
    more := Go(schedule, Pump, ANY, Fanning(m, Nobody, Nobody, PScan, item, 1));
    more := Go(more, Pump, ANY, Fanning(m, Nobody, Nobody, PUnlock, item, 1));
    more := Go(more, Pump, Env(true, None, "", 0), World(Working(m), PumpState(PIdle, Fan(item), 1), Free, [item]));
  }

  // ---------------------------------------------------------------- the whole run

  lemma Subscribing(site: string, e: Env)
    requires 1 <= |site| <= 200 && site[0] != ' ' && site != "all" && e.text == "S " + site
    ensures var line := e.text;
      && line != "exit" && TakesSubsLock(Parse(line), NO_SUBS)
      && ExecCommand(Parse(line), line, STAT, NO_SUBS) == (Subs(false, [site]), Some("<ok>" + line + "</ok>"))
  {
    var line := e.text;
    assert line[..2] == "S " && line[2..] == site && line[0] == 'S';
    assert SkipSpaces(site) == site && NO_SUBS.names + [site] == [site];
  }

  /** The command thread of a client at rest reads a line, runs it and enqueues the answer. */
  lemma Obeys(schedule: seq<Pick>, m: Memory, pump: PumpState, e: Env) returns (more: seq<Pick>)
    requires Run(schedule) == World(Working(m), pump, Free, [])
    requires e.ok && e.text != "exit" && e.text != "" && TakesSubsLock(Parse(e.text), m.subs)
    requires Ran(Read(m, e)).reply.Some?
    ensures Run(more) == World(Working(Pushed(Ran(Read(m, e)), Notice(Ran(Read(m, e)).reply.value))), pump, Free, [])
  {
    var read := Read(m, e);
    Takes3(m, e);
    more := CmdGoes(schedule, Working(m), pump, [], e, 3);
    Runs3(read, e);
    more := CmdGoes(more, AtCmd(CSubLock, Nobody, Nobody, read), pump, [], e, 3);
    Answers3(Ran(read), e);
    more := CmdGoes(more, AtCmd(CReplyLock, Nobody, Nobody, Ran(read)), pump, [], e, 3);
  }

  /** The answered client has had the answer written to it. */
  lemma Told(site: string) returns (schedule: seq<Pick>, m: Memory)
    requires 1 <= |site| <= 200 && site[0] != ' ' && site != "all"
    ensures Run(schedule) == World(Working(m), PumpState(PIdle, Warn(""), 0), Free, [])
    ensures m.subs == Subs(false, [site]) && m.outgoing == [] && m.held == []
    ensures m.written == [Notice("<ok>" + ("S " + site) + "</ok>")]
  {
    var start, e := NewClient(0).mem, Env(true, None, "S " + site, 0);
    var idle := PumpState(PIdle, Warn(""), 0);
    Subscribing(site, e);
    schedule := Registered();
    schedule := Obeys(schedule, start, idle, e);
    var ran := Pushed(Ran(Read(start, e)), Notice(Ran(Read(start, e)).reply.value));
    Sends(ran);
    schedule := SndGoes(schedule, Working(ran), idle, [], 5);
    m := ran.(outgoing := ran.outgoing[1..], written := ran.written + [ran.outgoing[0]]);
  }

  /** For every site and every edit there is a run in which a client connects, subscribes to the site by name, and
      has written to it the answer and then the edit. */
  lemma EditGetsThrough(site: string, xml: string) returns (schedule: seq<Pick>)
    requires 1 <= |site| <= 200 && site[0] != ' ' && site != "all"
    ensures CLIENT in Run(schedule).objs
    ensures Run(schedule).objs[CLIENT].mem.written == [Notice("<ok>" + ("S " + site) + "</ok>"), Edit(xml)]
  {
    var m: Memory;
    schedule, m := Told(site);
    var item := Item(site, xml);
    schedule := FanStarts(schedule, m, item);
    schedule := FanTests(schedule, m, item);
    var seen := m.(seen := m.seen + [m.subs]);
    schedule := FanPushes(schedule, seen, item);
    var pushed := Pushed(seen, Edit(xml));
    schedule := FanEnds(schedule, pushed, item);
    Sends(pushed);
    schedule := SndGoes(schedule, Working(pushed), PumpState(PIdle, Fan(item), 1), [item], 5);
  }

  // ---------------------------------------------------------------- a warning and a ping

  function Warning(m: Memory, out: Holder, pc: PumpPc, text: string, i: nat): State {
    World(AtCmd(CLoop, Nobody, out, m), PumpState(pc, Warn(text), i), Held(Pump), [])
  }

  lemma WarnStarts(schedule: seq<Pick>, m: Memory, text: string) returns (more: seq<Pick>)
    requires Run(schedule) == World(Working(m), PumpState(PIdle, Warn(""), 0), Free, [])
    ensures Run(more) == Warning(m, Nobody, PScan, text, 0)
  {
    var e := Env(true, Some(Warn(text)), "", 0);
    more := Go(schedule, Pump, e, World(Working(m), PumpState(PLock, Warn(text), 0), Free, []));
    more := Go(more, Pump, e, Warning(m, Nobody, PScan, text, 0));
  }

  lemma WarnPushes(schedule: seq<Pick>, m: Memory, text: string) returns (more: seq<Pick>)
    requires Run(schedule) == Warning(m, Nobody, PScan, text, 0)
    ensures Run(more) == Warning(Pushed(m, Notice(text)), ByPump, POutUnlock, text, 0)
  {
    more := Go(schedule, Pump, ANY, Warning(m, Nobody, POutLock, text, 0));
    more := Go(more, Pump, ANY, Warning(m, ByPump, PPush, text, 0));
    more := Go(more, Pump, ANY, Warning(Pushed(m, Notice(text)), ByPump, POutUnlock, text, 0));
  }

  /** There is a run in which a warning reaches a client, whatever it is subscribed to. */
  lemma WarningGetsThrough(text: string) returns (schedule: seq<Pick>)
    ensures var s := Run(schedule); CLIENT in s.objs && s.objs[CLIENT].mem.written == [Notice(text)] && s.pump.pc.PIdle?
  {
    var m := NewClient(0).mem;
    var pushed := Pushed(m, Notice(text));
    schedule := Registered();
    schedule := WarnStarts(schedule, m, text);
    schedule := WarnPushes(schedule, m, text);
    schedule := Go(schedule, Pump, ANY, Warning(pushed, Nobody, PScan, text, 1));
    schedule := Go(schedule, Pump, ANY, Warning(pushed, Nobody, PUnlock, text, 1));
    schedule := Go(schedule, Pump, ANY, World(Working(pushed), PumpState(PIdle, Warn(text), 1), Free, []));
    Sends(pushed);
    schedule := SndGoes(schedule, Working(pushed), PumpState(PIdle, Warn(text), 1), [], 5);
  }

  /** The Killer at work on a client that was heard in time. */
  function Greeting(m: Memory, out: Holder, pc: KilPc, i: nat): State {
    World(AtCmd(CLoop, Nobody, out, m), PumpState(PIdle, Warn(""), 0),
          if pc.KSleep? || pc.KLock? then Free else Held(Killer), []).(kil := KillerState(pc, TIMEOUT, i, 0, DClose))
  }

  lemma SweepStarts() returns (schedule: seq<Pick>)
    ensures Run(schedule) == Greeting(NewClient(0).mem, Nobody, KScan, 0)
  {
    var m, e := NewClient(0).mem, Env(true, None, "", TIMEOUT);
    schedule := Registered();
    schedule := Go(schedule, Killer, e, Greeting(m, Nobody, KLock, 0));
    schedule := Go(schedule, Killer, e, Greeting(m, Nobody, KScan, 0));
  }

  lemma PingPushes(schedule: seq<Pick>, m: Memory) returns (more: seq<Pick>)
    requires Run(schedule) == Greeting(m, Nobody, KScan, 0) && m.lastPing == 0
    ensures Run(more) == Greeting(Pushed(m, Notice("<ping></ping>")), ByKiller, KOutUnlock, 0)
  {
    more := Go(schedule, Killer, ANY, Greeting(m, Nobody, KOutLock, 0));
    more := Go(more, Killer, ANY, Greeting(m, ByKiller, KPush, 0));
    more := Go(more, Killer, ANY, Greeting(Pushed(m, Notice("<ping></ping>")), ByKiller, KOutUnlock, 0));
  }

  /** There is a run in which a client heard within the last 80 seconds is pinged, and the sweep ends. */
  lemma PingGetsThrough() returns (schedule: seq<Pick>)
    ensures var s := Run(schedule);
      CLIENT in s.objs && s.objs[CLIENT].mem.enqueued == [Notice("<ping></ping>")] && s.kil.pc.KSleep? && s.lock.Free?
  {
    var m := Pushed(NewClient(0).mem, Notice("<ping></ping>"));
    schedule := SweepStarts();
    schedule := PingPushes(schedule, NewClient(0).mem);
    schedule := Go(schedule, Killer, ANY, Greeting(m, Nobody, KScan, 1));
    schedule := Go(schedule, Killer, ANY, Greeting(m, Nobody, KUnlock, 1));
    schedule := Go(schedule, Killer, ANY, Greeting(m, Nobody, KSleep, 1));
  }

  // ---------------------------------------------------------------- a silent client

  /** The Killer at work on the one client. */
  function Hunted(c: Control, lock: Owner, clients: seq<nat>, kil: KillerState): State {
    World(Client(c, NewClient(0).mem), PumpState(PIdle, Warn(""), 0), lock, []).(
      clients := clients, users := |clients|, kil := kil)
  }

  function Sweeping(pc: KilPc, id: nat, d: DtorPc): KillerState {
    KillerState(pc, TIMEOUT + 1, 0, id, d)
  }

  function Condemned(): Control {
    Working(NewClient(0).mem).ctl.(killed := true)
  }

  lemma Chosen() returns (schedule: seq<Pick>)
    ensures Run(schedule) == Hunted(Working(NewClient(0).mem).ctl, Held(Killer), [CLIENT], Sweeping(KKill, 0, DClose))
  {
    var c := Working(NewClient(0).mem).ctl;
    schedule := Registered();
    schedule := Go(schedule, Killer, Env(true, None, "", TIMEOUT + 1), Hunted(c, Free, [CLIENT], Sweeping(KLock, 0, DClose)));
    schedule := Go(schedule, Killer, ANY, Hunted(c, Held(Killer), [CLIENT], Sweeping(KScan, 0, DClose)));
    schedule := Go(schedule, Killer, ANY, Hunted(c, Held(Killer), [CLIENT], Sweeping(KKill, 0, DClose)));
  }

  lemma Killed() returns (schedule: seq<Pick>)
    ensures Run(schedule) == Hunted(Condemned(), Free, [CLIENT], Sweeping(KDtor, CLIENT, DClose))
  {
    var c := Condemned();
    schedule := Chosen();
    schedule := Go(schedule, Killer, ANY, Hunted(c, Held(Killer), [CLIENT], Sweeping(KRelease, CLIENT, DClose)));
    schedule := Go(schedule, Killer, ANY, Hunted(c, Free, [CLIENT], Sweeping(KDtor, CLIENT, DClose)));
  }

  lemma KillerDestroys(c: Control, lock: Owner, clients: seq<nat>, d: DtorPc)
    requires !DtorStuck(d, lock, c) && (d.DErase? ==> clients == [CLIENT])
    ensures NextKiller(Hunted(c, lock, clients, Sweeping(KDtor, CLIENT, d)), ANY) ==
      To(Hunted(DtorCtl(d, c), DtorLock(d, lock, Killer), if d.DErase? then [] else clients,
                Sweeping(if d.DFree? then KLock else KDtor, CLIENT, After(d))))
  {
  }

  /** One statement of the destructor, as the Killer runs it. */
  lemma Destroys(schedule: seq<Pick>, c: Control, lock: Owner, clients: seq<nat>, d: DtorPc) returns (more: seq<Pick>)
    requires Run(schedule) == Hunted(c, lock, clients, Sweeping(KDtor, CLIENT, d)) && !DtorStuck(d, lock, c)
    requires d.DErase? ==> clients == [CLIENT]
    ensures Run(more) == Hunted(DtorCtl(d, c), DtorLock(d, lock, Killer), if d.DErase? then [] else clients,
                                Sweeping(if d.DFree? then KLock else KDtor, CLIENT, After(d)))
  {
    KillerDestroys(c, lock, clients, d);
    more := Go(schedule, Killer, ANY,
               Hunted(DtorCtl(d, c), DtorLock(d, lock, Killer), if d.DErase? then [] else clients,
                      Sweeping(if d.DFree? then KLock else KDtor, CLIENT, After(d))));
  }

  function Closed(): Control {
    Condemned().(closed := true, connected := false)
  }

  lemma Disconnected() returns (schedule: seq<Pick>)
    ensures Run(schedule) == Hunted(Closed(), Free, [CLIENT], Sweeping(KDtor, CLIENT, DLock))
  {
    schedule := Killed();
    schedule := Destroys(schedule, Condemned(), Free, [CLIENT], DClose);
    schedule := Destroys(schedule, Condemned().(closed := true), Free, [CLIENT], DDisconnect);
  }

  lemma Unregistered() returns (schedule: seq<Pick>)
    ensures Run(schedule) == Hunted(Closed().(erased := true), Free, [], Sweeping(KDtor, CLIENT, DWaitSnd))
  {
    schedule := Disconnected();
    schedule := Destroys(schedule, Closed(), Free, [CLIENT], DLock);
    schedule := Destroys(schedule, Closed(), Held(Killer), [CLIENT], DErase);
    schedule := Destroys(schedule, Closed().(erased := true), Held(Killer), [], DUnlock);
    schedule := Destroys(schedule, Closed().(erased := true), Free, [], DStop);
  }

  /** The sender stops by itself. */
  lemma SenderEnds(schedule: seq<Pick>, c: Control, d: DtorPc) returns (more: seq<Pick>)
    requires Run(schedule) == Hunted(c, Free, [], Sweeping(KDtor, CLIENT, d)) && c.snd.SLoop? && !c.connected
    ensures Run(more) == Hunted(c.(snd := SDone, threadRun := false), Free, [], Sweeping(KDtor, CLIENT, d))
  {
    more := Go(schedule, Snd(CLIENT), ANY, Hunted(c.(snd := SStop), Free, [], Sweeping(KDtor, CLIENT, d)));
    more := Go(more, Snd(CLIENT), ANY,
               Hunted(c.(snd := SDone, threadRun := false), Free, [], Sweeping(KDtor, CLIENT, d)));
  }

  /** So does the command thread, which finds the client killed already. */
  lemma SessionEnds(schedule: seq<Pick>, c: Control, d: DtorPc) returns (more: seq<Pick>)
    requires Run(schedule) == Hunted(c, Free, [], Sweeping(KDtor, CLIENT, d)) && c.cmd.CLoop? && !c.connected && c.killed
    requires c.dtor.DClose?
    ensures Run(more) == Hunted(c.(cmd := CDone, threadRun2 := false), Free, [], Sweeping(KDtor, CLIENT, d))
  {
    more := Go(schedule, Cmd(CLIENT), ANY, Hunted(c.(cmd := CExit), Free, [], Sweeping(KDtor, CLIENT, d)));
    more := Go(more, Cmd(CLIENT), ANY, Hunted(c.(cmd := CDone, threadRun2 := false), Free, [], Sweeping(KDtor, CLIENT, d)));
  }

  /** There is a run in which a client that says nothing is killed, unregistered and, once its threads are done,
      freed. */
  lemma SilentIsFreed() returns (schedule: seq<Pick>)
    ensures var s := Run(schedule); CLIENT in s.objs && s.objs[CLIENT].ctl.frees == 1 && s.clients == []
  {
    var c := Closed().(erased := true);
    schedule := Unregistered();
    schedule := SenderEnds(schedule, c, DWaitSnd);
    c := c.(snd := SDone, threadRun := false);
    schedule := Destroys(schedule, c, Free, [], DWaitSnd);
    schedule := SessionEnds(schedule, c, DWaitCmd);
    c := c.(cmd := CDone, threadRun2 := false);
    schedule := Destroys(schedule, c, Free, [], DWaitCmd);
    schedule := Destroys(schedule, c, Free, [], DFree);
  }
}
