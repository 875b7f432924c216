/** es2r's supervisor, watchdog and stream workers as a timed step system over any interleaving.
    src/es2r/es2r.py.  Setting the request (with its test), clearing it, and taking the event source
    under stream_lock are one step each. */
module Supervisor {
  import opened Base

  // ---------------------------------------------------------------- program counters

  /** run(): heartbeat, the branches of the loop body, and sleep(1). */
  datatype SuperPc = VBeat | VTake | VIsSet | VAlive | VStall | VClear | VSpare | VStart | VSleep

  /** watchdog_loop with request_reconnect inlined. */
  datatype DogPc = DCheck | DTake

  /** stream_worker_loop.  WLeave is the finally clause on the way to the test of the request,
      WContinue the same clause on a `continue`, which skips that test. */
  datatype WorkerPc = WConnect | WInstall | WFetch | WLoop | WNext | WProcess | WLeave | WContinue | WTest | WDead

  /** A worker and the source it has opened but not yet installed. */
  datatype Worker = Worker(pc: WorkerPc, src: nat)

  /** What a worker's calls come to: connecting or reading succeeds; fails in a handled way or ends
      the stream; or raises something that the outer handlers catch. */
  datatype Outcome = Fine | Fails | Raises

  datatype State = State(
    now: int, exited: bool,
    requested: bool, requestedAt: int,
    super: SuperPc, dog: DogPc, workers: seq<Worker>,
    source: Option<nat>,  // self.event_source
    lastPass: int,        // history: when the supervisor last decided about the request
    lastStart: int, prevStart: int, // history: when this and the last iteration of its loop started
    made: nat, taken: seq<nat>, // history: sources opened so far, and taken for closing
    during: nat)          // history: events processed since the pending request was made

  /** Who moves.  `want` is the outcome of a heartbeat or of the watchdog's comparison. */
  datatype Action = Super(want: bool) | Dog(want: bool) | Work(i: nat, o: Outcome) | Tick(d: nat)

  /** worker_shutdown_timeout; how long one iteration of the supervisor's loop may take; and how long it may
      be from one decision about the request to the next.  Two decisions fall into neighbouring
      iterations, so that a gap of 2 * pace or more asks for nothing beyond the pace. */
  datatype Config = Config(timeout: int, pace: int, gap: int)

  const INIT := State(0, false, false, 0, VBeat, DCheck, [Worker(WConnect, 0)], None, 0, 0, 0, 0, [], 0)

  // ---------------------------------------------------------------- steps

  /** close_event_stream: take and null under stream_lock. */
  function WithTaken(s: State): seq<nat> {
    if s.source.Some? then s.taken + [s.source.value] else s.taken
  }

  /** stream_thread.is_alive(); stream_thread is the worker started last. */
  predicate StreamAlive(s: State) {
    s.workers != [] && !s.workers[|s.workers| - 1].pc.WDead?
  }

  function SuperNext(s: State, want: bool): SuperPc {
    match s.super
    case VBeat => if want && !s.requested then VTake else VIsSet
    case VTake => VIsSet
    case VIsSet => if s.requested then VAlive else VSpare
    case VAlive => if StreamAlive(s) then VStall else VClear
    case VStall => VSleep
    case VClear => VStart
    case VSpare => if StreamAlive(s) then VSleep else VStart
    case VStart => VSleep
    case VSleep => VBeat
  }

  function SuperStep(cfg: Config, s: State, want: bool): State {
    var asks := s.super.VBeat? && want && !s.requested;
    s.(super := SuperNext(s, want),
       requested := (s.requested || asks) && !s.super.VClear?,
       requestedAt := if asks then s.now else s.requestedAt,
       during := if asks then 0 else s.during,
       source := if s.super.VTake? then None else s.source,
       taken := if s.super.VTake? then WithTaken(s) else s.taken,
       exited := s.super.VStall? && s.now - s.requestedAt > cfg.timeout,
       lastPass := if s.super.VStall? || s.super.VClear? || (s.super.VIsSet? && !s.requested) then s.now else s.lastPass,
       lastStart := if s.super.VSleep? then s.now else s.lastStart,
       prevStart := if s.super.VSleep? then s.lastStart else s.prevStart,
       workers := if s.super.VStart? then s.workers + [Worker(WConnect, 0)] else s.workers)
  }

  function DogStep(s: State, want: bool): State {
    var asks := s.dog.DCheck? && want && !s.requested;
    s.(dog := if asks then DTake else DCheck,
       requested := s.requested || asks,
       requestedAt := if asks then s.now else s.requestedAt,
       during := if asks then 0 else s.during,
       source := if s.dog.DTake? then None else s.source,
       taken := if s.dog.DTake? then WithTaken(s) else s.taken)
  }

  function WorkerNext(s: State, pc: WorkerPc, o: Outcome): WorkerPc {
    match pc
    case WConnect => if o.Fine? then WInstall else if o.Fails? then WContinue else WLeave
    case WInstall => WFetch
    case WFetch => if s.source.None? then WContinue else if o.Fine? then WLoop else WLeave
    case WLoop => if s.requested then WLeave else WNext
    case WNext => if o.Fine? then WProcess else WLeave
    case WProcess => if o.Fine? then WLoop else WLeave
    case WLeave => WTest
    case WContinue => WConnect
    case WTest => if s.requested then WDead else WConnect
    case WDead => WDead
  }

  function WorkerStep(s: State, i: nat, o: Outcome): State
    requires i < |s.workers|
  {
    var w := s.workers[i];
    var closes := w.pc.WLeave? || w.pc.WContinue?;
    s.(workers := s.workers[i := Worker(WorkerNext(s, w.pc, o), if w.pc.WConnect? then s.made else w.src)],
       made := if w.pc.WConnect? && o.Fine? then s.made + 1 else s.made,
       source := if w.pc.WInstall? then Some(w.src) else if closes then None else s.source,
       taken := if closes then WithTaken(s) else s.taken,
       during := if w.pc.WProcess? && s.requested then s.during + 1 else s.during)
  }

  /** One step; time passes only while the supervisor keeps its pace and its gap. */
  function Step(cfg: Config, s: State, a: Action): State {
    if s.exited then s
    else
      match a
      case Super(want) => SuperStep(cfg, s, want)
      case Dog(want) => DogStep(s, want)
      case Work(i, o) => if i < |s.workers| && !s.workers[i].pc.WDead? then WorkerStep(s, i, o) else s
      case Tick(d) =>
        if s.now + d <= s.lastStart + cfg.pace && s.now + d <= s.lastPass + cfg.gap then s.(now := s.now + d) else s
  }

  function Run(cfg: Config, acts: seq<Action>): State {
    if acts == [] then INIT
    else Step(cfg, Run(cfg, acts[..|acts| - 1]), acts[|acts| - 1])
  }

  // ---------------------------------------------------------------- invariant

  predicate Alive(s: State, i: nat) {
    i < |s.workers| && !s.workers[i].pc.WDead?
  }

  /** All workers but the last are dead, and the supervisor starts one only when that is too. */
  ghost predicate OneWorker(s: State) {
    && s.workers != []
    && (forall i | 0 <= i < |s.workers| - 1 :: s.workers[i].pc.WDead?)
    && (s.super.VClear? || s.super.VStart? ==> !StreamAlive(s))
  }

  /** The last worker. */
  function Cur(s: State): Worker {
    if s.workers == [] then Worker(WDead, 0) else s.workers[|s.workers| - 1]
  }

  ghost predicate OneEvent(s: State) {
    s.requested ==> s.during <= 1 && (s.during == 1 ==> !Cur(s).pc.WNext? && !Cur(s).pc.WProcess?)
  }

  ghost predicate InTime(cfg: Config, s: State) {
    && s.lastPass <= s.now <= s.lastPass + cfg.gap
    && s.prevStart <= s.lastStart <= s.now <= s.lastStart + cfg.pace
    && s.lastStart <= s.prevStart + cfg.pace
    && s.prevStart <= s.lastPass
    && (s.super.VSpare? || s.super.VStart? || s.super.VSleep? ==> s.lastStart <= s.lastPass)
    && s.requestedAt <= s.now
    && (s.requested && !s.exited ==> s.lastPass <= s.requestedAt + cfg.timeout)
    && (s.super.VAlive? || s.super.VStall? || s.super.VClear? ==> s.requested)
  }

  /** Every source opened is taken exactly once, is installed, or is still the worker's own. */
  ghost predicate Sources(s: State) {
    && NoDup(s.taken)
    && (forall x | x in s.taken :: x < s.made)
    && (s.source.Some? ==> s.source.value < s.made && s.source.value !in s.taken)
    && (Cur(s).pc.WInstall? ==> s.source.None? && Cur(s).src < s.made && Cur(s).src !in s.taken)
    && (Cur(s).pc.WConnect? || Cur(s).pc.WTest? || Cur(s).pc.WDead? ==> s.source.None?)
    && (forall x: nat | x < s.made && x !in s.taken :: s.source == Some(x) || (Cur(s).pc.WInstall? && Cur(s).src == x))
  }

  ghost predicate Inv(cfg: Config, s: State) {
    OneWorker(s) && OneEvent(s) && InTime(cfg, s) && Sources(s)
  }

  lemma SuperKeeps(cfg: Config, s: State, want: bool)
    requires Inv(cfg, s) && !s.exited && cfg.timeout >= 0
    ensures OneWorker(SuperStep(cfg, s, want))
    ensures OneEvent(SuperStep(cfg, s, want))
    ensures InTime(cfg, SuperStep(cfg, s, want))
    ensures Sources(SuperStep(cfg, s, want))
  {
  }

  lemma DogKeeps(cfg: Config, s: State, want: bool)
    requires Inv(cfg, s) && !s.exited && cfg.timeout >= 0
    ensures Inv(cfg, DogStep(s, want))
  {
  }

  lemma WorkKeeps(cfg: Config, s: State, i: nat, o: Outcome)
    requires Inv(cfg, s) && !s.exited && Alive(s, i)
    ensures OneWorker(WorkerStep(s, i, o))
    ensures OneEvent(WorkerStep(s, i, o))
    ensures InTime(cfg, WorkerStep(s, i, o))
    ensures Sources(WorkerStep(s, i, o))
  {
  }

  lemma StepKeeps(cfg: Config, s: State, a: Action)
    requires Inv(cfg, s) && cfg.timeout >= 0
    ensures Inv(cfg, Step(cfg, s, a))
  {
    if !s.exited {
      match a
      case Super(want) => SuperKeeps(cfg, s, want);
      case Dog(want) => DogKeeps(cfg, s, want);
      case Work(i, o) => if Alive(s, i) { WorkKeeps(cfg, s, i, o); }
      case Tick(d) =>
    }
  }

  predicate Sane(cfg: Config) {
    cfg.timeout >= 0 && cfg.pace >= 0 && cfg.gap >= 0
  }

  lemma InitInv(cfg: Config, s: State)
    requires Sane(cfg)
    requires s == INIT
    ensures Inv(cfg, s)
  {
    assert s.workers[|s.workers| - 1] == Worker(WConnect, 0);
  }

  lemma {:induction false} RunInv(cfg: Config, acts: seq<Action>)
    requires Sane(cfg)
    ensures Inv(cfg, Run(cfg, acts))
  {
    if acts == [] {
      InitInv(cfg, INIT);
    } else {
      RunInv(cfg, acts[..|acts| - 1]);
      StepKeeps(cfg, Run(cfg, acts[..|acts| - 1]), acts[|acts| - 1]);
    }
  }

  // ---------------------------------------------------------------- what every run keeps

  /** At most one stream worker is alive. */
  lemma OnlyOneAlive(cfg: Config, acts: seq<Action>, i: nat, j: nat)
    requires Sane(cfg)
    requires Alive(Run(cfg, acts), i) && Alive(Run(cfg, acts), j)
    ensures i == j
  {
    RunInv(cfg, acts);
  }

  /** Only the supervisor withdraws a request, only when no worker is left alive, and as its next step it
      starts one. */
  lemma ClearedOnlyWhenDead(cfg: Config, acts: seq<Action>, a: Action)
    requires Sane(cfg)
    ensures var s := Run(cfg, acts);
      s.requested && !Step(cfg, s, a).requested ==>
        s.super.VClear? && Step(cfg, s, a).super.VStart? && forall i: nat :: !Alive(s, i)
  {
    RunInv(cfg, acts);
    var s := Run(cfg, acts);
    if s.requested && !Step(cfg, s, a).requested {
      assert a.Super? && s.super.VClear?;
      forall i: nat ensures !Alive(s, i) {
        if i < |s.workers| - 1 {
          assert s.workers[i].pc.WDead?;
        }
      }
    }
  }

  /** While a request is pending at most one more event is processed, even if it came at the worst moment. */
  lemma OneEventWhilePending(cfg: Config, acts: seq<Action>)
    requires Sane(cfg)
    ensures Run(cfg, acts).requested ==> EventsSince(cfg, acts) <= 1
  {
    HistoryExact(cfg, acts);
    RunInv(cfg, acts);
  }

  lemma RunOne(cfg: Config, acts: seq<Action>, a: Action)
    ensures Run(cfg, acts + [a]) == Step(cfg, Run(cfg, acts), a)
  {
    assert (acts + [a])[..|acts|] == acts;
  }

  // ---------------------------------------------------------------- every request gets its new worker

  /** How often the supervisor has run stream_thread.start(). */
  function Started(cfg: Config, acts: seq<Action>): nat {
    if acts == [] then 0
    else
      var before, a := acts[..|acts| - 1], acts[|acts| - 1];
      Started(cfg, before) + (if a.Super? && Run(cfg, before).super.VStart? && !Run(cfg, before).exited then 1 else 0)
  }

  /** How often a request was withdrawn. */
  function Withdrawn(cfg: Config, acts: seq<Action>): nat {
    if acts == [] then 0
    else
      var before := acts[..|acts| - 1];
      Withdrawn(cfg, before) + (if Run(cfg, before).requested && !Run(cfg, acts).requested then 1 else 0)
  }

  /** In every run the step that starts a worker leaves exactly one alive: a new one, about to connect. */
  lemma StartLeavesOne(cfg: Config, acts: seq<Action>, want: bool)
    requires Sane(cfg) && Run(cfg, acts).super.VStart? && !Run(cfg, acts).exited
    ensures var s, u := Run(cfg, acts), Run(cfg, acts + [Super(want)]);
      && |u.workers| == |s.workers| + 1 && u.workers[|s.workers|].pc.WConnect?
      && forall i: nat :: Alive(u, i) <==> i == |s.workers|
  {
    RunOne(cfg, acts, Super(want));
    RunInv(cfg, acts + [Super(want)]);
  }

  lemma StepCounts(cfg: Config, s: State, a: Action)
    requires Inv(cfg, s)
    ensures var u := Step(cfg, s, a);
      && |u.workers| == |s.workers| + (if a.Super? && s.super.VStart? && !s.exited then 1 else 0)
      && (s.requested && !u.requested ==> a.Super? && !s.exited && s.super.VClear? && u.super.VStart?)
      && (s.super.VStart? && !u.super.VStart? ==> a.Super? && !s.exited)
  {
  }

  /** In every run there are as many workers as the first one and those the supervisor has started, and every
      request withdrawn has its worker as soon as the supervisor has passed the start. */
  lemma {:induction false} EveryRequestReplaced(cfg: Config, acts: seq<Action>)
    requires Sane(cfg)
    ensures |Run(cfg, acts).workers| == 1 + Started(cfg, acts)
    ensures Withdrawn(cfg, acts) <= Started(cfg, acts) + (if Run(cfg, acts).super.VStart? then 1 else 0)
  {
    if acts != [] {
      var before := acts[..|acts| - 1];
      EveryRequestReplaced(cfg, before);
      RunInv(cfg, before);
      StepCounts(cfg, Run(cfg, before), acts[|acts| - 1]);
    }
  }

  /** A decision that finds no worker alive, asked or not, has a new one before its iteration is over. */
  lemma DeadIsReplaced(cfg: Config, acts: seq<Action>)
    requires Sane(cfg) && Run(cfg, acts).super.VIsSet? && !Run(cfg, acts).exited && !StreamAlive(Run(cfg, acts))
    ensures var u := Run(cfg, acts + [Super(false)] + [Super(false)] + [Super(false)] + [Super(false)]);
      |u.workers| == |Run(cfg, acts).workers| + 1 && StreamAlive(u) && !u.requested
  {
    RunOne(cfg, acts, Super(false));
    var a1 := acts + [Super(false)];
    RunOne(cfg, a1, Super(false));
    var a2 := a1 + [Super(false)];
    RunOne(cfg, a2, Super(false));
    var a3 := a2 + [Super(false)];
    RunOne(cfg, a3, Super(false));
  }

  /** Whoever asks, supervisor or watchdog, takes the event source for closing as its next step. */
  lemma AskingCloses(cfg: Config, acts: seq<Action>, a: Action)
    requires Sane(cfg) && !Run(cfg, acts).requested && !Run(cfg, acts).exited
    requires (a == Super(true) && Run(cfg, acts).super.VBeat?) || (a == Dog(true) && Run(cfg, acts).dog.DCheck?)
    ensures var s, u := Run(cfg, acts), Run(cfg, acts + [a] + [a]);
      && u.requested && u.requestedAt == s.now && u.source.None?
      && (s.source.Some? ==> s.source.value in u.taken)
  {
    RunOne(cfg, acts, a);
    RunOne(cfg, acts + [a], a);
  }

  /** The supervisor's last step so far, or the watchdog's, was to make a request. */
  predicate AskedLast(cfg: Config, acts: seq<Action>, bySuper: bool) {
    acts != [] &&
    var before, a := acts[..|acts| - 1], acts[|acts| - 1];
    if !Run(cfg, before).exited && (if bySuper then a.Super? else a.Dog?) then
      !Run(cfg, before).requested && Run(cfg, acts).requested
    else AskedLast(cfg, before, bySuper)
  }

  lemma {:induction false} TakersHaveAsked(cfg: Config, acts: seq<Action>)
    ensures Run(cfg, acts).super.VTake? ==> AskedLast(cfg, acts, true)
    ensures Run(cfg, acts).dog.DTake? ==> AskedLast(cfg, acts, false)
  {
    if acts != [] {
      TakersHaveAsked(cfg, acts[..|acts| - 1]);
    }
  }

  predicate Closing(pc: WorkerPc) {
    pc.WLeave? || pc.WContinue?
  }

  /** In every run a worker's event source is taken from it only by the worker itself at the end of its iteration, or
      by whoever has made a request with its last step. */
  lemma OnlyAskersTake(cfg: Config, acts: seq<Action>, a: Action)
    requires Run(cfg, acts).source.Some? && Run(cfg, acts + [a]).source.None?
    ensures !a.Tick?
    ensures a.Super? || a.Dog? ==> AskedLast(cfg, acts, a.Super?)
    ensures a.Work? ==> Alive(Run(cfg, acts), a.i) && Closing(Run(cfg, acts).workers[a.i].pc)
  {
    RunOne(cfg, acts, a);
    TakersHaveAsked(cfg, acts);
  }

  // ---------------------------------------------------------------- when a request was made, and what happens meanwhile

  /** The step has made a request. */
  predicate Asks(cfg: Config, acts: seq<Action>) {
    acts != [] && !Run(cfg, acts[..|acts| - 1]).requested && Run(cfg, acts).requested
  }

  /** When the last request was made. */
  function AskedAt(cfg: Config, acts: seq<Action>): int {
    if acts == [] then 0 else if Asks(cfg, acts) then Run(cfg, acts).now else AskedAt(cfg, acts[..|acts| - 1])
  }

  /** The step has a worker process an event. */
  predicate Processes(cfg: Config, acts: seq<Action>) {
    acts != [] &&
    var s, a := Run(cfg, acts[..|acts| - 1]), acts[|acts| - 1];
    !s.exited && a.Work? && a.i < |s.workers| && s.workers[a.i].pc.WProcess?
  }

  /** Events processed while a request was pending, since the last one was made. */
  function EventsSince(cfg: Config, acts: seq<Action>): nat {
    if acts == [] || Asks(cfg, acts) then 0
    else
      var before := acts[..|acts| - 1];
      EventsSince(cfg, before) + (if Processes(cfg, acts) && Run(cfg, before).requested then 1 else 0)
  }

  lemma StepHistory(cfg: Config, s: State, a: Action)
    ensures var u := Step(cfg, s, a);
      && u.requestedAt == (if !s.requested && u.requested then u.now else s.requestedAt)
      && u.during ==
           if !s.requested && u.requested then 0
           else if !s.exited && a.Work? && a.i < |s.workers| && s.workers[a.i].pc.WProcess? && s.requested then s.during + 1
           else s.during
  {
  }

  /** In every run the two fields say just that: nothing sets a pending request's time again. */
  lemma {:induction false} HistoryExact(cfg: Config, acts: seq<Action>)
    ensures Run(cfg, acts).requestedAt == AskedAt(cfg, acts) && Run(cfg, acts).during == EventsSince(cfg, acts)
  {
    if acts != [] {
      HistoryExact(cfg, acts[..|acts| - 1]);
      StepHistory(cfg, Run(cfg, acts[..|acts| - 1]), acts[|acts| - 1]);
    }
  }

  // ---------------------------------------------------------------- workers at work

  predicate InLoop(pc: WorkerPc) {
    pc.WLoop? || pc.WNext? || pc.WProcess?
  }

  lemma WorkerTurns(s: State, i: nat, o: Outcome)
    requires Alive(s, i)
    ensures var pc, next := s.workers[i].pc, WorkerStep(s, i, o).workers[i].pc;
      && (InLoop(pc) ==> (InLoop(next) <==> if pc.WLoop? then !s.requested else o.Fine?))
      && (InLoop(pc) && !InLoop(next) ==> next.WLeave?)
      && (next.WDead? <==> pc.WTest? && s.requested)
      && (InLoop(next) && !InLoop(pc) ==> pc.WFetch? && o.Fine? && s.source.Some?)
  {
  }

  lemma WorkerRun(cfg: Config, acts: seq<Action>, i: nat, o: Outcome)
    requires Alive(Run(cfg, acts), i) && !Run(cfg, acts).exited
    ensures Run(cfg, acts + [Work(i, o)]) == WorkerStep(Run(cfg, acts), i, o)
  {
    RunOne(cfg, acts, Work(i, o));
  }

  /** In every run a worker stays in its event loop only while all goes well and no request is seen, and it dies only
      at its test of a pending request. */
  lemma WorkerLeaves(cfg: Config, acts: seq<Action>, i: nat, o: Outcome)
    requires Alive(Run(cfg, acts), i) && !Run(cfg, acts).exited
    ensures var s := Run(cfg, acts);
      var pc, next := s.workers[i].pc, Run(cfg, acts + [Work(i, o)]).workers[i].pc;
      && (InLoop(pc) ==> (InLoop(next) <==> if pc.WLoop? then !s.requested else o.Fine?))
      && (InLoop(pc) && !InLoop(next) ==> next.WLeave?)
      && (next.WDead? <==> pc.WTest? && s.requested)
      && (InLoop(next) && !InLoop(pc) ==> pc.WFetch? && o.Fine? && s.source.Some?)
  {
    WorkerRun(cfg, acts, i, o);
    WorkerTurns(Run(cfg, acts), i, o);
  }

  /** How many events the run has had processed. */
  function Processed(cfg: Config, acts: seq<Action>): nat {
    if acts == [] then 0 else Processed(cfg, acts[..|acts| - 1]) + (if Processes(cfg, acts) then 1 else 0)
  }

  /** The first worker is at the top of its event loop, and nobody has asked. */
  predicate Serving(s: State) {
    && !s.exited && !s.requested && s.workers == [Worker(WLoop, 0)] && s.source == Some(0)
  }

  lemma ProcessedOne(cfg: Config, acts: seq<Action>, a: Action)
    ensures Processed(cfg, acts + [a]) == Processed(cfg, acts) +
      (if !Run(cfg, acts).exited && a.Work? && a.i < |Run(cfg, acts).workers| && Run(cfg, acts).workers[a.i].pc.WProcess?
       then 1 else 0)
  {
    assert (acts + [a])[..|acts|] == acts;
  }

  lemma Serve(cfg: Config, acts: seq<Action>) returns (more: seq<Action>)
    requires Serving(Run(cfg, acts))
    ensures Serving(Run(cfg, more)) && Processed(cfg, more) == Processed(cfg, acts) + 1
  {
    var fine := Work(0, Fine);
    RunOne(cfg, acts, fine);
    ProcessedOne(cfg, acts, fine);
    var a1 := acts + [fine];
    RunOne(cfg, a1, fine);
    ProcessedOne(cfg, a1, fine);
    var a2 := a1 + [fine];
    RunOne(cfg, a2, fine);
    ProcessedOne(cfg, a2, fine);
    more := a2 + [fine];
  }

  lemma StartServing(cfg: Config) returns (acts: seq<Action>)
    ensures Serving(Run(cfg, acts)) && Processed(cfg, acts) == 0
  {
    var fine := Work(0, Fine);
    RunOne(cfg, [], fine);
    ProcessedOne(cfg, [], fine);
    acts := [] + [fine];
    RunOne(cfg, acts, fine);
    ProcessedOne(cfg, acts, fine);
    acts := acts + [fine];
    RunOne(cfg, acts, fine);
    ProcessedOne(cfg, acts, fine);
    acts := acts + [fine];
  }

  /** For every number of events a run in which the one worker processes them all. */
  lemma {:induction false} EventsFlow(cfg: Config, n: nat) returns (acts: seq<Action>)
    ensures Serving(Run(cfg, acts)) && Processed(cfg, acts) == n
  {
    if n == 0 {
      acts := StartServing(cfg);
    } else {
      acts := EventsFlow(cfg, n - 1);
      acts := Serve(cfg, acts);
    }
  }

  predicate Pending(s: State) {
    s.requested && !s.exited
  }

  /** A request is never pending longer than worker_shutdown_timeout plus two iterations of the supervisor,
      or plus the gap between two decisions if that is shorter. */
  lemma Deadline(cfg: Config, acts: seq<Action>)
    requires Sane(cfg)
    ensures var s := Run(cfg, acts);
      Pending(s) ==> s.now <= AskedAt(cfg, acts) + cfg.timeout + Min(cfg.gap, 2 * cfg.pace)
  {
    HistoryExact(cfg, acts);
    RunInv(cfg, acts);
  }

  /** No source is taken for closing twice, none is installed over another, and once the worker has
      ended its iteration every source opened so far has been taken. */
  lemma SourcesTakenOnce(cfg: Config, acts: seq<Action>)
    requires Sane(cfg)
    ensures var s := Run(cfg, acts);
      && NoDup(s.taken)
      && (Cur(s).pc.WInstall? ==> s.source.None?)
      && (Cur(s).pc.WConnect? || Cur(s).pc.WTest? || Cur(s).pc.WDead? ==> forall x: nat :: x < s.made <==> x in s.taken)
  {
    RunInv(cfg, acts);
    var s := Run(cfg, acts);
    if Cur(s).pc.WConnect? || Cur(s).pc.WTest? || Cur(s).pc.WDead? {
      forall x: nat ensures x < s.made <==> x in s.taken {
      }
    }
  }

  // ---------------------------------------------------------------- the deadline cannot be earlier

  /** A request made at 0 is pending on a worker that does not move, and an iteration starts at time t, just
      after a decision. */
  predicate Waiting(s: State, t: int) {
    && Pending(s) && s.requestedAt == 0 && s.super.VBeat? && StreamAlive(s)
    && s.now == t && s.lastStart == t && s.lastPass == t
  }

  /** The steps of the supervisor from the start of an iteration up to its sleep. */
  lemma Decide(cfg: Config, acts: seq<Action>) returns (more: seq<Action>)
    requires var s := Run(cfg, acts); Pending(s) && s.requestedAt == 0 && s.super.VBeat? && StreamAlive(s) && s.now <= cfg.timeout
    ensures Run(cfg, more) == Run(cfg, acts).(super := VSleep, lastPass := Run(cfg, acts).now)
  {
    RunOne(cfg, acts, Super(false));
    var a1 := acts + [Super(false)];
    RunOne(cfg, a1, Super(false));
    var a2 := a1 + [Super(false)];
    RunOne(cfg, a2, Super(false));
    var a3 := a2 + [Super(false)];
    RunOne(cfg, a3, Super(false));
    more := a3 + [Super(false)];
  }

  /** One iteration that starts at t and ends at t + d. */
  lemma Lap(cfg: Config, acts: seq<Action>, t: int, d: nat) returns (more: seq<Action>)
    requires Waiting(Run(cfg, acts), t) && d <= cfg.pace && d <= cfg.gap && t + d <= cfg.timeout
    ensures Waiting(Run(cfg, more), t + d)
  {
    RunOne(cfg, acts, Tick(d));
    more := Decide(cfg, acts + [Tick(d)]);
    RunOne(cfg, more, Super(false));
    more := more + [Super(false)];
  }

  lemma Laps(cfg: Config, acts: seq<Action>, t: int) returns (more: seq<Action>)
    requires cfg.pace > 0 && cfg.gap > 0 && Waiting(Run(cfg, acts), t) && t <= cfg.timeout
    ensures Waiting(Run(cfg, more), cfg.timeout)
    decreases cfg.timeout - t
  {
    more := acts;
    if t < cfg.timeout {
      var d := Min(Min(cfg.pace, cfg.gap), cfg.timeout - t);
      more := Lap(cfg, acts, t, d);
      more := Laps(cfg, more, t + d);
    }
  }

  /** The bound is met: a decision falls exactly on the end of the timeout, which is not yet too late, at the
      start of an iteration; the next one falls at the end of the following iteration. */
  lemma Overdue(cfg: Config) returns (acts: seq<Action>)
    requires Sane(cfg) && cfg.pace > 0 && cfg.gap > 0
    ensures var s := Run(cfg, acts);
      Pending(s) && s.now == AskedAt(cfg, acts) + cfg.timeout + Min(cfg.gap, 2 * cfg.pace)
  {
    RunOne(cfg, [], Dog(true));
    acts := [] + [Dog(true)];
    acts := Laps(cfg, acts, 0);
    acts := Decide(cfg, acts);
    var d := Min(cfg.gap, cfg.pace);
    RunOne(cfg, acts, Tick(d));
    acts := acts + [Tick(d)];
    if cfg.gap > cfg.pace {
      var r := Min(cfg.gap, 2 * cfg.pace) - cfg.pace;
      RunOne(cfg, acts, Super(false));
      acts := acts + [Super(false)];
      RunOne(cfg, acts, Tick(r));
      acts := acts + [Tick(r)];
    }
    HistoryExact(cfg, acts);
  }

  /** Timeout plus one iteration bounds every run exactly when decisions are no further apart than the
      length of an iteration. */
  lemma OneIterationIff(cfg: Config)
    requires Sane(cfg) && cfg.pace > 0 && cfg.gap > 0
    ensures (forall acts :: Pending(Run(cfg, acts)) ==> Run(cfg, acts).now <= AskedAt(cfg, acts) + cfg.timeout + cfg.pace)
      <==> cfg.gap <= cfg.pace
  {
    if cfg.gap <= cfg.pace {
      forall acts ensures Pending(Run(cfg, acts)) ==> Run(cfg, acts).now <= AskedAt(cfg, acts) + cfg.timeout + cfg.pace {
        Deadline(cfg, acts);
      }
    } else {
      var late := Overdue(cfg);
      assert Run(cfg, late).now > AskedAt(cfg, late) + cfg.timeout + cfg.pace;
    }
  }

  // ---------------------------------------------------------------- why the deadline is needed

  predicate Failing(acts: seq<Action>, i: nat) {
    forall k | 0 <= k < |acts| :: acts[k].Work? && acts[k].i == i ==> acts[k].o.Fails?
  }

  /** A worker whose connects all fail in the handled way never comes to test a request, under any schedule
      of all threads: the `continue` goes round the test however often. */
  lemma {:induction false} FailingNeverTests(cfg: Config, acts: seq<Action>, i: nat)
    requires Failing(acts, i)
    ensures var ws := Run(cfg, acts).workers; i < |ws| ==> ws[i].pc.WConnect? || ws[i].pc.WContinue?
  {
    if acts != [] {
      FailingNeverTests(cfg, acts[..|acts| - 1], i);
    }
  }

  /** Own steps of a worker to the test while a request is pending. */
  function ToTest(pc: WorkerPc): nat {
    match pc
    case WContinue => 8
    case WConnect => 7
    case WInstall => 6
    case WFetch => 5
    case WNext => 4
    case WProcess => 3
    case WLoop => 2
    case WLeave => 1
    case WTest => 0
    case WDead => 0
  }

  /** Under every schedule, while a request is pending each step of a live worker brings it closer to the test,
      except exactly the two ways round it: a connect that fails in the handled way, and a source
      taken away before it is fetched.  No other thread's step sets it back. */
  lemma NearsTestIff(cfg: Config, acts: seq<Action>, a: Action, i: nat)
    requires Sane(cfg) && Pending(Run(cfg, acts)) && Alive(Run(cfg, acts), i)
    ensures var s := Run(cfg, acts);
      var pc, u := s.workers[i].pc, Step(cfg, s, a);
      && i < |u.workers|
      && (a.Work? && a.i == i && !pc.WTest? ==>
            (ToTest(u.workers[i].pc) < ToTest(pc) <==> !((pc.WConnect? && a.o.Fails?) || (pc.WFetch? && s.source.None?))))
      && (a.Work? && a.i == i && pc.WTest? ==> u.workers[i].pc.WDead?)
      && (!(a.Work? && a.i == i) ==> u.workers[i].pc == pc)
  {
  }

  /** The two ways round the test. */
  predicate GoesRound(s: State, i: nat, a: Action) {
    a.Work? && a.i == i && i < |s.workers| &&
    ((s.workers[i].pc.WConnect? && a.o.Fails?) || (s.workers[i].pc.WFetch? && s.source.None?))
  }

  /** From here on the worker takes neither. */
  predicate Straight(cfg: Config, acts: seq<Action>, more: seq<Action>, i: nat) {
    forall k | 0 <= k < |more| :: !GoesRound(Run(cfg, acts + more[..k]), i, more[k])
  }

  /** How often the worker moves. */
  function OwnSteps(more: seq<Action>, i: nat): nat {
    if more == [] then 0
    else
      var a := more[|more| - 1];
      OwnSteps(more[..|more| - 1], i) + Own(a, i)
  }

  function Own(a: Action, i: nat): nat {
    if a.Work? && a.i == i then 1 else 0
  }

  lemma DeadStaysDead(cfg: Config, s: State, a: Action, i: nat)
    requires i < |s.workers|
    ensures i < |Step(cfg, s, a).workers| && (Alive(Step(cfg, s, a), i) ==> Alive(s, i))
  {
  }

  /** Still there, still asked, and this close to the test. */
  predicate Left(s: State, i: nat, steps: nat, start: nat) {
    i < |s.workers| && (Alive(s, i) && !s.exited ==> s.requested && steps + ToTest(s.workers[i].pc) <= start)
  }

  lemma StepLeft(cfg: Config, acts: seq<Action>, a: Action, i: nat, steps: nat, start: nat)
    requires Sane(cfg) && Left(Run(cfg, acts), i, steps, start) && !GoesRound(Run(cfg, acts), i, a)
    ensures Left(Run(cfg, acts + [a]), i, steps + Own(a, i), start)
  {
    var s := Run(cfg, acts);
    RunOne(cfg, acts, a);
    DeadStaysDead(cfg, s, a, i);
    if Alive(s, i) && !s.exited {
      ClearedOnlyWhenDead(cfg, acts, a);
      NearsTestIff(cfg, acts, a, i);
    }
  }

  /** Steps that each keep the count keep it over the whole series. */
  lemma {:induction false} Countdown(at: nat -> State, more: seq<Action>, i: nat, start: nat)
    requires Left(at(0), i, 0, start)
    requires forall k: nat, n: nat | k < |more| && Left(at(k), i, n, start) :: Left(at(k + 1), i, n + Own(more[k], i), start)
    ensures Left(at(|more|), i, OwnSteps(more, i), start)
    decreases |more|
  {
    if more != [] {
      Countdown(at, more[..|more| - 1], i, start);
    }
  }

  /** The state after the first k of some further steps. */
  function After(cfg: Config, acts: seq<Action>, more: seq<Action>): nat -> State {
    (k: nat) => Run(cfg, acts + if k <= |more| then more[..k] else more)
  }

  lemma StepsLeft(cfg: Config, acts: seq<Action>, more: seq<Action>, i: nat, start: nat, k: nat, n: nat)
    requires Sane(cfg) && Straight(cfg, acts, more, i) && k < |more| && Left(After(cfg, acts, more)(k), i, n, start)
    ensures Left(After(cfg, acts, more)(k + 1), i, n + Own(more[k], i), start)
  {
    assert acts + more[..k + 1] == acts + more[..k] + [more[k]];
    StepLeft(cfg, acts + more[..k], more[k], i, n, start);
  }

  lemma AllSteps(cfg: Config, acts: seq<Action>, more: seq<Action>, i: nat, start: nat)
    requires Sane(cfg) && Straight(cfg, acts, more, i) && Left(After(cfg, acts, more)(0), i, 0, start)
    ensures Left(After(cfg, acts, more)(|more|), i, OwnSteps(more, i), start)
  {
    var at := After(cfg, acts, more);
    forall k: nat, n: nat | k < |more| && Left(at(k), i, n, start) ensures Left(at(k + 1), i, n + Own(more[k], i), start) {
      StepsLeft(cfg, acts, more, i, start, k, n);
    }
    Countdown(at, more, i, start);
  }

  /** A worker that no longer goes round the test is dead after at most nine of its own steps: the eight to the
      test and the test itself. */
  lemma WorkerDies(cfg: Config, acts: seq<Action>, more: seq<Action>, i: nat)
    requires Sane(cfg) && Pending(Run(cfg, acts)) && Alive(Run(cfg, acts), i) && Straight(cfg, acts, more, i)
    requires OwnSteps(more, i) > ToTest(Run(cfg, acts).workers[i].pc)
    ensures !Alive(Run(cfg, acts + more), i) || Run(cfg, acts + more).exited
  {
    assert acts + more[..0] == acts && more[..|more|] == more;
    AllSteps(cfg, acts, more, i, ToTest(Run(cfg, acts).workers[i].pc));
  }
}
