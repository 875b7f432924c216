/** Which edits a client is sent in every run of the daemon, told by the lines it has sent itself.
    src/xmlrcsd/client.cpp, src/xmlrcsd/streamitem.cpp. */
module DaemonFanout {
  import opened Commands
  import opened Daemon
  import opened DaemonCommands
  import opened DaemonDelivery
  import opened DaemonInvariant
  import opened DaemonSafety
  import opened DaemonSessions
  import opened Subscribed

  /** The pump is at the test of the client's subscriptions. */
  predicate TurnOf(s: State, id: nat) {
    s.pump.pc.PTest? && At(s, s.pump.i) == id
  }

  /** The lines run for the client at each of its turns in the fan-outs. */
  function Turns(schedule: seq<Pick>, id: nat): seq<seq<string>> {
    if schedule == [] then []
    else
      var before, p := schedule[..|schedule| - 1], schedule[|schedule| - 1];
      Turns(before, id) +
        (if p.t.Pump? && TurnOf(Run(before), id) then [RunLines(Obj(Run(before), id), LinesRead(before, id))] else [])
  }

  ghost predicate SeesAll(seen: seq<Subs>, turns: seq<seq<string>>) {
    |seen| == |turns| && forall k | 0 <= k < |turns| :: seen[k] == ExecAll(turns[k], NO_SUBS)
  }

  lemma PumpSees(s: State, e: Env, j: nat)
    requires NextPump(s, e).To?
    ensures Obj(NextPump(s, e).s, j).mem.seen == Obj(s, j).mem.seen + (if TurnOf(s, j) then [Obj(s, j).mem.subs] else [])
  {}

  lemma OthersSee(s: State, t: Tid, e: Env, j: nat)
    requires Next(s, t, e).To? && !t.Pump? && s.lastID !in s.objs
    ensures Obj(Next(s, t, e).s, j).mem.seen == Obj(s, j).mem.seen
  {
    match t
    case Listener =>
    case Killer =>
    case Cmd(_) =>
    case Snd(_) =>
  }

  lemma TurnsPush(schedule: seq<Pick>, p: Pick, id: nat)
    ensures Turns(schedule + [p], id) == Turns(schedule, id) +
      (if p.t.Pump? && TurnOf(Run(schedule), id) then [RunLines(Obj(Run(schedule), id), LinesRead(schedule, id))] else [])
  {
    assert (schedule + [p])[..|schedule|] == schedule;
  }

  lemma NothingSeen(seen: seq<Subs>, turns: seq<seq<string>>)
    ensures seen + [] == seen && turns + [] == turns
  {
  }

  lemma PickSees(schedule: seq<Pick>, p: Pick, id: nat)
    requires SeesAll(Obj(Run(schedule), id).mem.seen, Turns(schedule, id))
    ensures SeesAll(Obj(Run(schedule + [p]), id).mem.seen, Turns(schedule + [p], id))
  {
    var s := Run(schedule);
    LastPick(schedule, p, id);
    TurnsPush(schedule, p, id);
    NothingSeen(Obj(s, id).mem.seen, Turns(schedule, id));
    RunInv(schedule);
    assert s.lastID !in s.objs;
    CommandsTakeEffect(schedule, id);
    if Next(s, p.t, p.e).Blocked? {
      assert !(p.t.Pump? && TurnOf(s, id));
    } else if p.t.Pump? {
      PumpSees(s, p.e, id);
    } else {
      OthersSee(s, p.t, p.e, id);
    }
  }

  lemma {:induction false} RunSees(schedule: seq<Pick>, id: nat)
    ensures SeesAll(Obj(Run(schedule), id).mem.seen, Turns(schedule, id))
  {
    if schedule != [] {
      var k := |schedule| - 1;
      RunSees(schedule[..k], id);
      PickSees(schedule[..k], schedule[k], id);
      assert schedule == schedule[..k] + [schedule[k]];
    }
  }

  /** The items fanned out from a position on for which the lines run at the client's own turns have the
      item's site sent. */
  function Due(fanned: seq<Item>, born: nat, turns: seq<seq<string>>): seq<string> {
    if turns == [] || born + |turns| > |fanned| then []
    else
      var k := |turns| - 1;
      Due(fanned, born, turns[..k]) + (if Sent(turns[k], fanned[born + k].site) then [fanned[born + k].xml] else [])
  }

  lemma {:induction false} ExpectedIsDue(fanned: seq<Item>, born: nat, seen: seq<Subs>, turns: seq<seq<string>>)
    requires SeesAll(seen, turns)
    ensures Expected(fanned, born, seen) == Due(fanned, born, turns)
    decreases |turns|
  {
    if turns != [] && born + |turns| <= |fanned| {
      var k := |turns| - 1;
      ExpectedIsDue(fanned, born, seen[..k], turns[..k]);
      SentIff(turns[k], fanned[born + k].site);
    }
  }

  /** In every run a client has had its turn for each item since it was registered, save at most the current one,
      and the edits enqueued for it are exactly the items whose site its lines had it sent at that turn: each once,
      in order, save one that the pump is about to enqueue. */
  lemma EditsFollowCommands(schedule: seq<Pick>, id: nat)
    requires id in Run(schedule).objs
    ensures var s := Run(schedule);
            var m, turns := s.objs[id].mem, Turns(schedule, id);
            && Edits(m.enqueued) + PendingFor(s, id) == Due(s.fanned, m.born, turns)
            && (id in s.clients ==>
                  m.born + |turns| == |s.fanned|
                  || (m.born + |turns| == |s.fanned| - 1 && PumpHolds(s.pump.pc) && s.pump.job.Fan?))
  {
    var s := Run(schedule);
    RunSees(schedule, id);
    DeliveryExact(schedule, id);
    ExpectedIsDue(s.fanned, s.objs[id].mem.born, s.objs[id].mem.seen, Turns(schedule, id));
  }
}
