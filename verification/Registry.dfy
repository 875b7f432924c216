/** The client list of xmlrcsd in the form of the source: a vector of client objects that the
    listener, the Redis pump and the Killer walk and change in place.  Each method is one critical
    section on clients_lock (the Killer's, one sweep), run without interference; the interleaving
    of these sections is the subject of the module Daemon.
    src/xmlrcsd/main.cpp, streamitem.cpp, server.cpp and the ends of client.cpp. */
module Registry {
  import opened Base
  import opened Commands
  import opened Session

  const PING := "<ping></ping>"

  // ---------------------------------------------------------------- what a sweep must do

  /** The clients that stay, in order. */
  ghost function Survivors(cs: seq<Client>, late: set<Client>): seq<Client> {
    if cs == [] then []
    else if cs[0] in late then Survivors(cs[1..], late)
    else [cs[0]] + Survivors(cs[1..], late)
  }

  ghost function CountLate(cs: seq<Client>, late: set<Client>): nat {
    if cs == [] then 0 else (if cs[0] in late then 1 else 0) + CountLate(cs[1..], late)
  }

  /** The pings a surviving client gets: one, and one more for every late client behind it. */
  ghost function Due(cs: seq<Client>, late: set<Client>, c: Client): nat {
    if cs == [] then 0
    else if cs[0] == c then 1 + CountLate(cs[1..], late)
    else Due(cs[1..], late, c)
  }

  function Pings(n: nat): seq<string> {
    seq(n, _ => PING)
  }

  lemma {:induction false} CountLatePrefix(cs: seq<Client>, i: nat, late: set<Client>)
    requires i < |cs| && cs[i] in late && NoDup(cs) && (forall j | 0 <= j < i :: cs[j] !in late)
    ensures CountLate(Erase(cs, cs[i]), late) + 1 == CountLate(cs, late)
    ensures Survivors(Erase(cs, cs[i]), late) == Survivors(cs, late)
  {
    if i > 0 {
      CountLatePrefix(cs[1..], i - 1, late);
    }
  }

  /** Removing the first late client makes one ping less due before it and as many behind it. */
  lemma {:induction false} DueErase(cs: seq<Client>, i: nat, late: set<Client>, p: nat)
    requires i < |cs| && cs[i] in late && NoDup(cs) && (forall j | 0 <= j < i :: cs[j] !in late)
    requires p < |cs| && p != i
    ensures Due(cs, late, cs[p]) == Due(Erase(cs, cs[i]), late, cs[p]) + (if p < i then 1 else 0)
  {
    if i > 0 {
      if p == 0 {
        CountLatePrefix(cs[1..], i - 1, late);
      } else {
        DueErase(cs[1..], i - 1, late, p - 1);
      }
    }
  }

  lemma PingsErase(cs: seq<Client>, i: nat, late: set<Client>, p: nat)
    requires i < |cs| && cs[i] in late && NoDup(cs) && (forall j | 0 <= j < i :: cs[j] !in late)
    requires p < |cs| && p != i
    ensures Pings(Due(cs, late, cs[p])) == (if p < i then [PING] else []) + Pings(Due(Erase(cs, cs[i]), late, cs[p]))
  {
    DueErase(cs, i, late, p);
  }

  /** A client that has been pinged in this pass is owed one ping less. */
  lemma OwedAfter(cs: seq<Client>, i: nat, late: set<Client>, p: nat, buffer: seq<string>, total: seq<string>)
    requires i < |cs| && cs[i] in late && NoDup(cs) && (forall j | 0 <= j < i :: cs[j] !in late)
    requires p < |cs| && p != i && buffer + Pings(Due(cs, late, cs[p])) == total
    ensures buffer + (if p < i then [PING] else []) + Pings(Due(Erase(cs, cs[i]), late, cs[p])) == total
  {
    PingsErase(cs, i, late, p);
    var one, more := if p < i then [PING] else [], Pings(Due(Erase(cs, cs[i]), late, cs[p]));
    assert buffer + one + more == buffer + (one + more);
  }

  lemma EraseMembers(cs: seq<Client>, c: Client)
    requires NoDup(cs)
    ensures forall d :: d in Erase(cs, c) <==> d in cs && d != c
  {
    EraseNoDup(cs, c);
    assert forall d :: d in Erase(cs, c) <==> d in ToSet(Erase(cs, c));
    assert forall d :: d in cs <==> d in ToSet(cs);
  }

  /** Due counts by list position: one ping, and one for every late client further down. */
  lemma {:induction false} DueAt(cs: seq<Client>, late: set<Client>, p: nat)
    requires NoDup(cs) && p < |cs|
    ensures Due(cs, late, cs[p]) == 1 + CountLate(cs[p + 1..], late)
  {
    if p > 0 {
      assert cs[1..][p..] == cs[p + 1..];
      DueAt(cs[1..], late, p - 1);
    }
  }

  /** Survivors are exactly the clients in time, in their old order: each one stands behind as many
      survivors as stood before it. */
  lemma {:induction false} SurvivorAt(cs: seq<Client>, late: set<Client>, p: nat)
    requires p < |cs|
    ensures |Survivors(cs, late)| + CountLate(cs, late) == |cs|
    ensures CountLate(cs[..p], late) <= p
    ensures cs[p] !in late ==>
              && p - CountLate(cs[..p], late) < |Survivors(cs, late)|
              && Survivors(cs, late)[p - CountLate(cs[..p], late)] == cs[p]
  {
    SurvivorCount(cs, late);
    if p > 0 {
      assert cs[..p][1..] == cs[1..][..p - 1];
      SurvivorAt(cs[1..], late, p - 1);
    }
  }

  lemma {:induction false} SurvivorCount(cs: seq<Client>, late: set<Client>)
    ensures |Survivors(cs, late)| + CountLate(cs, late) == |cs|
  {
    if cs != [] {
      SurvivorCount(cs[1..], late);
    }
  }

  lemma {:induction false} NoneLate(cs: seq<Client>, late: set<Client>)
    requires forall c | c in cs :: c !in late
    ensures Survivors(cs, late) == cs && CountLate(cs, late) == 0
    ensures forall c | c in cs :: Due(cs, late, c) == 1
  {
    if cs != [] {
      NoneLate(cs[1..], late);
    }
  }

  // ---------------------------------------------------------------- the frame on the list

  /** "site|xml" split at the first bar, which a site name never contains. */
  function Split(text: string): Option<(string, string)> {
    if text == [] then None
    else if text[0] == '|' then Some(("", text[1..]))
    else
      match Split(text[1..])
      case None => None
      case Some((site, xml)) => Some(([text[0]] + site, xml))
  }

  /** What es2r pushes is taken apart into what it put together, whatever bars the XML contains. */
  lemma {:induction false} SplitFrame(site: string, xml: string)
    requires '|' !in site
    ensures Split(site + "|" + xml) == Some((site, xml))
  {
    if site == [] {
      assert (site + "|" + xml)[1..] == xml;
    } else {
      assert (site + "|" + xml)[1..] == site[1..] + "|" + xml && [site[0]] + site[1..] == site;
      SplitFrame(site[1..], xml);
    }
  }

  lemma {:induction false} SplitFirst(text: string)
    ensures Split(text).Some? ==> '|' !in Split(text).value.0
  {
    if text != [] && text[0] != '|' {
      SplitFirst(text[1..]);
    }
  }

  /** A frame survives exactly when the site in it has no bar. */
  lemma SplitFrameIff(site: string, xml: string)
    ensures Split(site + "|" + xml) == Some((site, xml)) <==> '|' !in site
  {
    if '|' in site {
      SplitFirst(site + "|" + xml);
    } else {
      SplitFrame(site, xml);
    }
  }

  lemma {:induction false} SplitNone(text: string)
    requires '|' !in text
    ensures Split(text) == None
  {
    if text != [] {
      SplitNone(text[1..]);
    }
  }

  /** string::find('|'), -1 standing for npos. */
  method FindBar(text: string) returns (at: int)
    ensures at == -1 ==> '|' !in text && Split(text) == None
    ensures at != -1 ==> 0 <= at < |text| && Split(text) == Some((text[..at], text[at + 1..]))
  {
    at := 0;
    while at < |text|
      invariant 0 <= at <= |text| && '|' !in text[..at]
    {
      if text[at] == '|' {
        assert text == text[..at] + "|" + text[at + 1..];
        SplitFrame(text[..at], text[at + 1..]);
        return;
      }
      at := at + 1;
    }
    assert text == text[..at];
    SplitNone(text);
    return -1;
  }

  class Daemon {
    var clients: seq<Client>
    var UsersCount: int
    var total_conn: int
    var total_io: int
    var last_io: int

    ghost predicate Valid()
      reads this
    {
      NoDup(clients)
    }

    constructor (now: int)
      ensures Valid() && clients == [] && UsersCount == 0 && total_conn == 0 && total_io == 0 && last_io == now
    {
      clients, UsersCount, total_conn, total_io, last_io := [], 0, 0, 0, now;
    }

    /** Server::Listen after accept: construct, then register at the end of the list. */
    method Register(input: string, now: int) returns (c: Client)
      requires Valid()
      modifies this`clients, this`UsersCount, this`total_conn
      ensures Valid() && fresh(c) && clients == old(clients) + [c]
      ensures UsersCount == old(UsersCount) + 1 && total_conn == old(total_conn) + 1
      ensures c.View() == NO_SUBS && c.OutgoingBuffer == [] && c.LastPing == now && !c.killed && c.isConnected
    {
      c := new Client(input, now);
      UsersCount := UsersCount + 1;
      total_conn := total_conn + 1;
      clients := clients + [c];
    }

    /** Kill and the destructor of a registered client. */
    method Kill(c: Client)
      requires Valid() && c in clients
      modifies this`clients, this`UsersCount, c`killed, c`closed, c`isConnected, c`OutgoingBuffer
      ensures Valid() && c.killed
      ensures old(c.killed) ==> clients == old(clients) && UsersCount == old(UsersCount) && unchanged(c)
      ensures !old(c.killed) ==>
                clients == Erase(old(clients), c) && UsersCount == old(UsersCount) - 1
                && c.closed && !c.isConnected && c.OutgoingBuffer == []
    {
      if c.killed {
        return;
      }
      c.killed := true;
      c.closed := true;
      c.isConnected := false;
      UsersCount := UsersCount - 1;
      EraseNoDup(clients, c);
      clients := Erase(clients, c);
      c.OutgoingBuffer := [];
    }

    /** From `start` up to the first client that did not answer in time; those before it are pinged. */
    method PingInTime(check: int) returns (i: nat)
      requires Valid()
      modifies clients`OutgoingBuffer
      ensures i <= |clients| && (i < |clients| ==> clients[i].LastPing + TIMEOUT < check)
      ensures forall j | 0 <= j < i ::
                clients[j].LastPing + TIMEOUT >= check && clients[j].OutgoingBuffer == old(clients[j].OutgoingBuffer) + [PING]
      ensures forall j | i <= j < |clients| :: clients[j].OutgoingBuffer == old(clients[j].OutgoingBuffer)
    {
      i := 0;
      while i != |clients|
        invariant i <= |clients|
        invariant forall j | 0 <= j < i ::
                    clients[j].LastPing + TIMEOUT >= check && clients[j].OutgoingBuffer == old(clients[j].OutgoingBuffer) + [PING]
        invariant forall j | i <= j < |clients| :: clients[j].OutgoingBuffer == old(clients[j].OutgoingBuffer)
        decreases |clients| - i
      {
        if clients[i].LastPing + TIMEOUT < check {
          return;
        }
        clients[i].SendLine(PING);
        i := i + 1;
      }
    }

    /** From `start` to the next `goto start`, or to the end: the client PingInTime stops at is killed. */
    method Pass(check: int) returns (done: bool, ghost at: nat)
      requires Valid() && forall c | c in clients :: !c.killed
      modifies this`clients, this`UsersCount, clients`killed, clients`closed, clients`isConnected, clients`OutgoingBuffer
      ensures Valid() && at <= |old(clients)|
      ensures forall j | 0 <= j < at ::
                var c: Client := old(clients)[j];
                && old(c.LastPing) + TIMEOUT >= check
                && c.OutgoingBuffer == old(c.OutgoingBuffer) + [PING]
                && !c.killed && c.closed == old(c.closed) && c.isConnected == old(c.isConnected)
      ensures forall j | at < j < |old(clients)| ::
                var c: Client := old(clients)[j];
                && c.OutgoingBuffer == old(c.OutgoingBuffer)
                && !c.killed && c.closed == old(c.closed) && c.isConnected == old(c.isConnected)
      ensures done <==> at == |old(clients)|
      ensures done ==> clients == old(clients) && UsersCount == old(UsersCount)
      ensures !done ==>
                var c: Client := old(clients)[at];
                && c.LastPing + TIMEOUT < check
                && clients == Erase(old(clients), c) && UsersCount == old(UsersCount) - 1
                && Removed(c)
    {
      var i := PingInTime(check);
      at, done := i, i == |clients|;
      if !done {
        Kill(clients[i]);
      }
    }

    /** A sweep under way.  `was` is each client's buffer at the start; everyone still listed is
        owed as many pings as a sweep from here on would give it. */
    ghost predicate Midway(all: seq<Client>, late: set<Client>, was: map<Client, seq<string>>, users: int)
      reads this, all
    {
      && NoDup(clients)
      && (forall c | c in clients :: c in all && !c.killed && c in was)
      && (forall c | c in all && c !in clients :: c in late && Removed(c))
      && (forall c | c in clients && c !in late :: c.OutgoingBuffer + Pings(Due(clients, late, c)) == was[c])
      && UsersCount - CountLate(clients, late) == users
    }

    static ghost predicate Removed(c: Client)
      reads c
    {
      c.killed && !c.isConnected && c.OutgoingBuffer == []
    }

    /** After a pass over cs that killed cs[at], the others having held `before`. */
    ghost predicate Passed(cs: seq<Client>, at: nat, before: map<Client, seq<string>>)
      requires at < |cs| && forall c | c in cs :: c in before
      reads this, cs
    {
      && clients == Erase(cs, cs[at]) && Removed(cs[at])
      && forall p: nat | p < |cs| && p != at ::
           !cs[p].killed && cs[p].OutgoingBuffer == before[cs[p]] + (if p < at then [PING] else [])
    }

    lemma MidwayAgain(cs: seq<Client>, at: nat, before: map<Client, seq<string>>, all: seq<Client>, late: set<Client>,
                      was: map<Client, seq<string>>, users: int)
      requires NoDup(cs) && at < |cs| && cs[at] in late && (forall j | 0 <= j < at :: cs[j] !in late)
      requires forall c | c in cs :: c in all && c in was && c in before
      requires forall c | c in cs && c !in late :: before[c] + Pings(Due(cs, late, c)) == was[c]
      requires forall c | c in all && c !in cs :: c in late && Removed(c)
      requires Passed(cs, at, before) && UsersCount + 1 - CountLate(cs, late) == users
      ensures Midway(all, late, was, users) && CountLate(clients, late) < CountLate(cs, late)
      ensures Survivors(clients, late) == Survivors(cs, late)
    {
      CountLatePrefix(cs, at, late);
      EraseMembers(cs, cs[at]);
      EraseNoDup(cs, cs[at]);
      forall c | c in clients
        ensures c in all && !c.killed && c in was
        ensures c !in late ==> c.OutgoingBuffer + Pings(Due(clients, late, c)) == was[c]
      {
        var p: nat :| p < |cs| && cs[p] == c;
        assert p != at;
        if c !in late {
          OwedAfter(cs, at, late, p, before[c], was[c]);
        }
      }
    }

    /** One pass of a sweep under way. */
    method Resume(check: int, ghost all: seq<Client>, ghost late: set<Client>, ghost was: map<Client, seq<string>>,
                  ghost users: int)
      returns (done: bool)
      requires Midway(all, late, was, users)
      requires late == set c | c in all && c.LastPing + TIMEOUT < check
      modifies this`clients, this`UsersCount, clients`killed, clients`closed, clients`isConnected, clients`OutgoingBuffer
      ensures Survivors(clients, late) == old(Survivors(clients, late)) && NoDup(clients)
      ensures forall c | c in clients :: c in old(clients) && c.closed == old(c.closed) && c.isConnected == old(c.isConnected)
      ensures !done ==> Midway(all, late, was, users) && CountLate(clients, late) < old(CountLate(clients, late))
      ensures done ==>
                && clients == Survivors(clients, late) && UsersCount == users
                && (forall c | c in clients :: c in all && !c.killed && c in was && c !in late && c.OutgoingBuffer == was[c])
                && (forall c | c in all && c !in clients :: c in late && Removed(c))
    {
      ghost var cs := clients;
      ghost var before := map c | c in cs :: c.OutgoingBuffer;
      ghost var at;
      done, at := Pass(check);
      if done {
        NoneLate(cs, late);
        assert Pings(1) == [PING];
      } else {
        MidwayAgain(cs, at, before, all, late, was, users);
        EraseMembers(cs, cs[at]);
      }
    }

    /** The Killer's sweep.  No listed client is killed already: in the source such a client is
        about to be unregistered by its own command thread, and the Killer spins until it is. */
    method Sweep(check: int)
      requires Valid() && forall c | c in clients :: !c.killed
      modifies this`clients, this`UsersCount, clients`killed, clients`closed, clients`isConnected, clients`OutgoingBuffer
      ensures Valid()
      ensures var late := set c | c in old(clients) && old(c.LastPing) + TIMEOUT < check;
              && clients == Survivors(old(clients), late)
              && UsersCount == old(UsersCount) - CountLate(old(clients), late)
              && (forall c | c in old(clients) && c !in late ::
                    && c.OutgoingBuffer == old(c.OutgoingBuffer) + Pings(Due(old(clients), late, c))
                    && !c.killed && c.closed == old(c.closed) && c.isConnected == old(c.isConnected))
              && (forall c | c in late :: Removed(c))
    {
      ghost var all := clients;
      ghost var late := set c | c in all && c.LastPing + TIMEOUT < check;
      ghost var was := map c | c in all :: c.OutgoingBuffer + Pings(Due(all, late, c));
      ghost var users := UsersCount - CountLate(all, late);
      var done := false;
      while !done
        invariant all == old(clients) && NoDup(clients) && late == set c | c in old(clients) && old(c.LastPing) + TIMEOUT < check
        invariant Survivors(clients, late) == Survivors(all, late)
        invariant !done ==> Midway(all, late, was, users)
        invariant forall c | c in clients :: c in old(clients) && c.closed == old(c.closed) && c.isConnected == old(c.isConnected)
        invariant done ==>
                && clients == Survivors(clients, late) && UsersCount == users
                && (forall c | c in clients :: !c.killed && c !in late && c.OutgoingBuffer == was[c])
                && (forall c | c in all && c !in clients :: c in late && Removed(c))
        decreases if done then 0 else 1 + CountLate(clients, late)
      {
        assert forall i | 0 <= i < |clients| :: clients[i] in old(clients);
        done := Resume(check, all, late, was, users);
      }
    }

    /** StreamItem::ProcessItem: the edit goes once to every client that matches its site, by the
        flag or by name or by both, and to no other. */
    method ProcessItem(text: string)
      requires Valid()
      modifies clients`OutgoingBuffer
      ensures forall c | c in clients ::
                c.OutgoingBuffer ==
                match Split(text)
                case None => old(c.OutgoingBuffer)
                case Some((site, xml)) =>
                  if c.SubscribedAny || site in c.Subscriptions then old(c.OutgoingBuffer) + [xml] else old(c.OutgoingBuffer)
    {
      var splitter := FindBar(text);
      if splitter == -1 {
        return;
      }
      var site, xml := text[..splitter], text[splitter + 1..];
      var i := 0;
      while i != |clients|
        invariant i <= |clients|
        invariant forall j | 0 <= j < i ::
                    clients[j].OutgoingBuffer ==
                    old(clients[j].OutgoingBuffer) + (if clients[j].SubscribedAny || site in clients[j].Subscriptions then [xml] else [])
        invariant forall j | i <= j < |clients| :: clients[j].OutgoingBuffer == old(clients[j].OutgoingBuffer)
        decreases |clients| - i
      {
        if clients[i].SubscribedAny || site in clients[i].Subscriptions {
          clients[i].SendLine(xml);
        }
        i := i + 1;
      }
    }

    /** The empty-queue broadcast. */
    method Broadcast(line: string)
      requires Valid()
      modifies clients`OutgoingBuffer
      ensures forall c | c in clients :: c.OutgoingBuffer == old(c.OutgoingBuffer) + [line]
    {
      var i := 0;
      while i != |clients|
        invariant i <= |clients|
        invariant forall j | 0 <= j < i :: clients[j].OutgoingBuffer == old(clients[j].OutgoingBuffer) + [line]
        invariant forall j | i <= j < |clients| :: clients[j].OutgoingBuffer == old(clients[j].OutgoingBuffer)
        decreases |clients| - i
      {
        clients[i].SendLine(line);
        i := i + 1;
      }
    }

    /** What is done about the reply to an RPOP.  The warning goes out at most once in 12 seconds without
        traffic. */
    method OnReply(reply: string, now: int, auto_kill: bool) returns (restart: bool)
      requires Valid()
      modifies this`total_io, this`last_io, clients`OutgoingBuffer
      ensures total_io == old(total_io) + (if reply != "" then 1 else 0)
      ensures last_io == (if reply != "" || now > old(last_io) + 12 then now else old(last_io))
      ensures restart <==> auto_kill && reply == "" && now > old(last_io) + 12
      ensures forall c | c in clients ::
                c.OutgoingBuffer == old(c.OutgoingBuffer) + Due1(c.View(), reply, now > old(last_io) + 12, auto_kill)
    {
      restart := false;
      if |reply| > 0 {
        total_io := total_io + 1;
        last_io := now;
        ProcessItem(reply);
      } else if now > last_io + 12 {
        last_io := now;
        Broadcast(Warning(auto_kill));
        restart := auto_kill;
      }
    }
  }

  const EMPTY := "redis is empty for 10 seconds"
  const RESTARTING := ", restarting the daemon to fix"

  function Warning(auto_kill: bool): string {
    if auto_kill then "<warning>" + (EMPTY + RESTARTING) + "</warning>" else "<fatal>" + EMPTY + "</fatal>"
  }

  /** The line a client is owed for one round of the pump. */
  function Due1(view: Subs, reply: string, stale: bool, auto_kill: bool): seq<string> {
    if reply != "" then
      match Split(reply)
      case None => []
      case Some((site, xml)) => if Matches(view, site) then [xml] else []
    else if stale then [Warning(auto_kill)]
    else []
  }
}
