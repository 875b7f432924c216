/** The subscription protocol between the C# Provider and xmlrcsd.  The client keeps a list of
    names, the server a flag and a vector, and between them runs a byte channel that can be lost
    at any moment.  clients/c#/XmlRcs/XmlRcs/Provider.cs against src/xmlrcsd/client.cpp. */
module Agreement {
  import opened Base
  import opened Commands
  import opened LineReader

  const PING_TIMEOUT := 20

  /** How the Provider was built; crlf is the line end of its platform. */
  datatype Config = Config(autoconn: bool, resubscribe: bool, crlf: bool)

  /** A connection: what the server has read of its current line, the bytes under way, and the
      server's subscriptions. */
  datatype Link = Down | Up(partial: string, wire: string, server: Subs)

  datatype World = World(list: seq<string>, link: Link, lastPing: int, disconnecting: bool)

  /** What a call gives back; opening a socket may throw. */
  datatype Result = Returned(ok: bool) | Threw

  // ---------------------------------------------------------------- the Provider, as functions

  /** Encoding.ASCII. */
  function Encode(text: string): string {
    seq(|text|, i requires 0 <= i < |text| => if text[i] < 128 as char then text[i] else '?')
  }

  function Eol(cfg: Config): string {
    if cfg.crlf then "\r\n" else "\n"
  }

  /** IsConnected: the answer is whether the link is Up afterwards. */
  function Checked(w: World, now: int): World {
    if w.link.Up? && w.lastPing + PING_TIMEOUT < now then w.(link := Down) else w
  }

  function Send(cfg: Config, w: World, now: int, text: string): World {
    var v := Checked(w, now);
    if v.link.Down? then v
    else v.(link := v.link.(wire := v.link.wire + (Encode(text) + Eol(cfg))))
  }

  function Resubscribe(cfg: Config, w: World, now: int, items: seq<string>): World
    decreases |items|
  {
    if items == [] then w
    else Resubscribe(cfg, Send(cfg, w, now, "S " + items[0]), now, items[1..])
  }

  function Connect(cfg: Config, w: World, now: int, reachable: bool): (World, Result) {
    var v := Checked(w, now);
    if v.link.Up? then (v, Returned(false))
    else if !reachable then (v.(lastPing := now), Threw)
    else
      var u := Send(cfg, v.(lastPing := now, link := Up("", "", NO_SUBS)), now, "pong");
      (if cfg.resubscribe then Resubscribe(cfg, u, now, u.list) else u, Returned(true))
  }

  /** isConnected: connect first when allowed to. */
  function Ensure(cfg: Config, w: World, now: int, reachable: bool): (World, Result) {
    var v := Checked(w, now);
    if v.link.Up? then (v, Returned(true))
    else if !cfg.autoconn || v.disconnecting then (v, Returned(false))
    else Connect(cfg, v, now, reachable)
  }

  function Add(list: seq<string>, wiki: string): seq<string> {
    if wiki in list then list else list + [wiki]
  }

  function Subscribe(cfg: Config, w: World, now: int, reachable: bool, wiki: string): (World, Result) {
    var (v, r) := Ensure(cfg, w, now, reachable);
    if r != Returned(true) then (v, r)
    else (Send(cfg, v.(list := Add(v.list, wiki)), now, "S " + wiki), r)
  }

  function Unsubscribe(cfg: Config, w: World, now: int, reachable: bool, wiki: string): (World, Result) {
    var (v, r) := Ensure(cfg, w, now, reachable);
    if r != Returned(true) then (v, r)
    else (Send(cfg, v.(list := Erase(v.list, wiki)), now, "D " + wiki), r)
  }

  /** The server reads one byte; a complete line is run as a command, and the command exit ends the connection. */
  function ServerRead(l: Link): Link {
    if l.Down? || l.wire == [] then l
    else
      var c := l.wire[0];
      if c == '\r' then l.(wire := l.wire[1..])
      else if c == '\n' then
        if l.partial == "exit" then Down else Up("", l.wire[1..], Exec(l.partial, "", l.server).0)
      else l.(partial := l.partial + [c], wire := l.wire[1..])
  }

  // ---------------------------------------------------------------- runs

  /** Everything that can happen.  Drop is the loss of the connection, noticed by the client; a
      connection lost unnoticed is one on which the server reads no more. */
  datatype Event =
    | DoSubscribe(wiki: string, now: int, reachable: bool)
    | DoUnsubscribe(wiki: string, now: int, reachable: bool)
    | DoConnect(now: int, reachable: bool)
    | Hear(now: int, ping: bool)
    | SendPing(now: int)
    | Drop
    | Read

  function Apply(cfg: Config, w: World, e: Event): World {
    match e
    case DoSubscribe(wiki, now, reachable) => Subscribe(cfg, w, now, reachable, wiki).0
    case DoUnsubscribe(wiki, now, reachable) => Unsubscribe(cfg, w, now, reachable, wiki).0
    case DoConnect(now, reachable) => Connect(cfg, w, now, reachable).0
    case Hear(now, ping) => if ping then Send(cfg, w.(lastPing := now), now, "pong") else w.(lastPing := now)
    case SendPing(now) => Send(cfg, w, now, "ping")
    case Drop => w.(link := Down)
    case Read => w.(link := ServerRead(w.link))
  }

  const FRESH := World([], Down, 0, false)

  function Run(cfg: Config, events: seq<Event>): World {
    if events == [] then FRESH
    else Apply(cfg, Run(cfg, events[..|events| - 1]), events[|events| - 1])
  }

  // ---------------------------------------------------------------- agreement

  /** The server's subscriptions once everything under way has been read and run. */
  function Drained(l: Link): Subs
    requires l.Up?
  {
    ExecAll(Lines(l.partial, l.wire), l.server)
  }

  /** Among the lines under way is one that ends the connection. */
  predicate Ending(l: Link)
    requires l.Up?
  {
    "exit" in Lines(l.partial, l.wire)
  }

  /** The lines under way take the server to these subscriptions. */
  ghost predicate Leads(l: Link, a: Abstract)
    requires l.Up?
  {
    !Ending(l) && Abs(Drained(l)) == a
  }

  ghost function Wanted(list: seq<string>): Abstract {
    Abstract("all" in list, ToSet(list) - {"all"})
  }

  /** Between client calls the channel ends in a whole line. */
  predicate AtBoundary(l: Link) {
    l.Up? ==> OneLine(l.partial) && Tail(l.partial, l.wire) == ""
  }

  ghost predicate Agree(w: World) {
    w.link.Up? ==> Leads(w.link, Wanted(w.list))
  }

  /** Names that mean to the server what they mean to the client. */
  predicate WellFormed(wiki: string) {
    && 1 <= |wiki| <= MAX_SUBSCR_SIZE
    && wiki[0] != ' '
    && OneLine(wiki)
    && (forall i | 0 <= i < |wiki| :: wiki[i] < 128 as char)
  }

  ghost function Explicit(list: seq<string>): nat {
    |ToSet(list) - {"all"}|
  }

  ghost predicate GoodList(list: seq<string>) {
    NoDup(list) && (forall n | n in list :: WellFormed(n)) && Explicit(list) <= MAX_SUBSCRIPTIONS + 1
  }

  // ---------------------------------------------------------------- one line on the wire

  lemma {:induction false} ExecAllAppend(a: seq<string>, b: seq<string>, s: Subs)
    ensures ExecAll(a + b, s) == ExecAll(b, ExecAll(a, s))
  {
    if a == [] {
      assert a + b == b;
    } else {
      assert (a + b)[1..] == a[1..] + b;
      ExecAllAppend(a[1..], b, Exec(a[0], "", s).0);
    }
  }

  lemma EncodeSame(text: string)
    requires forall i | 0 <= i < |text| :: text[i] < 128 as char
    ensures Encode(text) == text
  {}

  /** A line sent is the last line the server will read. */
  lemma SendDrains(cfg: Config, l: Link, text: string)
    requires l.Up? && AtBoundary(l) && OneLine(Encode(text))
    ensures var l' := l.(wire := l.wire + (Encode(text) + Eol(cfg)));
            && AtBoundary(l') && Lines(l'.partial, l'.wire) == Lines(l.partial, l.wire) + [Encode(text)]
            && Drained(l') == Exec(Encode(text), "", Drained(l)).0
  {
    var bytes := Encode(text) + Eol(cfg);
    LinesAppend(l.partial, l.wire, bytes);
    LineReadBack("", Encode(text), cfg.crlf);
    assert "" + Encode(text) == Encode(text);
    ExecAllAppend(Lines(l.partial, l.wire), [Encode(text)], l.server);
  }

  lemma {:induction false} SkipNothing(wiki: string)
    requires wiki == [] || wiki[0] != ' '
    ensures SkipSpaces(wiki) == wiki
  {}

  lemma ParseS(wiki: string)
    ensures Parse("S " + wiki) == Sub(SkipSpaces(wiki))
  {
    var line := "S " + wiki;
    assert line[..2] == "S " && line[2..] == wiki;
    assert line[0] == 'S';
  }

  lemma ParseD(wiki: string)
    ensures Parse("D " + wiki) == Unsub(SkipSpaces(wiki))
  {
    var line := "D " + wiki;
    assert line[..2] == "D " && line[2..] == wiki;
    assert line[0] == 'D';
  }

  // ---------------------------------------------------------------- the server's names

  /** Every name the server can hold is well-formed: lines have no breaks, leading spaces are
      skipped, and the channel is ASCII. */
  ghost predicate ServerOk(s: Subs) {
    Sound(s) && forall n | n in s.names :: WellFormed(n)
  }

  predicate Ascii(text: string) {
    forall i | 0 <= i < |text| :: text[i] < 128 as char
  }

  lemma {:induction false} SkipKeeps(text: string)
    requires OneLine(text) && Ascii(text)
    ensures OneLine(SkipSpaces(text)) && Ascii(SkipSpaces(text))
    ensures SkipSpaces(text) == [] || SkipSpaces(text)[0] != ' '
  {
    if |text| > 0 && text[0] == ' ' {
      SkipKeeps(text[1..]);
    }
  }

  lemma ExecServerOk(line: string, s: Subs)
    requires ServerOk(s) && OneLine(line) && Ascii(line)
    ensures ServerOk(Exec(line, "", s).0)
  {
    ExecSound(line, "", s);
    match Parse(line)
    case Sub(wiki) => SkipKeeps(line[2..]);
    case Unsub(wiki) =>
      EraseNoDup(s.names, wiki);
      var r := Erase(s.names, wiki);
      assert forall n :: n in r <==> n in ToSet(r);
      assert forall n :: n in s.names <==> n in ToSet(s.names);
    case _ =>
  }

  /** The state of a link that runs keep, whatever names the client uses. */
  ghost predicate LinkOk(l: Link) {
    l.Up? ==> AtBoundary(l) && Ascii(l.partial) && Ascii(l.wire) && ServerOk(l.server) && ServerOk(Drained(l))
  }

  lemma {:induction false} LinesServerOk(partial: string, wire: string, s: Subs)
    requires OneLine(partial) && Ascii(partial) && Ascii(wire) && ServerOk(s)
    ensures ServerOk(ExecAll(Lines(partial, wire), s))
    decreases |wire|
  {
    if wire != [] {
      if wire[0] == '\r' {
        LinesServerOk(partial, wire[1..], s);
      } else if wire[0] == '\n' {
        ExecServerOk(partial, s);
        var rest := Lines("", wire[1..]);
        assert ([partial] + rest)[1..] == rest;
        LinesServerOk("", wire[1..], Exec(partial, "", s).0);
      } else {
        LinesServerOk(partial + [wire[0]], wire[1..], s);
      }
    }
  }

  lemma EolEnds(partial: string, text: string, crlf: bool)
    requires OneLine(partial)
    ensures Tail(partial, text + (if crlf then "\r\n" else "\n")) == ""
  {
    var eol := if crlf then "\r\n" else "\n";
    LinesAppend(partial, text, eol);
    LinesHaveNoBreaks(partial, text);
    LineReadBack(Tail(partial, text), "", crlf);
    assert "" + eol == eol;
  }

  lemma AsciiAppend(a: string, b: string)
    requires Ascii(a) && Ascii(b)
    ensures Ascii(a + b)
  {}

  /** Sending any text at all keeps the link in order. */
  lemma SendLinkOk(cfg: Config, l: Link, text: string)
    requires l.Up? && LinkOk(l)
    ensures LinkOk(l.(wire := l.wire + (Encode(text) + Eol(cfg))))
  {
    var bytes := Encode(text) + Eol(cfg);
    EolEnds("", Encode(text), cfg.crlf);
    LinesAppend(l.partial, l.wire, bytes);
    AsciiAppend(Encode(text), Eol(cfg));
    AsciiAppend(l.wire, bytes);
    LinesServerOk(l.partial, l.wire + bytes, l.server);
  }

  /** Reading a byte changes nothing about where the link is heading, unless it ends the connection. */
  lemma ReadDrains(l: Link)
    requires l.Up? && LinkOk(l)
    ensures LinkOk(ServerRead(l)) && (ServerRead(l).Down? ==> Ending(l))
    ensures ServerRead(l).Up? ==> Drained(ServerRead(l)) == Drained(l) && (Ending(ServerRead(l)) ==> Ending(l))
  {
    if l.wire != [] {
      if l.wire[0] == '\n' {
        var rest := Lines("", l.wire[1..]);
        assert ([l.partial] + rest)[1..] == rest;
        ExecServerOk(l.partial, l.server);
      }
    }
  }

  // ---------------------------------------------------------------- one call

  lemma EncodeTagged(tag: string, wiki: string)
    requires tag in {"S ", "D "}
    ensures Encode(tag + wiki) == tag + Encode(wiki)
  {}

  /** What the server will make of "S wiki" and "D wiki". */
  lemma SendSub(cfg: Config, l: Link, wiki: string)
    requires l.Up? && LinkOk(l) && WellFormed(wiki)
    ensures var l' := l.(wire := l.wire + (Encode("S " + wiki) + Eol(cfg)));
            LinkOk(l') && Ending(l') == Ending(l) && Abs(Drained(l')) == AbsExec(Sub(wiki), Abs(Drained(l)))
  {
    SendLinkOk(cfg, l, "S " + wiki);
    EncodeTagged("S ", wiki);
    EncodeSame(wiki);
    SendDrains(cfg, l, "S " + wiki);
    ParseS(wiki);
    SkipNothing(wiki);
    ExecRefines("S " + wiki, "", Drained(l));
  }

  /** The name the server reads in "D wiki", whatever one line the client makes it. */
  lemma SendD(cfg: Config, l: Link, wiki: string)
    requires l.Up? && LinkOk(l) && OneLine(Encode(wiki))
    ensures var l' := l.(wire := l.wire + (Encode("D " + wiki) + Eol(cfg)));
            && LinkOk(l') && Ending(l') == Ending(l)
            && Abs(Drained(l')) == AbsExec(Unsub(SkipSpaces(Encode(wiki))), Abs(Drained(l)))
  {
    SendLinkOk(cfg, l, "D " + wiki);
    EncodeTagged("D ", wiki);
    SendDrains(cfg, l, "D " + wiki);
    ParseD(Encode(wiki));
    ExecRefines("D " + Encode(wiki), "", Drained(l));
  }

  lemma SendUnsub(cfg: Config, l: Link, wiki: string)
    requires l.Up? && LinkOk(l) && WellFormed(wiki)
    ensures var l' := l.(wire := l.wire + (Encode("D " + wiki) + Eol(cfg)));
            LinkOk(l') && Ending(l') == Ending(l) && Abs(Drained(l')) == AbsExec(Unsub(wiki), Abs(Drained(l)))
  {
    EncodeSame(wiki);
    SkipNothing(wiki);
    SendD(cfg, l, wiki);
  }

  lemma PlainLines(s: Subs)
    ensures Exec("ping", "", s).0 == s && Exec("pong", "", s).0 == s
    ensures Encode("ping") == "ping" && Encode("pong") == "pong"
  {
    assert "ping"[0] == 'p' && "pong"[0] == 'p';
  }

  /** ping and pong change nothing. */
  lemma SendPlain(cfg: Config, l: Link, text: string)
    requires l.Up? && LinkOk(l) && (text == "ping" || text == "pong")
    ensures var l' := l.(wire := l.wire + (Encode(text) + Eol(cfg)));
            LinkOk(l') && Ending(l') == Ending(l) && Drained(l') == Drained(l)
  {
    PlainLines(Drained(l));
    SendLinkOk(cfg, l, text);
    SendDrains(cfg, l, text);
  }

  // ---------------------------------------------------------------- the list and the set

  lemma WantedAdd(list: seq<string>, wiki: string)
    ensures Wanted(Add(list, wiki)) ==
            if wiki == "all" then Wanted(list).(any := true) else Wanted(list).(names := Wanted(list).names + {wiki})
    ensures NoDup(list) ==> NoDup(Add(list, wiki))
  {
    if wiki !in list {
      assert ToSet(list + [wiki]) == ToSet(list) + {wiki};
    } else {
      assert wiki != "all" ==> wiki in ToSet(list) - {"all"};
    }
  }

  lemma WantedErase(list: seq<string>, wiki: string)
    requires NoDup(list)
    ensures Wanted(Erase(list, wiki)) ==
            if wiki == "all" then Wanted(list).(any := false) else Wanted(list).(names := Wanted(list).names - {wiki})
    ensures NoDup(Erase(list, wiki)) && ToSet(Erase(list, wiki)) == ToSet(list) - {wiki}
  {
    EraseNoDup(list, wiki);
    assert "all" in Erase(list, wiki) <==> "all" in ToSet(Erase(list, wiki));
    assert "all" in list <==> "all" in ToSet(list);
  }

  lemma NamesLess(done: seq<string>, x: string, all: seq<string>)
    requires x !in done && x in all && x != "all" && (forall n | n in done :: n in all)
    ensures |ToSet(done) - {"all"}| < Explicit(all)
  {
    CardLess(ToSet(done) - {"all"}, x, ToSet(all) - {"all"});
  }

  lemma NotBefore(done: seq<string>, items: seq<string>)
    requires items != [] && NoDup(done + items)
    ensures items[0] !in done && items[0] in done + items
    ensures done + items == done + [items[0]] + items[1..]
  {
    var all := done + items;
    assert items[0] == all[|done|];
    assert forall i | 0 <= i < |done| :: all[i] == done[i];
  }

  lemma GoodNext(done: seq<string>, items: seq<string>)
    requires items != [] && GoodList(done + items)
    ensures done + items == done + [items[0]] + items[1..]
    ensures items[0] !in done && WellFormed(items[0])
    ensures items[0] != "all" ==> |ToSet(done) - {"all"}| <= MAX_SUBSCRIPTIONS
  {
    var all := done + items;
    NotBefore(done, items);
    if items[0] != "all" {
      assert forall n | n in done :: n in all;
      NamesLess(done, items[0], all);
    }
  }

  /** One S line of a reconnect, or of a call. */
  lemma SubAgrees(cfg: Config, w: World, now: int, done: seq<string>, x: string)
    requires w.link.Up? && LinkOk(w.link) && w.lastPing + PING_TIMEOUT >= now && WellFormed(x)
    requires Leads(w.link, Wanted(done))
    requires x == "all" || x in done || |ToSet(done) - {"all"}| <= MAX_SUBSCRIPTIONS
    ensures var u := Send(cfg, w, now, "S " + x);
            u.link.Up? && LinkOk(u.link) && u == w.(link := u.link) && Leads(u.link, Wanted(Add(done, x)))
  {
    SendSub(cfg, w.link, x);
    WantedAdd(done, x);
  }

  lemma {:induction false} ResubscribeAgrees(cfg: Config, w: World, now: int, done: seq<string>, items: seq<string>)
    requires w.link.Up? && LinkOk(w.link) && w.lastPing == now && GoodList(done + items)
    requires Leads(w.link, Wanted(done))
    ensures var u := Resubscribe(cfg, w, now, items);
            u.link.Up? && LinkOk(u.link) && u == w.(link := u.link) && Leads(u.link, Wanted(done + items))
    decreases |items|
  {
    if items == [] {
      assert done + items == done;
    } else {
      GoodNext(done, items);
      SubAgrees(cfg, w, now, done, items[0]);
      ResubscribeAgrees(cfg, Send(cfg, w, now, "S " + items[0]), now, done + [items[0]], items[1..]);
    }
  }

  lemma CardLess(a: set<string>, x: string, b: set<string>)
    requires x !in a && a + {x} <= b
    ensures |a| < |b|
  {
    var c := b - (a + {x});
    assert b == a + {x} + c;
    assert |a + {x}| == |a| + 1;
  }

  // ---------------------------------------------------------------- every run, with AutoResubscribe

  /** What every call keeps. */
  ghost predicate Good(w: World) {
    LinkOk(w.link) && GoodList(w.list) && Agree(w)
  }

  lemma ConnectAgrees(cfg: Config, w: World, now: int, reachable: bool)
    requires Good(w) && cfg.resubscribe
    ensures var (u, r) := Connect(cfg, w, now, reachable);
            Good(u) && u.list == w.list && (r == Returned(true) ==> u.link.Up? && u.lastPing == now)
  {
    var v := Checked(w, now);
    if v.link.Down? && reachable {
      var start := v.(lastPing := now, link := Up("", "", NO_SUBS));
      SendPlain(cfg, start.link, "pong");
      var u := Send(cfg, start, now, "pong");
      assert u.link == start.link.(wire := "" + (Encode("pong") + Eol(cfg)));
      assert Abs(NO_SUBS) == Wanted([]) && [] + u.list == u.list;
      ResubscribeAgrees(cfg, u, now, [], u.list);
    }
  }

  lemma EnsureAgrees(cfg: Config, w: World, now: int, reachable: bool)
    requires Good(w) && cfg.resubscribe
    ensures var (u, r) := Ensure(cfg, w, now, reachable);
            Good(u) && u.list == w.list && (r == Returned(true) ==> u.link.Up? && u.lastPing + PING_TIMEOUT >= now)
  {
    ConnectAgrees(cfg, Checked(w, now), now, reachable);
  }

  lemma SubscribeAgrees(cfg: Config, w: World, now: int, reachable: bool, wiki: string)
    requires Good(w) && cfg.resubscribe && WellFormed(wiki) && GoodList(Add(w.list, wiki))
    ensures Good(Subscribe(cfg, w, now, reachable, wiki).0)
  {
    var (v, r) := Ensure(cfg, w, now, reachable);
    EnsureAgrees(cfg, w, now, reachable);
    if r == Returned(true) {
      RoomLeft(w.list, wiki);
      SubAgrees(cfg, v, now, v.list, wiki);
    }
  }

  lemma RoomLeft(list: seq<string>, wiki: string)
    requires Explicit(Add(list, wiki)) <= MAX_SUBSCRIPTIONS + 1
    ensures wiki == "all" || wiki in list || Explicit(list) <= MAX_SUBSCRIPTIONS
  {
    if wiki !in list && wiki != "all" {
      NamesLess(list, wiki, Add(list, wiki));
    }
  }

  lemma UnsubAgrees(cfg: Config, w: World, now: int, list: seq<string>, wiki: string)
    requires w.link.Up? && LinkOk(w.link) && w.lastPing + PING_TIMEOUT >= now && WellFormed(wiki) && NoDup(list)
    requires Leads(w.link, Wanted(list))
    ensures var u := Send(cfg, w, now, "D " + wiki);
            u.link.Up? && LinkOk(u.link) && u == w.(link := u.link) && Leads(u.link, Wanted(Erase(list, wiki)))
  {
    SendUnsub(cfg, w.link, wiki);
    WantedErase(list, wiki);
  }

  lemma GoodErase(list: seq<string>, wiki: string)
    requires GoodList(list)
    ensures GoodList(Erase(list, wiki))
  {
    WantedErase(list, wiki);
    var r := Erase(list, wiki);
    assert forall n :: n in r <==> n in ToSet(r);
    assert forall n :: n in list <==> n in ToSet(list);
    CardMonotone(ToSet(r) - {"all"}, ToSet(list) - {"all"});
  }

  lemma CardMonotone(a: set<string>, b: set<string>)
    requires a <= b
    ensures |a| <= |b|
  {
    assert b == a + (b - a);
  }

  lemma UnsubscribeAgrees(cfg: Config, w: World, now: int, reachable: bool, wiki: string)
    requires Good(w) && cfg.resubscribe && WellFormed(wiki)
    ensures Good(Unsubscribe(cfg, w, now, reachable, wiki).0)
  {
    var (v, r) := Ensure(cfg, w, now, reachable);
    EnsureAgrees(cfg, w, now, reachable);
    if r == Returned(true) {
      GoodErase(v.list, wiki);
      UnsubAgrees(cfg, v, now, v.list, wiki);
    }
  }

  /** The client uses well-formed names and lists at most 801 explicit ones at once. */
  ghost predicate Sensible(w: World, e: Event) {
    && (e.DoSubscribe? ==> WellFormed(e.wiki) && Explicit(Add(w.list, e.wiki)) <= MAX_SUBSCRIPTIONS + 1)
    && (e.DoUnsubscribe? ==> WellFormed(e.wiki))
  }

  ghost predicate Reasonable(cfg: Config, events: seq<Event>) {
    events != [] ==>
      Reasonable(cfg, events[..|events| - 1]) && Sensible(Run(cfg, events[..|events| - 1]), events[|events| - 1])
  }

  lemma PlainAgrees(cfg: Config, w: World, e: Event)
    requires Good(w) && (e.Hear? || e.SendPing? || e.Drop? || e.Read?)
    ensures Good(Apply(cfg, w, e))
  {
    if w.link.Up? {
      match e
      case Hear(_, _) => SendPlain(cfg, w.link, "pong");
      case SendPing(_) => SendPlain(cfg, w.link, "ping");
      case Drop =>
      case Read => ReadDrains(w.link);
    }
  }

  lemma StepAgrees(cfg: Config, w: World, e: Event)
    requires cfg.resubscribe && Good(w) && Sensible(w, e)
    ensures Good(Apply(cfg, w, e))
  {
    match e
    case DoSubscribe(wiki, now, reachable) =>
      WantedAdd(w.list, wiki);
      SubscribeAgrees(cfg, w, now, reachable, wiki);
    case DoUnsubscribe(wiki, now, reachable) => UnsubscribeAgrees(cfg, w, now, reachable, wiki);
    case DoConnect(now, reachable) => ConnectAgrees(cfg, w, now, reachable);
    case _ => PlainAgrees(cfg, w, e);
  }

  /** With AutoResubscribe on, in every run of calls, losses, reconnects and reads, whenever
      connected the commands still under way take the server to exactly the client's list. */
  lemma {:induction false} ClientServerAgree(cfg: Config, events: seq<Event>)
    requires cfg.resubscribe && Reasonable(cfg, events)
    ensures Good(Run(cfg, events))
  {
    if events == [] {
      assert ToSet<string>([]) - {"all"} == {};
    } else {
      ClientServerAgree(cfg, events[..|events| - 1]);
      StepAgrees(cfg, Run(cfg, events[..|events| - 1]), events[|events| - 1]);
    }
  }

  // ---------------------------------------------------------------- every run, with or without it

  /** The server ends up with nothing the client does not list. */
  ghost predicate Covered(w: World) {
    w.link.Up? ==> Within(Abs(Drained(w.link)), w.list)
  }

  ghost predicate Within(a: Abstract, list: seq<string>) {
    (a.any ==> "all" in list) && (forall n | n in a.names :: n in list)
  }

  ghost predicate Known(w: World) {
    LinkOk(w.link) && Covered(w) && (forall n | n in w.list :: WellFormed(n)) && NoDup(w.list)
  }

  lemma SubCovered(cfg: Config, w: World, now: int, x: string)
    requires Known(w) && WellFormed(x) && x in w.list
    ensures Known(Send(cfg, w, now, "S " + x)) && Send(cfg, w, now, "S " + x).list == w.list
  {
    if Checked(w, now).link.Up? {
      SendSub(cfg, w.link, x);
    }
  }

  lemma {:induction false} ResubscribeCovered(cfg: Config, w: World, now: int, items: seq<string>)
    requires Known(w) && (forall n | n in items :: n in w.list)
    ensures Known(Resubscribe(cfg, w, now, items)) && Resubscribe(cfg, w, now, items).list == w.list
    decreases |items|
  {
    if items != [] {
      assert items[0] in items;
      SubCovered(cfg, w, now, items[0]);
      ResubscribeCovered(cfg, Send(cfg, w, now, "S " + items[0]), now, items[1..]);
    }
  }

  lemma ConnectCovered(cfg: Config, w: World, now: int, reachable: bool)
    requires Known(w)
    ensures var (u, r) := Connect(cfg, w, now, reachable); Known(u) && u.list == w.list
  {
    var v := Checked(w, now);
    if v.link.Down? && reachable {
      var start := v.(lastPing := now, link := Up("", "", NO_SUBS));
      SendPlain(cfg, start.link, "pong");
      ResubscribeCovered(cfg, Send(cfg, start, now, "pong"), now, w.list);
    }
  }

  lemma EnsureCovered(cfg: Config, w: World, now: int, reachable: bool)
    requires Known(w)
    ensures var (u, r) := Ensure(cfg, w, now, reachable); Known(u) && u.list == w.list
  {
    ConnectCovered(cfg, Checked(w, now), now, reachable);
  }

  lemma SubscribeCovered(cfg: Config, w: World, now: int, reachable: bool, wiki: string)
    requires Known(w) && WellFormed(wiki)
    ensures Known(Subscribe(cfg, w, now, reachable, wiki).0)
  {
    var (v, r) := Ensure(cfg, w, now, reachable);
    EnsureCovered(cfg, w, now, reachable);
    if r == Returned(true) {
      WantedAdd(v.list, wiki);
      SubCovered(cfg, v.(list := Add(v.list, wiki)), now, wiki);
    }
  }

  lemma EraseNames(list: seq<string>, wiki: string)
    requires NoDup(list)
    ensures NoDup(Erase(list, wiki)) && forall n :: n in Erase(list, wiki) <==> n in list && n != wiki
  {
    EraseNoDup(list, wiki);
    assert forall n :: n in Erase(list, wiki) <==> n in ToSet(Erase(list, wiki));
    assert forall n :: n in list <==> n in ToSet(list);
  }

  lemma UnsubCovered(cfg: Config, v: World, now: int, wiki: string)
    requires Known(v) && WellFormed(wiki)
    ensures Known(Send(cfg, v.(list := Erase(v.list, wiki)), now, "D " + wiki))
  {
    EraseNames(v.list, wiki);
    if Checked(v, now).link.Up? {
      SendUnsub(cfg, v.link, wiki);
    }
  }

  lemma UnsubscribeCovered(cfg: Config, w: World, now: int, reachable: bool, wiki: string)
    requires Known(w) && WellFormed(wiki)
    ensures Known(Unsubscribe(cfg, w, now, reachable, wiki).0)
  {
    var (v, r) := Ensure(cfg, w, now, reachable);
    EnsureCovered(cfg, w, now, reachable);
    if r == Returned(true) {
      UnsubCovered(cfg, v, now, wiki);
    }
  }

  /** In every run with well-formed names, resubscribing or not and however many names, the server
      never ends up with a subscription the client does not list. */
  lemma {:induction false} ServerWithinList(cfg: Config, events: seq<Event>)
    requires forall e | e in events ::
               (e.DoSubscribe? ==> WellFormed(e.wiki)) && (e.DoUnsubscribe? ==> WellFormed(e.wiki))
    ensures Known(Run(cfg, events))
  {
    if events != [] {
      var e, w := events[|events| - 1], Run(cfg, events[..|events| - 1]);
      assert e in events;
      ServerWithinList(cfg, events[..|events| - 1]);
      match e
      case DoSubscribe(wiki, now, reachable) => SubscribeCovered(cfg, w, now, reachable, wiki);
      case DoUnsubscribe(wiki, now, reachable) => UnsubscribeCovered(cfg, w, now, reachable, wiki);
      case DoConnect(now, reachable) => ConnectCovered(cfg, w, now, reachable);
      case _ => PlainCovered(cfg, w, e);
    }
  }

  lemma PlainCovered(cfg: Config, w: World, e: Event)
    requires Known(w) && (e.Hear? || e.SendPing? || e.Drop? || e.Read?)
    ensures Known(Apply(cfg, w, e))
  {
    if w.link.Up? {
      match e
      case Hear(_, _) => SendPlain(cfg, w.link, "pong");
      case SendPing(_) => SendPlain(cfg, w.link, "ping");
      case Drop =>
      case Read => ReadDrains(w.link);
    }
  }

  // ---------------------------------------------------------------- exactly when one call agrees

  /** No server state stands for a list with a name that is ill-formed or one too many. */
  lemma Refused(s: Subs, list: seq<string>, wiki: string)
    requires ServerOk(s) && wiki !in list
    requires !WellFormed(wiki) || (wiki != "all" && Explicit(list) > MAX_SUBSCRIPTIONS)
    ensures Abs(s) != Wanted(Add(list, wiki))
  {
    WantedAdd(list, wiki);
    NoDupCard(s.names);
    var names := Wanted(list).names;
    assert wiki !in names;
    if !WellFormed(wiki) {
      assert wiki != "all" by {
        assert WellFormed("all");
      }
      assert wiki !in ToSet(s.names);
    } else {
      assert |names + {wiki}| == |names| + 1;
    }
  }

  /** A connected Subscribe of any text whatever keeps the agreement exactly when the name is
      listed already, or is well-formed and there is room for it at the server. */
  lemma SubscribeAgreesIff(cfg: Config, w: World, now: int, reachable: bool, wiki: string)
    requires Good(w) && Checked(w, now).link.Up?
    ensures Agree(Subscribe(cfg, w, now, reachable, wiki).0) <==>
            wiki in w.list || (WellFormed(wiki) && (wiki == "all" || Explicit(w.list) <= MAX_SUBSCRIPTIONS))
  {
    var u := Subscribe(cfg, w, now, reachable, wiki).0;
    if wiki in w.list || (WellFormed(wiki) && (wiki == "all" || Explicit(w.list) <= MAX_SUBSCRIPTIONS)) {
      SubAgrees(cfg, w, now, w.list, wiki);
    } else {
      SendLinkOk(cfg, w.link, "S " + wiki);
      Refused(Drained(u.link), w.list, wiki);
    }
  }

  /** The lines the server reads of a command, which are several if the text has line breaks. */
  function ServerLines(cfg: Config, text: string): seq<string> {
    Lines("", Encode(text) + Eol(cfg))
  }

  lemma SendRuns(cfg: Config, l: Link, text: string)
    requires l.Up? && LinkOk(l)
    ensures var sent := l.(wire := l.wire + (Encode(text) + Eol(cfg)));
      && Abs(Drained(sent)) == AbsExecAll(ServerLines(cfg, text), Abs(Drained(l)))
      && (Ending(sent) <==> Ending(l) || "exit" in ServerLines(cfg, text))
  {
    var bytes := Encode(text) + Eol(cfg);
    LinesAppend(l.partial, l.wire, bytes);
    ExecAllAppend(Lines(l.partial, l.wire), Lines("", bytes), l.server);
    RunsRefine(ServerLines(cfg, text), Drained(l));
  }

  /** A connected Unsubscribe of any text, line breaks included, keeps the agreement exactly when the lines
      that the server reads of it do to the client's list what the client does and none of them is exit. */
  lemma UnsubscribeAgreesIff(cfg: Config, w: World, now: int, reachable: bool, wiki: string)
    requires Good(w) && Checked(w, now).link.Up?
    ensures var lines := ServerLines(cfg, "D " + wiki);
            Agree(Unsubscribe(cfg, w, now, reachable, wiki).0) <==>
            "exit" !in lines && AbsExecAll(lines, Wanted(w.list)) == Wanted(Erase(w.list, wiki))
  {
    SendRuns(cfg, w.link, "D " + wiki);
  }

  /** What the server does with the name it reads agrees with the client exactly when that name is not listed,
      given that the one the client was asked for is not. */
  lemma UnlistedErase(list: seq<string>, wiki: string, t: string)
    requires wiki !in list && NoDup(list)
    ensures AbsExec(Unsub(t), Wanted(list)) == Wanted(Erase(list, wiki)) <==> t !in list
  {
    NotListed(list, wiki);
    assert t in list <==> t in ToSet(list);
  }

  /** For a text of one line: when the name is listed, or what the server makes of it is not. */
  lemma UnsubscribeOneLineIff(cfg: Config, w: World, now: int, reachable: bool, wiki: string)
    requires Good(w) && Checked(w, now).link.Up? && OneLine(Encode(wiki))
    ensures Agree(Unsubscribe(cfg, w, now, reachable, wiki).0) <==>
            wiki in w.list || SkipSpaces(Encode(wiki)) !in w.list
  {
    if wiki in w.list {
      UnsubAgrees(cfg, w, now, w.list, wiki);
    } else {
      SendD(cfg, w.link, wiki);
      UnlistedErase(w.list, wiki, SkipSpaces(Encode(wiki)));
    }
  }

  // ---------------------------------------------------------------- what goes over the wire

  /** The bytes of a series of lines. */
  function Bytes(cfg: Config, texts: seq<string>): string {
    if texts == [] then "" else Encode(texts[0]) + Eol(cfg) + Bytes(cfg, texts[1..])
  }

  function CommandsFor(letter: string, names: seq<string>): (r: seq<string>)
    ensures |r| == |names|
  {
    if names == [] then [] else [letter + " " + names[0]] + CommandsFor(letter, names[1..])
  }

  /** The server has been heard within the last twenty seconds of a standing connection. */
  predicate Live(w: World, now: int) {
    w.link.Up? && now <= w.lastPing + 20
  }

  lemma {:induction false} ResubscribeSays(cfg: Config, w: World, now: int, items: seq<string>)
    requires w.link.Up? && w.lastPing == now
    ensures Resubscribe(cfg, w, now, items) ==
      w.(link := w.link.(wire := w.link.wire + Bytes(cfg, CommandsFor("S", items))))
    decreases |items|
  {
    if items == [] {
      assert w.link.wire + "" == w.link.wire;
    } else {
      var bytes := Encode("S " + items[0]) + Eol(cfg);
      assert "S" + " " + items[0] == "S " + items[0];
      var rest := CommandsFor("S", items[1..]);
      assert CommandsFor("S", items)[1..] == rest;
      ResubscribeSays(cfg, w.(link := w.link.(wire := w.link.wire + bytes)), now, items[1..]);
      assert w.link.wire + bytes + Bytes(cfg, rest) == w.link.wire + (bytes + Bytes(cfg, rest));
    }
  }

  /** A connection that is made says pong and, if that is wanted, S for every listed name in order, and nothing else;
      the clock of the last ping is set even if the socket cannot be opened. */
  lemma ConnectSays(cfg: Config, w: World, now: int, reachable: bool)
    ensures var (u, r) := Connect(cfg, w, now, reachable);
      if Live(w, now) then (u, r) == (w, Returned(false))
      else if !reachable then (u, r) == (w.(link := Down, lastPing := now), Threw)
      else
        && r == Returned(true)
        && u == w.(lastPing := now,
             link := Up("", Bytes(cfg, ["pong"] + if cfg.resubscribe then CommandsFor("S", w.list) else []), NO_SUBS))
  {
    if !Live(w, now) && reachable {
      var start := w.(lastPing := now, link := Up("", "", NO_SUBS));
      var said := start.(link := start.link.(wire := Encode("pong") + Eol(cfg)));
      assert "" + (Encode("pong") + Eol(cfg)) == Encode("pong") + Eol(cfg);
      assert Send(cfg, start, now, "pong") == said;
      ResubscribeSays(cfg, said, now, w.list);
      var more := if cfg.resubscribe then CommandsFor("S", w.list) else [];
      assert (["pong"] + more)[1..] == more;
      assert Encode("pong") + Eol(cfg) + "" == Encode("pong") + Eol(cfg);
    }
  }

  /** What a call does first: nothing on a live connection, and a connect if it may. */
  lemma EnsureTable(cfg: Config, w: World, now: int, reachable: bool)
    ensures Ensure(cfg, w, now, reachable) ==
      if Live(w, now) then (w, Returned(true))
      else if !cfg.autoconn || w.disconnecting then (w.(link := Down), Returned(false))
      else Connect(cfg, w.(link := Down), now, reachable)
  {
  }

  /** A call that answers True has said its own line once, after whatever the connect said. */
  lemma CallsSay(cfg: Config, w: World, now: int, reachable: bool, wiki: string)
    requires Ensure(cfg, w, now, reachable).1 == Returned(true)
    ensures var v := Ensure(cfg, w, now, reachable).0;
      && v.link.Up?
      && Subscribe(cfg, w, now, reachable, wiki) ==
           (v.(list := Add(v.list, wiki), link := v.link.(wire := v.link.wire + (Encode("S " + wiki) + Eol(cfg)))), Returned(true))
      && Unsubscribe(cfg, w, now, reachable, wiki) ==
           (v.(list := Erase(v.list, wiki), link := v.link.(wire := v.link.wire + (Encode("D " + wiki) + Eol(cfg)))), Returned(true))
  {
    EnsureTable(cfg, w, now, reachable);
    ConnectSays(cfg, w.(link := Down), now, reachable);
  }

  /** The other things a client says: pong to a ping and to nothing else, and its own ping; what it hears sets the
      clock, and none of it touches the list. */
  lemma EventsSay(cfg: Config, w: World, now: int)
    ensures Apply(cfg, w, Hear(now, false)) == w.(lastPing := now)
    ensures Apply(cfg, w, Hear(now, true)) ==
      if w.link.Up? then w.(lastPing := now, link := w.link.(wire := w.link.wire + Bytes(cfg, ["pong"]))) else w.(lastPing := now)
    ensures Apply(cfg, w, SendPing(now)) ==
      if Live(w, now) then w.(link := w.link.(wire := w.link.wire + Bytes(cfg, ["ping"]))) else w.(link := Down)
    ensures Apply(cfg, w, Drop) == w.(link := Down)
  {
    assert Bytes(cfg, ["pong"]) == Encode("pong") + Eol(cfg) && Bytes(cfg, ["ping"]) == Encode("ping") + Eol(cfg);
  }

  /** Reading so many bytes. */
  function ReadMany(l: Link, n: nat): Link
    decreases n
  {
    if n == 0 then l else ReadMany(ServerRead(l), n - 1)
  }

  /** The server reads what is under way: with no line exit in it, it ends up where the link was heading with nothing
      left; and otherwise it ends the connection. */
  lemma {:induction false} ReadsAll(l: Link)
    requires l.Up? && LinkOk(l)
    ensures ReadMany(l, |l.wire|) == if Ending(l) then Down else Up(Tail(l.partial, l.wire), "", Drained(l))
    decreases |l.wire|
  {
    if l.wire != [] {
      ReadDrains(l);
      ReadOne(l);
      if ServerRead(l).Up? {
        ReadsAll(ServerRead(l));
      } else {
        DownStays(|l.wire| - 1);
      }
    }
  }

  lemma ReadOne(l: Link)
    requires l.Up? && l.wire != []
    ensures var u := ServerRead(l);
      if l.wire[0] == '\n' && l.partial == "exit" then u.Down? && Ending(l)
      else
        && u.Up? && u.wire == l.wire[1..] && Tail(u.partial, u.wire) == Tail(l.partial, l.wire)
        && (Ending(u) <==> Ending(l))
  {
    if l.wire[0] == '\n' {
      var rest := Lines("", l.wire[1..]);
      assert Lines(l.partial, l.wire) == [l.partial] + rest;
    }
  }

  lemma {:induction false} DownStays(n: nat)
    ensures ReadMany(Down, n) == Down
  {
    if n > 0 {
      DownStays(n - 1);
    }
  }

  /** ASCII goes through, and each other character becomes a question mark. */
  lemma EncodeTable(text: string, i: nat)
    requires i < |text|
    ensures |Encode(text)| == |text| && Encode(text)[i] == if text[i] <= '\U{7F}' then text[i] else '?'
  {
  }

  /** A call that answers False or throws leaves the list alone; one that answers True has the name in it, or
      out of it, and nothing else changed. */
  lemma OnlyTrueLists(cfg: Config, w: World, now: int, reachable: bool, wiki: string, n: string)
    requires NoDup(w.list)
    ensures var (u, r) := Subscribe(cfg, w, now, reachable, wiki);
      if r == Returned(true) then n in u.list <==> n in w.list || n == wiki else u.list == w.list
    ensures var (u, r) := Unsubscribe(cfg, w, now, reachable, wiki);
      if r == Returned(true) then n in u.list <==> n in w.list && n != wiki else u.list == w.list
  {
    EnsureList(cfg, w, now, reachable);
    EraseNames(w.list, wiki);
  }

  lemma {:induction false} ResubscribeList(cfg: Config, w: World, now: int, items: seq<string>)
    ensures Resubscribe(cfg, w, now, items).list == w.list
    decreases |items|
  {
    if items != [] {
      ResubscribeList(cfg, Send(cfg, w, now, "S " + items[0]), now, items[1..]);
    }
  }

  lemma EnsureList(cfg: Config, w: World, now: int, reachable: bool)
    ensures Ensure(cfg, w, now, reachable).0.list == w.list
  {
    var v := Checked(w, now);
    var u := Send(cfg, v.(lastPing := now, link := Up("", "", NO_SUBS)), now, "pong");
    ResubscribeList(cfg, u, now, u.list);
  }

  lemma NotListed(list: seq<string>, wiki: string)
    requires wiki !in list
    ensures Erase(list, wiki) == list
  {}

  /** A reconnect restores the agreement exactly when AutoResubscribe is on or nothing was listed. */
  lemma ReconnectAgreesIff(cfg: Config, w: World, now: int)
    requires Good(w) && w.link.Down?
    ensures Agree(Connect(cfg, w, now, true).0) <==> cfg.resubscribe || w.list == []
  {
    if cfg.resubscribe {
      ConnectAgrees(cfg, w, now, true);
    } else {
      var start := w.(lastPing := now, link := Up("", "", NO_SUBS));
      SendPlain(cfg, start.link, "pong");
      if w.list != [] {
        assert w.list[0] in w.list;
        assert w.list[0] in ToSet(w.list);
      } else {
        assert ToSet(w.list) == {};
      }
    }
  }

  /** The library's own example builds the Provider with autoreconnect alone: after one loss its
      subscription, whichever it is, is listed and not in force. */
  lemma LostAfterReconnect(crlf: bool, wiki: string)
    requires WellFormed(wiki)
    ensures !Agree(Run(Config(true, false, crlf), [DoSubscribe(wiki, 0, true), Drop, DoConnect(0, true)]))
  {
    var cfg := Config(true, false, crlf);
    var events := [DoSubscribe(wiki, 0, true), Drop, DoConnect(0, true)];
    assert events[..2][..1] == events[..1] && events[..1][..0] == [];
    assert Run(cfg, events[..1]) == Apply(cfg, FRESH, DoSubscribe(wiki, 0, true));
    var w := Run(cfg, events[..2]);
    assert w == Subscribe(cfg, FRESH, 0, true, wiki).0.(link := Down);
    assert w.list == [wiki];
    SingleGood(wiki);
    ReconnectAgreesIff(cfg, w, 0);
  }

  lemma SingleGood(wiki: string)
    requires WellFormed(wiki)
    ensures GoodList([wiki])
  {
    CardMonotone(ToSet([wiki]) - {"all"}, {wiki});
  }
}
