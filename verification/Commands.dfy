/** The command language of xmlrcsd as functions on values: what one line does to a
    client's subscriptions and which reply it earns.  src/xmlrcsd/client.cpp. */
module Commands {
  import opened Base

  const MAX_SUBSCRIPTIONS := 800
  const MAX_SUBSCR_SIZE := 200

  /** Seconds of silence after which the Killer removes a client. */
  const TIMEOUT := 80

  /** The flag SubscribedAny and the vector Subscriptions. */
  datatype Subs = Subs(any: bool, names: seq<string>)

  const NO_SUBS := Subs(false, [])

  datatype Status = Fine | AlreadyExist | Invalid | NotExist | TooMany

  /** The test of the fan-out: the flag or an explicit name. */
  predicate Matches(s: Subs, site: string) {
    s.any || site in s.names
  }

  function Subscribe(s: Subs, wiki: string): (Subs, Status) {
    if wiki == "all" then
      if s.any then (s, AlreadyExist) else (s.(any := true), Fine)
    else if |s.names| > MAX_SUBSCRIPTIONS then (s, TooMany)
    else if |wiki| == 0 || |wiki| > MAX_SUBSCR_SIZE then (s, Invalid)
    else if wiki in s.names then (s, AlreadyExist)
    else (s.(names := s.names + [wiki]), Fine)
  }

  function Unsubscribe(s: Subs, wiki: string): (Subs, Status) {
    if wiki == "all" then
      if s.any then (s.(any := false), Fine) else (s, NotExist)
    else if |wiki| == 0 then (s, Invalid)
    else if wiki !in s.names then (s, NotExist)
    else (s.(names := Erase(s.names, wiki)), Fine)
  }

  function SkipSpaces(s: string): string {
    if |s| > 0 && s[0] == ' ' then SkipSpaces(s[1..]) else s
  }

  datatype Command = Exit | Version | Sub(wiki: string) | Unsub(wiki: string) | Clear | Ping | Stat | Pong | Unknown

  function Parse(line: string): Command {
    if line == "exit" then Exit
    else if line == "version" then Version
    else if |line| >= 2 && line[..2] == "S " then Sub(SkipSpaces(line[2..]))
    else if |line| >= 2 && line[..2] == "D " then Unsub(SkipSpaces(line[2..]))
    else if line == "clear" then Clear
    else if line == "ping" then Ping
    else if line == "stat" then Stat
    else if line == "pong" then Pong
    else Unknown
  }

  function Ok(message: string): string {
    "<ok>" + message + "</ok>"
  }

  function MakeError(text: string, code: string): string {
    "<error code=\"" + code + "\">" + text + "</error>"
  }

  function SubReply(line: string, st: Status): string {
    match st
    case Fine => Ok(line)
    case AlreadyExist => MakeError("You are already subscribed to this one", "1")
    case Invalid => MakeError("This is not a valid wiki name", "2")
    case NotExist => MakeError("You are not subscribed to this one", "4")
    case TooMany => MakeError("You subscribed to too many wikis now", "8")
  }

  /** The effect of a command on the subscriptions, and the reply, if any.  `stat` is the text of
      the statistics line, which depends on clocks and counters outside this module. */
  function ExecCommand(c: Command, line: string, stat: string, s: Subs): (Subs, Option<string>) {
    match c
    case Exit => (s, None)
    case Pong => (s, None)
    case Version => (s, Some("<versioninfo>1.1.0</versioninfo>"))
    case Sub(wiki) => var (t, st) := Subscribe(s, wiki); (t, Some(SubReply(line, st)))
    case Unsub(wiki) => var (t, st) := Unsubscribe(s, wiki); (t, Some(SubReply(line, st)))
    case Clear => (s.(names := []), Some("<ok></ok>"))
    case Ping => (s, Some("<pong></pong>"))
    case Stat => (s, Some(stat))
    case Unknown => (s, Some(MakeError("Unknown: " + line, "0")))
  }

  /** The same for a line as read. */
  function Exec(line: string, stat: string, s: Subs): (Subs, Option<string>) {
    ExecCommand(Parse(line), line, stat, s)
  }

  /** Does running the command take subscriptions_lock?  Subscribe takes it only to push a name
      that passed every check, Unsubscribe for every explicit name, and clear always. */
  predicate TakesSubsLock(c: Command, s: Subs) {
    match c
    case Sub(wiki) => wiki != "all" && Subscribe(s, wiki).1 == Fine
    case Unsub(wiki) => wiki != "all" && wiki != ""
    case Clear => true
    case _ => false
  }

  // ---------------------------------------------------------------- reachable subscriptions

  /** What the vector satisfies after every command sequence. */
  ghost predicate Sound(s: Subs) {
    && NoDup(s.names)
    && "all" !in s.names
    && (forall n | n in s.names :: 1 <= |n| <= MAX_SUBSCR_SIZE)
    && |s.names| <= MAX_SUBSCRIPTIONS + 1
  }

  function ExecAll(lines: seq<string>, s: Subs): Subs {
    if lines == [] then s else ExecAll(lines[1..], Exec(lines[0], "", s).0)
  }

  /** The replies to a run of lines, up to the first exit. */
  function Answers(lines: seq<string>, stat: string, s: Subs): seq<string> {
    if lines == [] || lines[0] == "exit" then []
    else
      var (t, reply) := Exec(lines[0], stat, s);
      (if reply.Some? then [reply.value] else []) + Answers(lines[1..], stat, t)
  }

  /** One more line has its effect. */
  lemma {:induction false} ExecAllPush(lines: seq<string>, line: string, stat: string, s: Subs)
    ensures ExecAll(lines + [line], s) == Exec(line, stat, ExecAll(lines, s)).0
  {
    if lines == [] {
      assert [] + [line] == [line] && [line][1..] == [];
    } else {
      assert (lines + [line])[1..] == lines[1..] + [line];
      ExecAllPush(lines[1..], line, stat, Exec(lines[0], "", s).0);
    }
  }

  /** One more line adds its answer. */
  lemma {:induction false} AnswersPush(lines: seq<string>, line: string, stat: string, s: Subs)
    requires "exit" !in lines && line != "exit"
    ensures var r := Exec(line, stat, ExecAll(lines, s)).1;
      Answers(lines + [line], stat, s) == Answers(lines, stat, s) + (if r.Some? then [r.value] else [])
  {
    if lines == [] {
      assert [] + [line] == [line] && [line][1..] == [];
    } else {
      assert (lines + [line])[1..] == lines[1..] + [line];
      assert Exec(lines[0], stat, s).0 == Exec(lines[0], "", s).0;
      AnswersPush(lines[1..], line, stat, Exec(lines[0], stat, s).0);
    }
  }

  lemma CommandSound(c: Command, line: string, stat: string, s: Subs)
    requires Sound(s)
    ensures Sound(ExecCommand(c, line, stat, s).0)
  {
    if c.Unsub? {
      EraseNoDup(s.names, c.wiki);
      var r := Erase(s.names, c.wiki);
      assert forall n :: n in r <==> n in ToSet(r);
      assert forall n :: n in s.names <==> n in ToSet(s.names);
    }
  }

  lemma ExecSound(line: string, stat: string, s: Subs)
    requires Sound(s)
    ensures Sound(Exec(line, stat, s).0)
  {
    CommandSound(Parse(line), line, stat, s);
  }

  /** Over every command sequence the vector holds no duplicate, never "all", only names of
      length 1..200, and at most 801 of them. */
  lemma {:induction false} RunsSound(lines: seq<string>, s: Subs)
    requires Sound(s)
    ensures Sound(ExecAll(lines, s))
  {
    if lines != [] {
      ExecSound(lines[0], "", s);
      RunsSound(lines[1..], Exec(lines[0], "", s).0);
    }
  }

  // ---------------------------------------------------------------- refinement of (flag, set)

  /** The reference: a flag and a set, with the rules a client is told about. */
  datatype Abstract = Abstract(any: bool, names: set<string>)

  ghost function Abs(s: Subs): Abstract {
    Abstract(s.any, ToSet(s.names))
  }

  ghost function AbsExec(c: Command, a: Abstract): Abstract {
    match c
    case Sub(w) =>
      if w == "all" then a.(any := true)
      else if 1 <= |w| <= MAX_SUBSCR_SIZE && |a.names| <= MAX_SUBSCRIPTIONS then a.(names := a.names + {w})
      else a
    case Unsub(w) => if w == "all" then a.(any := false) else a.(names := a.names - {w})
    case Clear => a.(names := {})
    case _ => a
  }

  predicate IsOk(reply: Option<string>) {
    reply.Some? && |reply.value| >= 4 && reply.value[..4] == "<ok>"
  }

  lemma ReplyKind(line: string, st: Status)
    ensures IsOk(Some(SubReply(line, st))) <==> st == Fine
  {
    var r := SubReply(line, st);
    if st == Fine {
      assert r[..4] == "<ok>";
    } else {
      assert r[1] == 'e';
    }
  }

  lemma SubscribeRefines(wiki: string, s: Subs)
    requires Sound(s)
    ensures Abs(Subscribe(s, wiki).0) == AbsExec(Sub(wiki), Abs(s))
    ensures Subscribe(s, wiki).1 == Fine <==> AbsExec(Sub(wiki), Abs(s)) != Abs(s)
  {
    NoDupCard(s.names);
    assert wiki in s.names <==> wiki in ToSet(s.names);
    assert ToSet(s.names + [wiki]) == ToSet(s.names) + {wiki};
  }

  lemma UnsubscribeRefines(wiki: string, s: Subs)
    requires Sound(s)
    ensures Abs(Unsubscribe(s, wiki).0) == AbsExec(Unsub(wiki), Abs(s))
    ensures Unsubscribe(s, wiki).1 == Fine <==> AbsExec(Unsub(wiki), Abs(s)) != Abs(s)
  {
    EraseNoDup(s.names, wiki);
    assert wiki in s.names <==> wiki in ToSet(s.names);
    if wiki != "all" && wiki !in s.names {
      assert ToSet(s.names) - {wiki} == ToSet(s.names);
    }
  }

  /** The flag and vector behave as the flag and set, and for S and D the reply is <ok> exactly
      when the abstract state changed.  Every command but pong and exit earns one reply. */
  lemma CommandRefines(c: Command, line: string, stat: string, s: Subs)
    requires Sound(s)
    ensures Abs(ExecCommand(c, line, stat, s).0) == AbsExec(c, Abs(s))
    ensures c.Sub? || c.Unsub? ==>
              (IsOk(ExecCommand(c, line, stat, s).1) <==> AbsExec(c, Abs(s)) != Abs(s))
    ensures ExecCommand(c, line, stat, s).1.None? <==> c.Pong? || c.Exit?
  {
    match c
    case Sub(wiki) =>
      SubscribeRefines(wiki, s);
      ReplyKind(line, Subscribe(s, wiki).1);
    case Unsub(wiki) =>
      UnsubscribeRefines(wiki, s);
      ReplyKind(line, Unsubscribe(s, wiki).1);
    case _ =>
  }

  /** The reference over a series of lines. */
  ghost function AbsExecAll(lines: seq<string>, a: Abstract): Abstract {
    if lines == [] then a else AbsExecAll(lines[1..], AbsExec(Parse(lines[0]), a))
  }

  lemma {:induction false} RunsRefine(lines: seq<string>, s: Subs)
    requires Sound(s)
    ensures Abs(ExecAll(lines, s)) == AbsExecAll(lines, Abs(s))
  {
    if lines != [] {
      ExecSound(lines[0], "", s);
      ExecRefines(lines[0], "", s);
      RunsRefine(lines[1..], Exec(lines[0], "", s).0);
    }
  }

  lemma ExecRefines(line: string, stat: string, s: Subs)
    requires Sound(s)
    ensures Abs(Exec(line, stat, s).0) == AbsExec(Parse(line), Abs(s))
  {
    CommandRefines(Parse(line), line, stat, s);
  }
}
