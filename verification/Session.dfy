/** The command side of one client connection, in the form of the source: fields that the
    command thread updates while it reads its socket.  src/xmlrcsd/client.cpp. */
module Session {
  import opened Base
  import opened Commands
  import opened LineReader

  const EALREADYEXIST := 1
  const EINVALID := 2
  const ENOTEXIST := 4
  const ETOOMANYSUBS := 8

  function Code(st: Status): int {
    match st
    case Fine => 0
    case AlreadyExist => EALREADYEXIST
    case Invalid => EINVALID
    case NotExist => ENOTEXIST
    case TooMany => ETOOMANYSUBS
  }

  predicate EndsInBreak(s: string) {
    s != [] && (s[|s| - 1] == '\n' || s[|s| - 1] == '\r')
  }

  function Sanitized(name: string): string {
    if EndsInBreak(name) then "" else name
  }

  /** The source tests the last character once and then strips until nothing is left. */
  method Sanitize(name: string) returns (r: string)
    ensures r == Sanitized(name)
    ensures OneLine(name) ==> r == name
  {
    if |name| == 0 {
      return name;
    }
    var last := name[|name| - 1];
    r := name;
    while |r| > 0 && (last == '\n' || last == '\r')
      invariant !EndsInBreak(name) ==> r == name
    {
      r := r[..|r| - 1];
    }
  }

  /** What a run of command lines leaves, up to the first exit. */
  function Final(lines: seq<string>, stat: string, s: Subs): Subs {
    if lines == [] || lines[0] == "exit" then s
    else Final(lines[1..], stat, Exec(lines[0], stat, s).0)
  }

  /** What a session changes: the subscriptions, the replies enqueued and LastPing. */
  datatype Track = Track(view: Subs, sent: seq<string>, last: int)

  /** One command line, read at the time `now`. */
  function Handled(t: Track, line: string, stat: string, now: int): Track {
    var (view, reply) := Exec(line, stat, t.view);
    Track(view, t.sent + (if reply.Some? then [reply.value] else []), if line != "" then now else t.last)
  }

  /** The lines up to the first exit, of which the first is the k-th of the session. */
  function Served(lines: seq<string>, stat: string, k: nat, clock: nat -> int, t: Track): Track
    decreases |lines|
  {
    if lines == [] || lines[0] == "exit" then t
    else Served(lines[1..], stat, k + 1, clock, Handled(t, lines[0], stat, clock(k)))
  }

  /** LastPing is the time of the last line that was not empty. */
  function LastHeard(lines: seq<string>, k: nat, clock: nat -> int, last: int): int
    decreases |lines|
  {
    if lines == [] || lines[0] == "exit" then last
    else LastHeard(lines[1..], k + 1, clock, if lines[0] != "" then clock(k) else last)
  }

  /** The first line is handled, then the rest. */
  lemma ServedFirst(line: string, rest: seq<string>, stat: string, k: nat, clock: nat -> int, t: Track)
    requires line != "exit"
    ensures Served([line] + rest, stat, k, clock, t) == Served(rest, stat, k + 1, clock, Handled(t, line, stat, clock(k)))
  {
    assert ([line] + rest)[1..] == rest;
  }

  /** The three parts apart. */
  lemma {:induction false} ServedParts(lines: seq<string>, stat: string, k: nat, clock: nat -> int, t: Track)
    ensures Served(lines, stat, k, clock, t) ==
            Track(Final(lines, stat, t.view), t.sent + Answers(lines, stat, t.view), LastHeard(lines, k, clock, t.last))
    decreases |lines|
  {
    if lines != [] && lines[0] != "exit" {
      var u := Handled(t, lines[0], stat, clock(k));
      ServedParts(lines[1..], stat, k + 1, clock, u);
      var (view, reply) := Exec(lines[0], stat, t.view);
      var one := if reply.Some? then [reply.value] else [];
      assert t.sent + one + Answers(lines[1..], stat, view) == t.sent + (one + Answers(lines[1..], stat, view));
    } else {
      assert t.sent + [] == t.sent;
    }
  }

  /** The lines that are answered: all before the first exit but pong. */
  function Answered(lines: seq<string>): nat {
    if lines == [] || lines[0] == "exit" then 0
    else (if lines[0] == "pong" then 0 else 1) + Answered(lines[1..])
  }

  /** Every command line except pong and exit is answered by exactly one line. */
  lemma {:induction false} OneReplyEach(lines: seq<string>, stat: string, s: Subs)
    ensures |Answers(lines, stat, s)| == Answered(lines)
  {
    if lines != [] && lines[0] != "exit" {
      OneReplyEach(lines[1..], stat, Exec(lines[0], stat, s).0);
    }
  }

  /** The subscriptions stay sound and follow the flag and the set over every run of lines. */
  lemma {:induction false} SessionRefines(lines: seq<string>, stat: string, s: Subs)
    requires Sound(s)
    ensures Sound(Final(lines, stat, s))
    ensures Abs(Final(lines, stat, s)) == AbsFinal(lines, Abs(s))
  {
    if lines != [] && lines[0] != "exit" {
      ExecSound(lines[0], stat, s);
      ExecRefines(lines[0], stat, s);
      SessionRefines(lines[1..], stat, Exec(lines[0], stat, s).0);
    }
  }

  ghost function AbsFinal(lines: seq<string>, a: Abstract): Abstract {
    if lines == [] || lines[0] == "exit" then a else AbsFinal(lines[1..], AbsExec(Parse(lines[0]), a))
  }

  class Client {
    var SubscribedAny: bool
    var Subscriptions: seq<string>
    var OutgoingBuffer: seq<string>
    var LastPing: int
    var killed: bool
    var closed: bool
    var isConnected: bool
    const input: string // every byte the peer will ever send; the end stands for EOF or an error
    var pos: nat

    ghost predicate Valid()
      reads this
    {
      pos <= |input|
    }

    function View(): Subs
      reads this
    {
      Subs(SubscribedAny, Subscriptions)
    }

    function State(): Track
      reads this
    {
      Track(View(), OutgoingBuffer, LastPing)
    }

    constructor (input: string, now: int)
      ensures Valid() && View() == NO_SUBS && OutgoingBuffer == [] && this.input == input && pos == 0
      ensures LastPing == now && isConnected && !killed && !closed
    {
      killed, closed, isConnected := false, false, true;
      SubscribedAny, Subscriptions, OutgoingBuffer := false, [], [];
      LastPing, this.input, pos := now, input, 0;
    }

    method SendLine(line: string)
      modifies this`OutgoingBuffer
      ensures OutgoingBuffer == old(OutgoingBuffer) + [line]
    {
      OutgoingBuffer := OutgoingBuffer + [line];
    }

    /** Reads up to and including the next line feed.  It fails exactly when there is none. */
    method ReadLine() returns (line: string, error: bool)
      requires Valid()
      modifies this`pos
      ensures Valid() && old(pos) <= pos
      ensures error <==> Lines("", input[old(pos)..]) == []
      ensures error ==> pos == |input|
      ensures !error ==> old(pos) < pos && Lines("", input[old(pos)..]) == [line] + Lines("", input[pos..])
      ensures OneLine(line)
    {
      line, error := "", false;
      while true
        invariant old(pos) <= pos <= |input| && OneLine(line)
        invariant Lines("", input[old(pos)..]) == Lines(line, input[pos..])
        decreases |input| - pos
      {
        if pos == |input| {
          error := true;
          return;
        }
        var c := input[pos];
        assert input[pos..][1..] == input[pos + 1..];
        pos := pos + 1;
        if c == '\r' {
          continue;
        }
        if c == '\n' {
          return;
        }
        line := line + [c];
      }
    }

    method Subscribe(wiki: string) returns (code: int)
      modifies this`SubscribedAny, this`Subscriptions
      ensures var (view, st) := Commands.Subscribe(old(View()), Sanitized(wiki)); View() == view && code == Code(st)
    {
      if wiki == "all" {
        if SubscribedAny {
          return EALREADYEXIST;
        }
        SubscribedAny := true;
        return 0;
      }
      var name := Sanitize(wiki);
      if |Subscriptions| > MAX_SUBSCRIPTIONS {
        return ETOOMANYSUBS;
      }
      if |name| == 0 || |name| > MAX_SUBSCR_SIZE {
        return EINVALID;
      }
      if name in Subscriptions {
        return EALREADYEXIST;
      }
      Subscriptions := Subscriptions + [name];
      return 0;
    }

    method Unsubscribe(wiki: string) returns (code: int)
      modifies this`SubscribedAny, this`Subscriptions
      ensures var (view, st) := Commands.Unsubscribe(old(View()), Sanitized(wiki)); View() == view && code == Code(st)
    {
      if wiki == "all" {
        if !SubscribedAny {
          return ENOTEXIST;
        }
        SubscribedAny := false;
        return 0;
      }
      var name := Sanitize(wiki);
      if |name| == 0 {
        return EINVALID;
      }
      if name !in Subscriptions {
        return ENOTEXIST;
      }
      Subscriptions := Erase(Subscriptions, name);
      return 0;
    }

    /** The reply to S and D by result code. */
    method Reply(line: string, code: int, ghost st: Status)
      requires code == Code(st)
      modifies this`OutgoingBuffer
      ensures OutgoingBuffer == old(OutgoingBuffer) + [SubReply(line, st)]
    {
      if code == 0 {
        SendLine(Ok(line));
      } else if code == EINVALID {
        SendLine(MakeError("This is not a valid wiki name", "2"));
      } else if code == EALREADYEXIST {
        SendLine(MakeError("You are already subscribed to this one", "1"));
      } else if code == ETOOMANYSUBS {
        SendLine(MakeError("You subscribed to too many wikis now", "8"));
      } else {
        SendLine(MakeError("You are not subscribed to this one", "4"));
      }
    }

    static method StripSpaces(text: string) returns (wiki: string)
      ensures wiki == SkipSpaces(text)
    {
      wiki := text;
      while |wiki| > 0 && wiki[0] == ' '
        invariant SkipSpaces(wiki) == SkipSpaces(text)
      {
        wiki := wiki[1..];
      }
    }

    /** One round of the command loop after a line has been read. */
    method HandleLine(line: string, now: int, stat: string)
      requires OneLine(line) && line != "exit"
      modifies this`SubscribedAny, this`Subscriptions, this`OutgoingBuffer, this`LastPing
      ensures State() == Handled(old(State()), line, stat, now)
    {
      if |line| > 0 {
        LastPing := now;
      }
      if line == "version" {
        SendLine("<versioninfo>1.1.0</versioninfo>");
      } else if |line| >= 2 && line[..2] == "S " {
        var wiki := StripSpaces(line[2..]);
        SkipSpacesOneLine(line[2..]);
        ghost var st := Commands.Subscribe(View(), wiki).1;
        var code := Subscribe(wiki);
        Reply(line, code, st);
      } else if |line| >= 2 && line[..2] == "D " {
        var wiki := StripSpaces(line[2..]);
        SkipSpacesOneLine(line[2..]);
        ghost var st := Commands.Unsubscribe(View(), wiki).1;
        var code := Unsubscribe(wiki);
        Reply(line, code, st);
      } else if line == "clear" {
        Subscriptions := [];
        SendLine("<ok></ok>");
      } else if line == "ping" {
        SendLine("<pong></pong>");
      } else if line == "stat" {
        SendLine(stat);
      } else if line == "pong" {
      } else {
        SendLine(MakeError("Unknown: " + line, "0"));
      }
    }

    method Close()
      modifies this`closed
      ensures closed
    {
      if closed {
        return;
      }
      closed := true;
    }

    /** The command loop on a connection that nobody else closes, `clock` being the time at each of its
        lines: it answers the lines of the input in order, up to the first exit, the end of input or a read
        error, and then closes the socket.  On a client that is not connected it does nothing. */
    method CommandLoop(clock: nat -> int, stat: string)
      requires Valid()
      modifies this`pos, this`SubscribedAny, this`Subscriptions, this`OutgoingBuffer, this`LastPing, this`closed
      ensures Valid() && closed == (old(closed) || isConnected)
      ensures var lines := if isConnected then Lines("", input[old(pos)..]) else [];
              State() == Served(lines, stat, 0, clock, old(State()))
    {
      ghost var all := if isConnected then Lines("", input[pos..]) else [];
      var k: nat := 0;
      while isConnected
        invariant Valid() && closed == old(closed)
        invariant Served(all, stat, 0, clock, old(State())) ==
                  Served(if isConnected then Lines("", input[pos..]) else [], stat, k, clock, State())
        decreases |input| - pos
      {
        var line, error := ReadLine();
        if error || line == "exit" {
          Close();
          return;
        }
        ServedFirst(line, Lines("", input[pos..]), stat, k, clock, State());
        HandleLine(line, clock(k), stat);
        k := k + 1;
      }
    }
  }

  lemma {:induction false} SkipSpacesOneLine(s: string)
    requires OneLine(s)
    ensures OneLine(SkipSpaces(s)) && !EndsInBreak(SkipSpaces(s))
  {
    if |s| > 0 && s[0] == ' ' {
      SkipSpacesOneLine(s[1..]);
    }
  }
}
