/** What a series of command lines means for the fan-out, told by the lines alone: which sites a client is sent.
    src/xmlrcsd/client.cpp, src/xmlrcsd/streamitem.cpp. */
module Subscribed {
  import opened Base
  import opened Commands

  // ---------------------------------------------------------------- one command

  predicate Granted(st: Status) {
    st == Fine || st == AlreadyExist
  }

  /** A granted Subscribe adds its site, or all of them, to those sent; a refused one changes nothing. */
  lemma SubscribeMatches(s: Subs, w: string, site: string)
    ensures var (t, st) := Subscribe(s, w);
      Matches(t, site) <==> Matches(s, site) || (Granted(st) && (w == "all" || site == w))
  {
  }

  /** After Unsubscribe the site is sent only if all are, and nothing changes about the others. */
  lemma UnsubscribeMatches(s: Subs, w: string, site: string)
    requires Sound(s) && w != "all"
    ensures var t := Unsubscribe(s, w).0;
      && t.any == s.any && (!s.any ==> !Matches(t, w))
      && (site != w ==> (Matches(t, site) <==> Matches(s, site)))
  {
    EraseNoDup(s.names, w);
    var r := Erase(s.names, w);
    assert forall n :: n in r <==> n in ToSet(r);
    assert forall n :: n in s.names <==> n in ToSet(s.names);
  }

  /** The words of the protocol, each with its effect and its reply. */
  lemma WordsDo(line: string, stat: string, s: Subs)
    ensures line == "version" ==> Exec(line, stat, s) == (s, Some("<versioninfo>1.1.0</versioninfo>"))
    ensures line == "clear" ==> Exec(line, stat, s) == (Subs(s.any, []), Some("<ok></ok>"))
    ensures line == "ping" ==> Exec(line, stat, s) == (s, Some("<pong></pong>"))
    ensures line == "stat" ==> Exec(line, stat, s) == (s, Some(stat))
    ensures line == "pong" || line == "exit" ==> Exec(line, stat, s) == (s, None)
  {
    assert |line| >= 2 ==> line[..2][0] == line[0];
  }

  /** Any other line that is no S or D command is answered by error 0 and has no effect. */
  lemma UnknownDoes(line: string, stat: string, s: Subs)
    requires line !in {"version", "clear", "ping", "stat", "pong", "exit"}
    requires |line| < 2 || line[1] != ' ' || (line[0] != 'S' && line[0] != 'D')
    ensures Exec(line, stat, s) == (s, Some(MakeError("Unknown: " + line, "0")))
  {
    assert |line| >= 2 ==> line[..2][0] == line[0] && line[..2][1] == line[1];
  }

  /** A name after the spaces that follow the command letter. */
  lemma {:induction false} SpacesSkipped(n: nat, w: string)
    requires w == "" || w[0] != ' '
    ensures SkipSpaces(seq(n, _ => ' ') + w) == w
  {
    var s := seq(n, _ => ' ') + w;
    if n == 0 {
      assert s == w;
    } else {
      assert s[1..] == seq(n - 1, _ => ' ') + w;
      SpacesSkipped(n - 1, w);
    }
  }

  lemma ReplyNumbers(line: string, st: Status)
    ensures SubReply(line, st) == match st
      case Fine => Ok(line)
      case AlreadyExist => MakeError("You are already subscribed to this one", "1")
      case Invalid => MakeError("This is not a valid wiki name", "2")
      case NotExist => MakeError("You are not subscribed to this one", "4")
      case TooMany => MakeError("You subscribed to too many wikis now", "8")
  {
  }

  function CommandLine(letter: string, n: nat, w: string): string {
    letter + " " + (seq(n, _ => ' ') + w)
  }

  /** S with any number of spaces: all the cases of a sound vector. */
  lemma SubscribeDoes(n: nat, w: string, stat: string, s: Subs)
    requires Sound(s) && (w == "" || w[0] != ' ')
    ensures var st :=
        if w == "all" then if s.any then AlreadyExist else Fine
        else if |s.names| == 801 then TooMany
        else if |w| == 0 || |w| > 200 then Invalid
        else if w in s.names then AlreadyExist else Fine;
      Exec(CommandLine("S", n, w), stat, s) ==
        (if st != Fine then s else if w == "all" then Subs(true, s.names) else Subs(s.any, s.names + [w]),
         Some(SubReply(CommandLine("S", n, w), st)))
  {
    var line := CommandLine("S", n, w);
    assert line[..2] == "S " && line[2..] == seq(n, _ => ' ') + w && line[0] == 'S';
    SpacesSkipped(n, w);
  }

  /** D likewise. */
  lemma UnsubscribeDoes(n: nat, w: string, stat: string, s: Subs)
    requires Sound(s) && (w == "" || w[0] != ' ')
    ensures var st :=
        if w == "all" then if s.any then Fine else NotExist
        else if w == "" then Invalid
        else if w in s.names then Fine else NotExist;
      var (t, reply) := Exec(CommandLine("D", n, w), stat, s);
      && reply == Some(SubReply(CommandLine("D", n, w), st))
      && t.any == (s.any && w != "all")
      && ToSet(t.names) == (if w == "all" then ToSet(s.names) else ToSet(s.names) - {w})
  {
    var line := CommandLine("D", n, w);
    assert line[..2] == "D " && line[2..] == seq(n, _ => ' ') + w && line[0] == 'D';
    SpacesSkipped(n, w);
    EraseNoDup(s.names, w);
    assert w in s.names <==> w in ToSet(s.names);
  }

  // ---------------------------------------------------------------- a series of lines

  /** The line is a Subscribe to w that is answered by ok, or by the error that it is there already. */
  predicate GrantedAt(lines: seq<string>, i: nat, w: string)
    requires i < |lines|
  {
    && Parse(lines[i]) == Sub(w)
    && var reply := Exec(lines[i], "", ExecAll(lines[..i], NO_SUBS)).1;
       reply == Some("<ok>" + lines[i] + "</ok>")
       || reply == Some("<error code=\"1\">" + "You are already subscribed to this one" + "</error>")
  }

  /** Subscribed by a line, and neither unsubscribed nor cleared since. */
  predicate Stands(lines: seq<string>, w: string) {
    exists i {:trigger GrantedAt(lines, i, w)} | 0 <= i < |lines| ::
      GrantedAt(lines, i, w) && forall j | i < j < |lines| :: Parse(lines[j]) != Unsub(w) && Parse(lines[j]) != Clear
  }

  /** Subscribed to all, and not unsubscribed since. */
  predicate StandsAll(lines: seq<string>) {
    exists i | 0 <= i < |lines| ::
      Parse(lines[i]) == Sub("all") && forall j | i < j < |lines| :: Parse(lines[j]) != Unsub("all")
  }

  predicate Sent(lines: seq<string>, site: string) {
    StandsAll(lines) || Stands(lines, site)
  }

  lemma StandsAllPush(lines: seq<string>, line: string)
    ensures StandsAll(lines + [line]) <==> Parse(line) == Sub("all") || (StandsAll(lines) && Parse(line) != Unsub("all"))
  {
    var all := lines + [line];
    assert all[|lines|] == line;
    if StandsAll(lines) && Parse(line) != Unsub("all") {
      var i :| 0 <= i < |lines| && Parse(lines[i]) == Sub("all")
        && forall j | i < j < |lines| :: Parse(lines[j]) != Unsub("all");
      assert all[i] == lines[i];
    }
    if StandsAll(all) && Parse(line) != Sub("all") {
      var i :| 0 <= i < |all| && Parse(all[i]) == Sub("all") && forall j | i < j < |all| :: Parse(all[j]) != Unsub("all");
      assert lines[i] == all[i];
      forall j | i < j < |lines| ensures Parse(lines[j]) != Unsub("all") {
        assert all[j] == lines[j];
      }
    }
  }

  lemma GrantedBefore(lines: seq<string>, line: string, i: nat, w: string)
    requires i < |lines|
    ensures GrantedAt(lines + [line], i, w) <==> GrantedAt(lines, i, w)
  {
    assert (lines + [line])[..i] == lines[..i];
  }

  lemma StandsPush(lines: seq<string>, line: string, w: string)
    ensures Stands(lines + [line], w) <==>
      GrantedAt(lines + [line], |lines|, w) || (Stands(lines, w) && Parse(line) != Unsub(w) && Parse(line) != Clear)
  {
    var all := lines + [line];
    assert all[|lines|] == line;
    if Stands(lines, w) && Parse(line) != Unsub(w) && Parse(line) != Clear {
      var i :| 0 <= i < |lines| && GrantedAt(lines, i, w)
        && forall j | i < j < |lines| :: Parse(lines[j]) != Unsub(w) && Parse(lines[j]) != Clear;
      GrantedBefore(lines, line, i, w);
    }
    if Stands(all, w) && !GrantedAt(all, |lines|, w) {
      var i :| 0 <= i < |all| && GrantedAt(all, i, w)
        && forall j | i < j < |all| :: Parse(all[j]) != Unsub(w) && Parse(all[j]) != Clear;
      GrantedBefore(lines, line, i, w);
      forall j | i < j < |lines| ensures Parse(lines[j]) != Unsub(w) && Parse(lines[j]) != Clear {
        assert all[j] == lines[j];
      }
    }
  }

  /** The errors differ in the character after the quote. */
  lemma ErrorDigit(text: string, code: string, other: string, more: string)
    requires |code| == 1 && |more| == 1 && code != more
    ensures MakeError(text, code) != MakeError(other, more)
  {
    var head := "<error code=\"";
    assert MakeError(text, code)[|head|] == code[0] && MakeError(other, more)[|head|] == more[0];
  }

  lemma OkIsNoError(line: string, text: string, code: string)
    ensures Ok(line) != MakeError(text, code)
  {
    assert Ok(line)[1] == 'o' && MakeError(text, code)[1] == 'e';
  }

  lemma AlreadyExistText()
    ensures SubReply("", AlreadyExist) == "<error code=\"1\">" + "You are already subscribed to this one" + "</error>"
  {
    assert "<error code=\"" + "1" + "\">" == "<error code=\"1\">";
  }

  /** The two answers tell exactly that the subscription was granted. */
  lemma GrantTold(line: string, st: Status)
    ensures SubReply(line, st) == "<ok>" + line + "</ok>" <==> st == Fine
    ensures SubReply(line, st) == SubReply("", AlreadyExist) <==> st == AlreadyExist
  {
    var text := "You are already subscribed to this one";
    match st
    case Fine => OkIsNoError(line, text, "1");
    case AlreadyExist => OkIsNoError(line, text, "1");
    case Invalid =>
      OkIsNoError(line, "This is not a valid wiki name", "2");
      ErrorDigit("This is not a valid wiki name", "2", text, "1");
    case NotExist =>
      OkIsNoError(line, "You are not subscribed to this one", "4");
      ErrorDigit("You are not subscribed to this one", "4", text, "1");
    case TooMany =>
      OkIsNoError(line, "You subscribed to too many wikis now", "8");
      ErrorDigit("You subscribed to too many wikis now", "8", text, "1");
  }

  lemma GrantedLast(lines: seq<string>, line: string, w: string)
    ensures GrantedAt(lines + [line], |lines|, w) <==>
      Parse(line) == Sub(w) && Granted(Subscribe(ExecAll(lines, NO_SUBS), w).1)
  {
    var all := lines + [line];
    assert all[|lines|] == line && all[..|lines|] == lines;
    if Parse(line) == Sub(w) {
      var st := Subscribe(ExecAll(lines, NO_SUBS), w).1;
      assert Exec(line, "", ExecAll(lines, NO_SUBS)).1 == Some(SubReply(line, st));
      AlreadyExistText();
      GrantTold(line, st);
    }
  }

  lemma NamesStep(s: Subs, line: string, site: string)
    requires Sound(s) && site != "all"
    ensures site in Exec(line, "", s).0.names <==>
      (Parse(line) == Sub(site) && Granted(Subscribe(s, site).1))
      || (site in s.names && Parse(line) != Unsub(site) && Parse(line) != Clear)
  {
    if Parse(line).Unsub? {
      var w := Parse(line).wiki;
      EraseNoDup(s.names, w);
      var r := Erase(s.names, w);
      assert forall n :: n in r <==> n in ToSet(r);
      assert forall n :: n in s.names <==> n in ToSet(s.names);
    }
  }

  lemma FlagStep(s: Subs, line: string)
    ensures Exec(line, "", s).0.any <==> Parse(line) == Sub("all") || (s.any && Parse(line) != Unsub("all"))
  {
  }

  lemma {:induction false} StateStands(lines: seq<string>, site: string)
    requires site != "all"
    ensures Sound(ExecAll(lines, NO_SUBS))
    ensures ExecAll(lines, NO_SUBS).any <==> StandsAll(lines)
    ensures site in ExecAll(lines, NO_SUBS).names <==> Stands(lines, site)
  {
    RunsSound(lines, NO_SUBS);
    if lines != [] {
      var before, line := lines[..|lines| - 1], lines[|lines| - 1];
      assert lines == before + [line];
      StateStands(before, site);
      ExecAllPush(before, line, "", NO_SUBS);
      StandsAllPush(before, line);
      StandsPush(before, line, site);
      GrantedLast(before, line, site);
      FlagStep(ExecAll(before, NO_SUBS), line);
      NamesStep(ExecAll(before, NO_SUBS), line, site);
    }
  }

  /** After any lines the fan-out sends a client exactly the sites that a granted line has subscribed it to and no
      later line has unsubscribed or cleared, and every site while it stands subscribed to all. */
  lemma SentIff(lines: seq<string>, site: string)
    ensures Matches(ExecAll(lines, NO_SUBS), site) <==> Sent(lines, site)
  {
    if site == "all" {
      StateStands(lines, "");
      RunsSound(lines, NO_SUBS);
    } else {
      StateStands(lines, site);
    }
  }
}
