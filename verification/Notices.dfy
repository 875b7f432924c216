/** The lines of the daemon that are no edits, as the C# client reads them: replies, pings and warnings.  Replies
    to S, D and unknown lines repeat the command unescaped.  src/xmlrcsd/client.cpp, src/xmlrcsd/main.cpp. */
module Notices {
  import opened Base
  import opened Commands
  import opened EditReader
  import opened Registry
  import opened XmlDocument
  import opened XmlText

  // ---------------------------------------------------------------- one element around a text

  lemma PlainTag(name: string, more: string)
    requires IsName(name)
    ensures ReadToken("<" + name + ">" + more) == Opens(name, [], more)
  {
    assert (">" + more)[1..] == more;
    assert ReadAttrs(">" + more) == Tag([], false, more);
    ReadTag(name, ">" + more);
    assert "<" + name + (">" + more) == "<" + name + ">" + more;
  }

  /** A text between plain tags is read without an exception exactly when it is content. */
  lemma WrappedReads(name: string, text: string)
    requires IsName(name) && name != "edit" && Cap(EndTag(name))
    ensures React("<" + name + ">" + text + EndTag(name)) == if Content(text) then Quiet else Ends
    ensures Content(text) ==> ReadDocument("<" + name + ">" + text + EndTag(name)) == Document(name, [])
  {
    var head, tail := "<" + name + ">", EndTag(name);
    PlainTag(name, text + tail);
    WrappedIff(head, name, [], text);
    assert head + text + tail == head + (text + tail);
  }

  predicate IsBland(text: string) {
    forall i | 0 <= i < |text| :: Bland(text[i])
  }

  lemma BlandContent(text: string)
    requires IsBland(text)
    ensures Content(text)
  {
    BlandFirst(text, "");
    assert text + "" == text;
  }

  /** The same with the two tags written out. */
  lemma ElementReads(name: string, open: string, close: string, text: string)
    requires IsName(name) && name != "edit" && Cap(close) && open == "<" + name + ">" && close == EndTag(name)
    ensures React(open + text + close) == if Content(text) then Quiet else Ends
    ensures Content(text) ==> ReadDocument(open + text + close) == Document(name, [])
  {
    WrappedReads(name, text);
  }

  lemma OkReads(line: string)
    ensures React(Ok(line)) == if Content(line) then Quiet else Ends
  {
    ElementReads("ok", "<ok>", "</ok>", line);
  }

  /** The end of a start tag with one attribute. */
  lemma OneAttr(key: string, value: string, more: string)
    requires IsName(key) && Plain(value)
    ensures ReadAttrs(" " + (key + "=" + ("\"" + value + "\"" + (">" + more)))) == Tag([(key, NormAll(value))], false, more)
  {
    var rest := ">" + more;
    var w := "\"" + value + "\"" + rest;
    RawReadsBackIff(value, rest);
    assert w[1..] == value + "\"" + rest;
    ReadAttrValue(key, w);
    ReadAttrsNext(key + "=" + w);
    assert rest[1..] == more;
    assert ReadAttrs(rest) == Tag([], false, more);
  }

  lemma OneAttrTag(name: string, key: string, value: string, more: string)
    requires IsName(name) && IsName(key) && Plain(value)
    ensures ReadToken("<" + name + (" " + (key + "=" + ("\"" + value + "\"" + (">" + more)))))
         == Opens(name, [(key, NormAll(value))], more)
  {
    OneAttr(key, value, more);
    ReadTag(name, " " + (key + "=" + ("\"" + value + "\"" + (">" + more))));
  }

  lemma Regroup(a: string, n: string, b: string, k: string, c: string, q: string, v: string, d: string, more: string)
    ensures a + n + b + k + c + q + v + (q + d) + more == a + n + (b + (k + c + (q + v + q + (d + more))))
  {
  }

  lemma ErrorNames() returns (name: string, key: string)
    ensures name == "error" && key == "code" && IsName(name) && IsName(key)
    ensures "<" + name + " " + key + "=" + "\"" == "<error code=\""
  {
    name, key := "error", "code";
  }

  lemma ErrorTag(code: string, more: string)
    requires Plain(code)
    ensures ReadToken("<error code=\"" + code + "\">" + more) == Opens("error", [("code", NormAll(code))], more)
  {
    var name, key := ErrorNames();
    OneAttrTag(name, key, code, more);
    Regroup("<", name, " ", key, "=", "\"", code, ">", more);
    assert "\"" + ">" == "\">";
  }

  lemma ErrorEnd() returns (name: string)
    ensures name == "error" && IsName(name) && EndTag(name) == "</error>" && Cap(EndTag(name))
  {
    name := "error";
  }

  lemma ErrorReads(text: string, code: string)
    requires Plain(code)
    ensures React(MakeError(text, code)) == if Content(text) then Quiet else Ends
  {
    var head := "<error code=\"" + code + "\">";
    var name := ErrorEnd();
    ErrorTag(code, text + EndTag(name));
    WrappedIff(head, name, [("code", NormAll(code))], text);
    assert MakeError(text, code) == head + (text + EndTag(name));
  }

  // ---------------------------------------------------------------- replies

  /** The reply repeats the command. */
  predicate Echoes(c: Command, s: Subs) {
    match c
    case Sub(wiki) => Subscribe(s, wiki).1 == Fine
    case Unsub(wiki) => Unsubscribe(s, wiki).1 == Fine
    case Unknown => true
    case _ => false
  }

  lemma RefusalReads(text: string, code: string)
    requires IsBland(text) && Plain(code)
    ensures React(MakeError(text, code)) == Quiet
  {
    BlandContent(text);
    ErrorReads(text, code);
  }

  lemma AlreadyExistReads(line: string, st: Status)
    requires st == AlreadyExist
    ensures React(SubReply(line, st)) == Quiet
  {
    RefusalReads("You are already subscribed to this one", "1");
  }

  lemma InvalidReads(line: string, st: Status)
    requires st == Invalid
    ensures React(SubReply(line, st)) == Quiet
  {
    RefusalReads("This is not a valid wiki name", "2");
  }

  lemma NotExistReads(line: string, st: Status)
    requires st == NotExist
    ensures React(SubReply(line, st)) == Quiet
  {
    RefusalReads("You are not subscribed to this one", "4");
  }

  lemma TooManyReads(line: string, st: Status)
    requires st == TooMany
    ensures React(SubReply(line, st)) == Quiet
  {
    RefusalReads("You subscribed to too many wikis now", "8");
  }

  lemma StatusReads(line: string, st: Status)
    ensures React(SubReply(line, st)) == if st == Fine && !Content(line) then Ends else Quiet
  {
    match st
    case Fine => OkReads(line);
    case AlreadyExist => AlreadyExistReads(line, st);
    case Invalid => InvalidReads(line, st);
    case NotExist => NotExistReads(line, st);
    case TooMany => TooManyReads(line, st);
  }

  lemma UnknownReads(line: string)
    ensures React(MakeError("Unknown: " + line, "0")) == if Content(line) then Quiet else Ends
  {
    BlandFirst("Unknown: ", line);
    ErrorReads("Unknown: " + line, "0");
  }

  lemma BlandReads(name: string, open: string, close: string, text: string, t: string)
    requires IsName(name) && name != "edit" && Cap(close) && open == "<" + name + ">" && close == EndTag(name)
    requires IsBland(text) && t == open + text + close
    ensures React(t) == Quiet && ReadDocument(t) == Document(name, [])
  {
    BlandContent(text);
    ElementReads(name, open, close, text);
  }

  lemma VersionTag() returns (name: string)
    ensures name == "versioninfo" && IsName(name) && Cap(EndTag(name))
  {
    name := "versioninfo";
  }

  lemma VersionReads(t: string)
    requires t == "<versioninfo>1.1.0</versioninfo>"
    ensures React(t) == Quiet
  {
    var name := VersionTag();
    BlandReads(name, "<" + name + ">", EndTag(name), "1.1.0", t);
  }

  lemma ClearReads(t: string)
    requires t == "<ok></ok>"
    ensures React(t) == Quiet
  {
    BlandReads("ok", "<ok>", "</ok>", "", t);
  }

  lemma PongReads(t: string)
    requires t == "<pong></pong>"
    ensures React(t) == Quiet
  {
    BlandReads("pong", "<pong>", "</pong>", "", t);
  }

  lemma PingReads(t: string)
    requires t == "<ping></ping>"
    ensures React(t) == Quiet
  {
    BlandReads("ping", "<ping>", "</ping>", "", t);
  }

  lemma StatReads(t: string)
    requires t == "<stat></stat>"
    ensures React(t) == Quiet
  {
    BlandReads("stat", "<stat>", "</stat>", "", t);
  }

  lemma EmptyText()
    ensures IsBland(EMPTY) && OneLine(EMPTY)
  {
  }

  lemma RestartingText()
    ensures IsBland(RESTARTING) && OneLine(RESTARTING)
  {
  }

  lemma WarningReads(auto_kill: bool)
    ensures React(Warning(auto_kill)) == Quiet
    ensures ReadDocument(Warning(auto_kill)) == Document(if auto_kill then "warning" else "fatal", [])
  {
    EmptyText();
    RestartingText();
    if auto_kill {
      BlandReads("warning", "<warning>", "</warning>", EMPTY + RESTARTING, Warning(auto_kill));
    } else {
      BlandReads("fatal", "<fatal>", "</fatal>", EMPTY, Warning(auto_kill));
    }
  }

  lemma EchoReads(c: Command, line: string, stat: string, s: Subs)
    requires c.Sub? || c.Unsub? || c.Unknown?
    ensures var r := ExecCommand(c, line, stat, s).1;
      r.Some? && React(r.value) == if Echoes(c, s) && !Content(line) then Ends else Quiet
  {
    match c
    case Sub(wiki) => StatusReads(line, Subscribe(s, wiki).1);
    case Unsub(wiki) => StatusReads(line, Unsubscribe(s, wiki).1);
    case _ => UnknownReads(line);
  }

  lemma ConstantReads(c: Command, line: string, stat: string, s: Subs)
    requires !(c.Sub? || c.Unsub? || c.Unknown?) && React(stat) == Quiet
    ensures var r := ExecCommand(c, line, stat, s).1; r.Some? ==> React(r.value) == Quiet
  {
    var r := ExecCommand(c, line, stat, s).1;
    match c
    case Version => VersionReads(r.value);
    case Clear => ClearReads(r.value);
    case Ping => PongReads(r.value);
    case _ =>
  }

  /** A reply ends the connection of the client that gets it exactly when it repeats a command that may not
      stand between the tags of an XML element. */
  lemma ReplyEndsIff(c: Command, line: string, stat: string, s: Subs)
    requires ExecCommand(c, line, stat, s).1.Some? && React(stat) == Quiet
    ensures React(ExecCommand(c, line, stat, s).1.value) == if Echoes(c, s) && !Content(line) then Ends else Quiet
  {
    if c.Sub? || c.Unsub? || c.Unknown? {
      EchoReads(c, line, stat, s);
    } else {
      ConstantReads(c, line, stat, s);
    }
  }
}
