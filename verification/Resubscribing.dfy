/** What becomes of a connection on which the C# client subscribes again: the server repeats each S line in its
    reply, and the client parses the reply.  clients/c#/XmlRcs/XmlRcs/Provider.cs against src/xmlrcsd/client.cpp. */
module Resubscribing {
  import opened Agreement
  import opened Base
  import opened Commands
  import opened EditReader
  import opened LineReader
  import opened Notices
  import opened XmlDocument
  import opened XmlText

  /** The replies to the lines under way. */
  function Replies(l: Link, stat: string): seq<string>
    requires l.Up?
  {
    Answers(Lines(l.partial, l.wire), stat, l.server)
  }

  /** One of the replies ends the connection. */
  predicate AnyEnds(replies: seq<string>) {
    exists i | 0 <= i < |replies| :: React(replies[i]).Ends?
  }

  /** A name the server does not have yet is repeated to the client. */
  lemma NewName(x: string, stat: string, s: Subs, done: seq<string>)
    requires Sound(s) && Abs(s) == Wanted(done) && WellFormed(x) && x !in done
    requires x != "all" ==> |ToSet(done) - {"all"}| <= MAX_SUBSCRIPTIONS
    ensures Exec("S " + x, stat, s).1 == Some(Ok("S " + x))
  {
    ParseS(x);
    SkipNothing(x);
    SubscribeRefines(x, s);
    assert x in AbsExec(Sub(x), Abs(s)).names || x == "all";
  }

  lemma NameReads(x: string)
    ensures React(Ok("S " + x)) == if Content(x) then Quiet else Ends
  {
    OkReads("S " + x);
    BlandFirst("S ", x);
  }

  lemma SendReplies(cfg: Config, l: Link, text: string, stat: string)
    requires l.Up? && LinkOk(l) && !Ending(l) && OneLine(Encode(text)) && Encode(text) != "exit"
    ensures var sent := l.(wire := l.wire + (Encode(text) + Eol(cfg)));
      var r := Exec(Encode(text), stat, Drained(l)).1;
      Replies(sent, stat) == Replies(l, stat) + (if r.Some? then [r.value] else [])
  {
    SendDrains(cfg, l, text);
    AnswersPush(Lines(l.partial, l.wire), Encode(text), stat, l.server);
  }

  predicate SomeUnreadable(names: seq<string>) {
    exists i | 0 <= i < |names| :: !Content(names[i])
  }

  /** One S line of a reconnect. */
  lemma OneName(cfg: Config, l: Link, stat: string, done: seq<string>, x: string)
    requires l.Up? && LinkOk(l) && Leads(l, Wanted(done)) && WellFormed(x) && x !in done
    requires x != "all" ==> |ToSet(done) - {"all"}| <= MAX_SUBSCRIPTIONS
    ensures var sent := l.(wire := l.wire + (Encode("S " + x) + Eol(cfg)));
      Replies(sent, stat) == Replies(l, stat) + [Ok("S " + x)]
  {
    EncodeTagged("S ", x);
    EncodeSame(x);
    assert ("S " + x)[0] != "exit"[0];
    SendReplies(cfg, l, "S " + x, stat);
    NewName(x, stat, Drained(l), done);
  }

  lemma EndsPush(replies: seq<string>, reply: string)
    ensures AnyEnds(replies + [reply]) <==> AnyEnds(replies) || React(reply).Ends?
  {
    assert (replies + [reply])[|replies|] == reply;
    forall i | 0 <= i < |replies| ensures (replies + [reply])[i] == replies[i] {
    }
  }

  lemma UnreadableFirst(names: seq<string>)
    requires names != []
    ensures SomeUnreadable(names) <==> !Content(names[0]) || SomeUnreadable(names[1..])
  {
    forall i | 0 <= i < |names[1..]| ensures names[1..][i] == names[i + 1] {
    }
    if SomeUnreadable(names) {
      var i :| 0 <= i < |names| && !Content(names[i]);
      assert i > 0 ==> names[1..][i - 1] == names[i];
    }
  }

  lemma {:induction false} NamesEnd(cfg: Config, w: World, now: int, done: seq<string>, items: seq<string>, stat: string)
    requires w.link.Up? && LinkOk(w.link) && w.lastPing == now && GoodList(done + items)
    requires Leads(w.link, Wanted(done))
    ensures var u := Resubscribe(cfg, w, now, items);
      u.link.Up? && (AnyEnds(Replies(u.link, stat)) <==> AnyEnds(Replies(w.link, stat)) || SomeUnreadable(items))
    decreases |items|
  {
    if items != [] {
      var x := items[0];
      GoodNext(done, items);
      SubAgrees(cfg, w, now, done, x);
      OneName(cfg, w.link, stat, done, x);
      EndsPush(Replies(w.link, stat), Ok("S " + x));
      NameReads(x);
      UnreadableFirst(items);
      NamesEnd(cfg, Send(cfg, w, now, "S " + x), now, done + [x], items[1..], stat);
    }
  }

  /** The dummy line at the start of a connection is not answered. */
  lemma PongUnanswered(cfg: Config, l: Link, text: string, stat: string)
    requires l.Up? && LinkOk(l) && !Ending(l) && text == "pong"
    ensures Replies(l.(wire := l.wire + (Encode(text) + Eol(cfg))), stat) == Replies(l, stat)
  {
    EncodeSame(text);
    assert text[0] == 'p' && Parse(text) == Pong;
    SendReplies(cfg, l, text, stat);
  }

  /** A first call for a name is ended by its own reply exactly when the name may not stand in an XML element. */
  lemma SubscribeEndsIff(cfg: Config, w: World, now: int, reachable: bool, wiki: string, stat: string)
    requires Good(w) && Checked(w, now).link.Up? && WellFormed(wiki) && wiki !in w.list
    requires wiki == "all" || Explicit(w.list) <= MAX_SUBSCRIPTIONS
    ensures var u := Agreement.Subscribe(cfg, w, now, reachable, wiki).0;
      u.link.Up? && (AnyEnds(Replies(u.link, stat)) <==> AnyEnds(Replies(w.link, stat)) || !Content(wiki))
  {
    OneName(cfg, w.link, stat, w.list, wiki);
    EndsPush(Replies(w.link, stat), Ok("S " + wiki));
    NameReads(wiki);
  }

  /** With AutoResubscribe on, a reconnect is ended by a reply to its own S lines exactly when a listed name may
      not stand in an XML element; so one such name ends every connection that is made while it is listed. */
  lemma ReconnectEndsIff(cfg: Config, w: World, now: int, stat: string)
    requires Good(w) && w.link.Down? && cfg.resubscribe
    ensures var u := Connect(cfg, w, now, true).0;
      u.link.Up? && (AnyEnds(Replies(u.link, stat)) <==> SomeUnreadable(w.list))
  {
    var start := w.(lastPing := now, link := Up("", "", NO_SUBS));
    SendPlain(cfg, start.link, "pong");
    PongUnanswered(cfg, start.link, "pong", stat);
    var u := Send(cfg, start, now, "pong");
    assert Abs(NO_SUBS) == Wanted([]) && [] + u.list == u.list;
    NamesEnd(cfg, u, now, [], u.list, stat);
  }

  /** Such a name: well formed for both sides, with an ampersand that begins no reference. */
  lemma AmpersandEnds()
    ensures WellFormed("a&b") && !Content("a&b") && React(Ok("S a&b")).Ends?
  {
    var x := "a&b";
    assert x[1..][1..] == "b" && ReadReference("b").NoRef?;
    assert !CharOk(x[1..]);
    TextIff(x);
    NameReads(x);
    assert "S " + x == "S a&b";
  }
}
