/** class Provider of the C# client, in the form of the source: fields that its calls update.  Each
    call is proved to do to the fields what the functions of the module Agreement say. */
module Provider {
  import opened Base
  import opened Agreement
  import Commands

  class Provider {
    const cfg: Config
    var lSubscriptions: seq<string>
    var link: Link // the client, stream and writer handles, all null or all set
    var lastPing: int
    var disconnecting: bool

    function View(): World
      reads this
    {
      World(lSubscriptions, link, lastPing, disconnecting)
    }

    constructor (cfg: Config)
      ensures View() == FRESH && this.cfg == cfg
    {
      this.cfg, lSubscriptions, link, lastPing, disconnecting := cfg, [], Down, 0, false;
    }

    method Kill()
      modifies this`link
      ensures link == Down
    {
      link := Down;
    }

    /** The property IsConnected, which kills the connection when the server has been silent. */
    method IsConnected(now: int) returns (r: bool)
      modifies this`link
      ensures View() == Checked(old(View()), now) && r == link.Up?
    {
      if link.Down? {
        return false;
      }
      if lastPing + PING_TIMEOUT < now {
        Kill();
        return false;
      }
      return true;
    }

    method SendText(data: string, now: int)
      modifies this`link
      ensures View() == Send(cfg, old(View()), now, data)
    {
      var up := IsConnected(now);
      if !up {
        return;
      }
      link := link.(wire := link.wire + (Encode(data) + Eol(cfg)));
    }

    method Connect(now: int, reachable: bool) returns (r: Result)
      modifies this`link, this`lastPing
      ensures (View(), r) == Agreement.Connect(cfg, old(View()), now, reachable)
    {
      var up := IsConnected(now);
      if up {
        return Returned(false);
      }
      lastPing := now;
      if !reachable {
        return Threw;
      }
      link := Up("", "", Commands.NO_SUBS);
      SendText("pong", now);
      if cfg.resubscribe {
        ghost var w := View();
        var i := 0;
        while i < |lSubscriptions|
          invariant 0 <= i <= |lSubscriptions| && lSubscriptions == old(lSubscriptions)
          invariant Resubscribe(cfg, w, now, lSubscriptions) == Resubscribe(cfg, View(), now, lSubscriptions[i..])
        {
          SendText("S " + lSubscriptions[i], now);
          i := i + 1;
        }
      }
      return Returned(true);
    }

    /** isConnected: connects first when allowed to. */
    method EnsureConnected(now: int, reachable: bool) returns (r: Result)
      modifies this`link, this`lastPing
      ensures (View(), r) == Ensure(cfg, old(View()), now, reachable)
    {
      var up := IsConnected(now);
      if !up {
        if !cfg.autoconn || disconnecting {
          return Returned(false);
        }
        r := Connect(now, reachable);
        return;
      }
      return Returned(true);
    }

    method Subscribe(wiki: string, now: int, reachable: bool) returns (r: Result)
      modifies this`lSubscriptions, this`link, this`lastPing
      ensures (View(), r) == Agreement.Subscribe(cfg, old(View()), now, reachable, wiki)
    {
      r := EnsureConnected(now, reachable);
      if r != Returned(true) {
        return;
      }
      if wiki !in lSubscriptions {
        lSubscriptions := lSubscriptions + [wiki];
      }
      SendText("S " + wiki, now);
    }

    method Unsubscribe(wiki: string, now: int, reachable: bool) returns (r: Result)
      modifies this`lSubscriptions, this`link, this`lastPing
      ensures (View(), r) == Agreement.Unsubscribe(cfg, old(View()), now, reachable, wiki)
    {
      r := EnsureConnected(now, reachable);
      if r != Returned(true) {
        return;
      }
      if wiki in lSubscriptions {
        lSubscriptions := Erase(lSubscriptions, wiki);
      } else {
        NotListed(lSubscriptions, wiki);
      }
      SendText("D " + wiki, now);
    }

    /** The connection is gone afterwards, and the list is kept for the next one. */
    method Disconnect(now: int)
      modifies this`link, this`disconnecting
      ensures link == Down && lSubscriptions == old(lSubscriptions) && !disconnecting
    {
      disconnecting := true;
      var up := IsConnected(now);
      if up {
        SendText("exit", now);
        Kill();
      }
      disconnecting := false;
    }
  }
}
