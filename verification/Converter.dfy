/** The health and retry fields of EventStreamToRedis and its Redis list, in the form of the source: each
    method updates the fields step by step and is proved to do what the modules Health, Backoff,
    ChangeFormat and RedisQueue say. */
module Converter {
  import B = Backoff
  import F = ChangeFormat
  import H = Health
  import R = RedisQueue

  /** What the stream hands over: another event type or blank data, data that is no JSON, or a change. */
  datatype Message = Ignored | NoJson | Parsed(change: F.Change)

  /** How much of the try block a message gets through. */
  function Outcome(m: Message): H.Payload {
    match m
    case Ignored => H.NotMessage
    case NoJson => H.Thrown
    case Parsed(c) =>
      var d := F.Plan(c);
      if d.Lacks? then H.Missing else if Framed(c) then H.Handled else H.Thrown
  }

  /** The change is published: it has its element, and its server name is a text to put before it. */
  predicate Framed(c: F.Change) {
    F.Publishable(c) && c.serverName.value.Text?
  }

  /** The frame of a change that is published. */
  function Frame(c: F.Change): string
    requires Framed(c)
  {
    F.PublishedIff(c);
    c.serverName.value.s + "|" + F.Outcome(F.Plan(c)).text
  }

  /** What a message adds to the list. */
  function Pushed(m: Message, copies: nat): seq<string> {
    if m.Parsed? && Framed(m.change) then R.Copies(Frame(m.change), copies) else []
  }

  class Converter {
    const health: H.Config
    const retry: B.Config
    const redis_client: R.RedisList
    var consecutive_errors: nat
    var recent_errors: seq<real>
    var recent_events: seq<real>
    var connect_attempt: nat
    var events_processed: nat
    ghost var marks: seq<H.Mark> // history: the records made since the last successful connect

    constructor (health: H.Config, retry: B.Config, redis_client: R.RedisList)
      ensures Valid() && marks == [] && connect_attempt == 0 && events_processed == 0
      ensures this.health == health && this.retry == retry && this.redis_client == redis_client
    {
      this.health, this.retry, this.redis_client := health, retry, redis_client;
      consecutive_errors, recent_errors, recent_events := 0, [], [];
      connect_attempt, events_processed, marks := 0, 0, [];
    }

    /** The windows are what the records make of fresh ones. */
    ghost predicate Valid()
      reads this
    {
      View() == H.Track(health, marks)
    }

    function View(): H.Health
      reads this
    {
      H.Health(consecutive_errors, recent_errors, recent_events)
    }

    method RecordError(now: real) returns (reconnect: bool)
      requires Valid()
      modifies this`consecutive_errors, this`recent_errors, this`recent_events, this`marks
      ensures (View(), reconnect) == H.ErrorAt(health, old(View()), now)
      ensures Valid() && marks == old(marks) + [H.Bad(now)]
    {
      H.TrackPush(health, marks, H.Bad(now));
      marks := marks + [H.Bad(now)];
      consecutive_errors := consecutive_errors + 1;
      recent_errors := recent_errors + [now];
      recent_errors := H.After(recent_errors, now - H.WINDOW);
      if consecutive_errors >= health.maxConsecutive {
        return true;
      }
      if |recent_events| >= H.ENOUGH {
        recent_events := H.After(recent_events, now - H.WINDOW);
        if |recent_events| > 0 {
          var error_rate := |recent_errors| as real / (|recent_events| + |recent_errors|) as real;
          if error_rate > health.maxRate {
            return true;
          }
        }
      }
      return false;
    }

    method RecordSuccess(now: real)
      requires Valid()
      modifies this`consecutive_errors, this`recent_errors, this`recent_events, this`marks
      ensures View() == H.SuccessAt(old(View()), now)
      ensures Valid() && marks == old(marks) + [H.Good(now)]
    {
      consecutive_errors := 0;
      recent_events := recent_events + [now];
      recent_events := H.After(recent_events, now - H.WINDOW);
      marks := marks + [H.Good(now)];
      H.TrackPush(health, old(marks), H.Good(now));
    }

    /** The records of process_event for a message that got so far.  The handler of the try block also catches
        the ConnectionError that a format failure raises inside it. */
    method RecordOutcome(p: H.Payload, now1: real, now2: real) returns (raised: bool)
      requires Valid()
      modifies this`consecutive_errors, this`recent_errors, this`recent_events, this`marks
      ensures var r := H.Process(health, old(View()), p, now1, now2);
        Valid() && View() == r.health && marks == old(marks) + r.marks && raised == r.raised
    {
      raised := false;
      match p
      case NotMessage =>
      case Handled => RecordSuccess(now1);
      case Thrown => raised := RecordError(now1);
      case Missing =>
        var caught := RecordError(now1);
        if caught {
          raised := RecordError(now2);
        }
    }

    /** process_event, with what the two Redis commands of insert_to_redis come to.  What insert_to_redis
        returns is not looked at; only a raise from a handler leaves the method. */
    method ProcessEvent(m: Message, first: R.Outcome, reconnect: bool, second: R.Outcome, now1: real, now2: real)
      returns (raised: bool)
      requires Valid() && redis_client.Valid()
      modifies this`consecutive_errors, this`recent_errors, this`recent_events, this`marks, this`events_processed, redis_client
      ensures var r := H.Process(health, old(View()), Outcome(m), now1, now2);
        Valid() && View() == r.health && marks == old(marks) + r.marks && raised == r.raised
      ensures events_processed == old(events_processed) + (if m.Parsed? then 1 else 0)
      ensures redis_client.Valid()
      ensures m.Parsed? && Framed(m.change) && first.Done? ==>
        redis_client.items == old(redis_client.items) + [Frame(m.change)] && !raised
      ensures !(m.Parsed? && Framed(m.change)) ==> redis_client.items == old(redis_client.items)
      ensures redis_client.items == old(redis_client.items) + Pushed(m, R.Inserted(first, reconnect, second))
      ensures redis_client.pushed == old(redis_client.pushed) + Pushed(m, R.Inserted(first, reconnect, second))
    {
      if m.Ignored? {
        return false;
      }
      var reached := H.Thrown;
      if m.Parsed? {
        events_processed := events_processed + 1;
        F.PublishedIff(m.change);
        var xml := F.FormatXml(m.change);
        match xml
        case Xml(text) =>
          if m.change.serverName.value.Text? {
            var _ := redis_client.InsertToRedis(m.change.serverName.value.s, text, first, reconnect, second);
            reached := H.Handled;
          }
        case Missing => reached := H.Missing;
        case Raises =>
      }
      raised := RecordOutcome(reached, now1, now2);
    }

    /** connect_to_event_stream: True, a falsy result after a wait, or an escaping exception. */
    method ConnectToEventStream(a: B.Attempt) returns (ok: bool, slept: nat)
      requires Valid()
      modifies this`consecutive_errors, this`recent_errors, this`recent_events, this`marks, this`connect_attempt
      ensures (connect_attempt, slept) == B.Try(retry, old(connect_attempt), a)
      ensures ok <==> a.Connected?
      ensures View() == if a.Connected? then H.FRESH else old(View())
      ensures Valid() && marks == if a.Connected? then [] else old(marks)
    {
      connect_attempt := connect_attempt + 1;
      ok, slept := false, 0;
      if a.Connected? {
        connect_attempt := 0;
        consecutive_errors, recent_errors, recent_events, marks := 0, [], [], [];
        ok := true;
      } else if !a.Escaped? {
        slept := B.Delay(retry, connect_attempt);
      }
    }
  }
}
