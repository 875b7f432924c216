/** Connection health of es2r: the error and event windows, the decision to reconnect, and how
    process_event counts each message.  src/es2r/es2r.py. */
module Health {
  import opened Base

  const WINDOW := 60.0
  const ENOUGH := 10

  datatype Config = Config(maxConsecutive: int, maxRate: real)

  /** consecutive_errors, recent_errors, recent_events. */
  datatype Health = Health(consecutive: nat, errors: seq<real>, events: seq<real>)

  const FRESH := Health(0, [], [])

  /** [t for t in times if t > cutoff] */
  function After(times: seq<real>, cutoff: real): seq<real> {
    if times == [] then []
    else
      var k := |times| - 1;
      After(times[..k], cutoff) + (if times[k] > cutoff then [times[k]] else [])
  }

  /** The times later than the cutoff, if there is one. */
  function Cut(times: seq<real>, cutoff: Option<real>): seq<real> {
    if cutoff.Some? then After(times, cutoff.value) else times
  }

  /** len(errors) / (len(events) + len(errors)) > limit */
  predicate RateExceeds(errors: nat, events: nat, limit: real) {
    errors + events > 0 && errors as real / (events + errors) as real > limit
  }

  // ---------------------------------------------------------------- record_error, record_success

  function ErrorAt(cfg: Config, h: Health, now: real): (Health, bool) {
    var consecutive := h.consecutive + 1;
    var errors := After(h.errors + [now], now - WINDOW);
    if consecutive >= cfg.maxConsecutive then (Health(consecutive, errors, h.events), true)
    else if |h.events| >= ENOUGH then
      var events := After(h.events, now - WINDOW);
      (Health(consecutive, errors, events), |events| > 0 && RateExceeds(|errors|, |events|, cfg.maxRate))
    else (Health(consecutive, errors, h.events), false)
  }

  function SuccessAt(h: Health, now: real): Health {
    Health(0, h.errors, After(h.events + [now], now - WINDOW))
  }

  // ---------------------------------------------------------------- the full history

  /** What happened since the last successful connect. */
  datatype Mark = Good(at: real) | Bad(at: real)

  function Record(cfg: Config, h: Health, m: Mark): Health {
    if m.Good? then SuccessAt(h, m.at) else ErrorAt(cfg, h, m.at).0
  }

  function Track(cfg: Config, marks: seq<Mark>): Health {
    if marks == [] then FRESH else Record(cfg, Track(cfg, marks[..|marks| - 1]), marks[|marks| - 1])
  }

  lemma TrackPush(cfg: Config, marks: seq<Mark>, m: Mark)
    ensures Track(cfg, marks + [m]) == Record(cfg, Track(cfg, marks), m)
  {
    assert (marks + [m])[..|marks|] == marks;
  }

  /** The clock never goes backwards. */
  predicate Ordered(marks: seq<Mark>) {
    forall i, j | 0 <= i < j < |marks| :: marks[i].at <= marks[j].at
  }

  function Successes(marks: seq<Mark>): seq<real> {
    if marks == [] then []
    else
      var m := marks[|marks| - 1];
      Successes(marks[..|marks| - 1]) + (if m.Good? then [m.at] else [])
  }

  function Errors(marks: seq<Mark>): seq<real> {
    if marks == [] then []
    else
      var m := marks[|marks| - 1];
      Errors(marks[..|marks| - 1]) + (if m.Bad? then [m.at] else [])
  }

  /** Errors since the last success. */
  function Trailing(marks: seq<Mark>): nat {
    if marks == [] || marks[|marks| - 1].Good? then 0 else 1 + Trailing(marks[..|marks| - 1])
  }

  /** The last mark that made the tracker forget old successes: a success, or an error below the
      limit that found at least ten stored; its cutoff lies a minute before it. */
  function Cutoff(cfg: Config, marks: seq<Mark>): Option<real>
    decreases |marks|, 0
  {
    if marks == [] then None
    else
      var m, before := marks[|marks| - 1], marks[..|marks| - 1];
      if m.Good? || (Trailing(marks) < cfg.maxConsecutive && |Stored(cfg, before)| >= ENOUGH) then Some(m.at - WINDOW)
      else Cutoff(cfg, before)
  }

  /** The successes later than the last prune cutoff. */
  function Stored(cfg: Config, marks: seq<Mark>): seq<real>
    decreases |marks|, 1
  {
    if marks == [] then [] else Cut(Successes(marks), Cutoff(cfg, marks))
  }

  lemma AfterAppend(times: seq<real>, t: real, cutoff: real)
    ensures After(times + [t], cutoff) == After(times, cutoff) + (if t > cutoff then [t] else [])
  {
    assert (times + [t])[..|times|] == times;
  }

  /** Pruning early loses nothing that a later, higher cutoff would keep. */
  lemma {:induction false} AfterTwice(times: seq<real>, low: real, high: real)
    requires low <= high
    ensures After(After(times, low), high) == After(times, high)
  {
    if times != [] {
      var k := |times| - 1;
      var kept := After(times[..k], low);
      AfterTwice(times[..k], low, high);
      if times[k] > low {
        AfterAppend(kept, times[k], high);
        assert After(times, low) == kept + [times[k]];
      } else {
        assert After(times, low) == kept && After(times, high) == After(times[..k], high);
      }
    }
  }

  // ---------------------------------------------------------------- the windows refine the history

  /** The errors of the minute before the last error. */
  function LastMinute(marks: seq<Mark>): seq<real> {
    var errors := Errors(marks);
    if errors == [] then [] else After(errors, errors[|errors| - 1] - WINDOW)
  }

  /** Neither the last prune cutoff nor the last error is later than a record made now would have it. */
  predicate Earlier(cfg: Config, marks: seq<Mark>, now: real) {
    && (Cutoff(cfg, marks).Some? ==> Cutoff(cfg, marks).value <= now - WINDOW)
    && (Errors(marks) != [] ==> Errors(marks)[|Errors(marks)| - 1] <= now)
  }

  lemma {:induction false} LatestBounds(cfg: Config, marks: seq<Mark>, now: real)
    requires forall m | m in marks :: m.at <= now
    ensures Earlier(cfg, marks, now)
  {
    if marks != [] {
      assert marks[|marks| - 1] in marks;
      LatestBounds(cfg, marks[..|marks| - 1], now);
    }
  }

  /** Restricting to a later cutoff sees through whatever was pruned before. */
  lemma CutAfter(times: seq<real>, low: Option<real>, high: real)
    requires low.Some? ==> low.value <= high
    ensures After(Cut(times, low), high) == After(times, high)
  {
    if low.Some? {
      AfterTwice(times, low.value, high);
    }
  }

  lemma StoredAfter(cfg: Config, marks: seq<Mark>, now: real)
    requires Earlier(cfg, marks, now)
    ensures After(Stored(cfg, marks), now - WINDOW) == After(Successes(marks), now - WINDOW)
  {
    CutAfter(Successes(marks), Cutoff(cfg, marks), now - WINDOW);
  }

  lemma LastMinuteAfter(cfg: Config, marks: seq<Mark>, now: real)
    requires Earlier(cfg, marks, now)
    ensures After(LastMinute(marks), now - WINDOW) == After(Errors(marks), now - WINDOW)
  {
    var errors := Errors(marks);
    if errors != [] {
      AfterTwice(errors, errors[|errors| - 1] - WINDOW, now - WINDOW);
    }
  }

  lemma LastIsLatest(cfg: Config, before: seq<Mark>, m: Mark)
    requires Ordered(before + [m])
    ensures Ordered(before) && Earlier(cfg, before, m.at)
  {
    var marks := before + [m];
    assert forall i | 0 <= i < |before| :: before[i] == marks[i] && marks[i].at <= marks[|before|].at;
    LatestBounds(cfg, before, m.at);
  }

  ghost function Views(cfg: Config, marks: seq<Mark>): Health {
    Health(Trailing(marks), LastMinute(marks), Stored(cfg, marks))
  }

  lemma GoodUnfolds(cfg: Config, before: seq<Mark>, now: real)
    ensures var marks := before + [Good(now)];
            && Trailing(marks) == 0
            && LastMinute(marks) == LastMinute(before)
            && Stored(cfg, marks) == After(Successes(before) + [now], now - WINDOW)
  {
    var marks := before + [Good(now)];
    assert marks[..|marks| - 1] == before;
    assert Errors(marks) == Errors(before);
    assert Successes(marks) == Successes(before) + [now];
  }

  lemma GoodKeepsViews(cfg: Config, before: seq<Mark>, now: real)
    requires Earlier(cfg, before, now)
    ensures SuccessAt(Views(cfg, before), now) == Views(cfg, before + [Good(now)])
  {
    GoodUnfolds(cfg, before, now);
    StoredAfter(cfg, before, now);
    AfterAppend(Stored(cfg, before), now, now - WINDOW);
    AfterAppend(Successes(before), now, now - WINDOW);
  }

  lemma BadErrors(cfg: Config, before: seq<Mark>, now: real)
    requires Earlier(cfg, before, now)
    ensures After(LastMinute(before) + [now], now - WINDOW) == LastMinute(before + [Bad(now)])
  {
    var marks := before + [Bad(now)];
    assert marks[..|marks| - 1] == before;
    LastMinuteAfter(cfg, before, now);
    AfterAppend(LastMinute(before), now, now - WINDOW);
    AfterAppend(Errors(before), now, now - WINDOW);
    assert Errors(marks) == Errors(before) + [now];
  }

  /** An error below the limit that finds enough successes stored prunes them. */
  predicate Prunes(cfg: Config, before: seq<Mark>) {
    1 + Trailing(before) < cfg.maxConsecutive && |Stored(cfg, before)| >= ENOUGH
  }

  lemma BadCutoff(cfg: Config, before: seq<Mark>, now: real)
    ensures var marks := before + [Bad(now)];
      && Trailing(marks) == 1 + Trailing(before) && Successes(marks) == Successes(before)
      && Cutoff(cfg, marks) == if Prunes(cfg, before) then Some(now - WINDOW) else Cutoff(cfg, before)
  {
    var marks := before + [Bad(now)];
    assert marks[..|marks| - 1] == before;
  }

  lemma BadStored(cfg: Config, before: seq<Mark>, now: real)
    requires Earlier(cfg, before, now)
    ensures Stored(cfg, before + [Bad(now)]) ==
      if Prunes(cfg, before) then After(Stored(cfg, before), now - WINDOW) else Stored(cfg, before)
  {
    BadCutoff(cfg, before, now);
    StoredAfter(cfg, before, now);
  }

  lemma BadKeepsViews(cfg: Config, before: seq<Mark>, now: real)
    requires Earlier(cfg, before, now)
    ensures ErrorAt(cfg, Views(cfg, before), now).0 == Views(cfg, before + [Bad(now)])
  {
    BadErrors(cfg, before, now);
    BadStored(cfg, before, now);
    BadCutoff(cfg, before, now);
  }

  /** The pruned windows are exact views of the full history: the counter is the number of errors
      since the last success, recent_errors the errors of the minute before the last one, and
      recent_events the successes later than the last prune cutoff. */
  lemma {:induction false} WindowsExact(cfg: Config, marks: seq<Mark>)
    requires Ordered(marks)
    ensures Track(cfg, marks) == Views(cfg, marks)
  {
    if marks != [] {
      var before, m := marks[..|marks| - 1], marks[|marks| - 1];
      assert marks == before + [m];
      LastIsLatest(cfg, before, m);
      WindowsExact(cfg, before);
      if m.Good? {
        GoodKeepsViews(cfg, before, m.at);
      } else {
        BadKeepsViews(cfg, before, m.at);
      }
    }
  }

  /** The consecutive limit is reached by an error now, or at least ten successes are stored, some of them fall in
      the last 60 seconds, and errors make up more than the limit of those 60 seconds. */
  predicate TooBad(cfg: Config, marks: seq<Mark>, now: real) {
    var errors, events := |After(Errors(marks + [Bad(now)]), now - 60.0)|, |After(Successes(marks), now - 60.0)|;
    || Trailing(marks) + 1 >= cfg.maxConsecutive
    || (|Stored(cfg, marks)| >= 10 && events > 0 && RateExceeds(errors, events, cfg.maxRate))
  }

  /** record_error answers True exactly then. */
  lemma VerdictExact(cfg: Config, marks: seq<Mark>, now: real)
    requires Ordered(marks + [Bad(now)])
    ensures ErrorAt(cfg, Track(cfg, marks), now).1 <==> TooBad(cfg, marks, now)
  {
    var all := marks + [Bad(now)];
    assert all[..|marks|] == marks;
    LastIsLatest(cfg, marks, Bad(now));
    WindowsExact(cfg, marks);
    StoredAfter(cfg, marks, now);
    LastMinuteAfter(cfg, marks, now);
    AfterAppend(LastMinute(marks), now, now - WINDOW);
    AfterAppend(Errors(marks), now, now - WINDOW);
  }

  /** At the default limit of one half: errors outnumber successes. */
  lemma HalfMeansMore(errors: nat, events: nat)
    ensures RateExceeds(errors, events, 0.5) <==> errors > events
  {
    if errors + events > 0 {
      var n := (errors + events) as real;
      var r := errors as real / n;
      assert r * n == errors as real && n == events as real + errors as real;
      if r > 0.5 {
        MulOrder(r, 0.5, n);
      } else if r < 0.5 {
        MulOrder(0.5, r, n);
      } else {
        assert 0.5 * n == errors as real;
      }
    }
  }

  // ---------------------------------------------------------------- process_event

  /** How handling a message can go, apart from the health record itself. */
  datatype Payload =
    | NotMessage          // another event type, or blank data
    | Handled             // formatted and handed to Redis
    | Missing             // format_xml gave None
    | Thrown              // JSON, key or any other error before the success is recorded

  /** The health left, whether an exception escapes, and the records made. */
  datatype Handling = Handling(health: Health, raised: bool, marks: seq<Mark>)

  /** One message.  now1 is the clock at the first record, now2 at the second if there is one: the
      ConnectionError of a format failure is caught by the handler of its own try block. */
  function Process(cfg: Config, h: Health, p: Payload, now1: real, now2: real): Handling {
    match p
    case NotMessage => Handling(h, false, [])
    case Handled => Handling(SuccessAt(h, now1), false, [Good(now1)])
    case Thrown => var (u, stop) := ErrorAt(cfg, h, now1); Handling(u, stop, [Bad(now1)])
    case Missing =>
      var (u, stop) := ErrorAt(cfg, h, now1);
      if !stop then Handling(u, false, [Bad(now1)])
      else var (v, again) := ErrorAt(cfg, u, now2); Handling(v, again, [Bad(now1), Bad(now2)])
  }

  /** After any history the records made by a message lead from the health before to the health after.  They are
      one success, one error, two errors, or none for an ignored message; and two exactly when a
      format failure's own ConnectionError is caught again. */
  lemma RecordsPerMessage(cfg: Config, before: seq<Mark>, p: Payload, now1: real, now2: real)
    ensures var h := Track(cfg, before);
            var r := Process(cfg, h, p, now1, now2);
            && r.health == Track(cfg, before + r.marks)
            && (p.NotMessage? <==> r.marks == [])
            && (p.Handled? <==> r.marks == [Good(now1)])
            && (p.Missing? || p.Thrown? ==> r.marks == [Bad(now1)] || r.marks == [Bad(now1), Bad(now2)])
            && (|r.marks| == 2 <==> p.Missing? && ErrorAt(cfg, h, now1).1)
            && (r.raised ==> p.Missing? || p.Thrown?)
  {
    TrackPush(cfg, before, Good(now1));
    TrackPush(cfg, before, Bad(now1));
    TrackPush(cfg, before + [Bad(now1)], Bad(now2));
    assert before + [] == before && before + [Bad(now1), Bad(now2)] == before + [Bad(now1)] + [Bad(now2)];
  }

  lemma OrderedPrefix(marks: seq<Mark>, m: Mark)
    requires Ordered(marks + [m])
    ensures Ordered(marks)
  {
    assert forall i | 0 <= i < |marks| :: (marks + [m])[i] == marks[i];
  }

  /** When process_event raises, in terms of the history: on a message that fails before its success is recorded if
      the error is too much, and on a format failure if both its error and the one after it are. */
  lemma RaisesExact(cfg: Config, before: seq<Mark>, p: Payload, now1: real, now2: real)
    requires Ordered(before + [Bad(now1)] + [Bad(now2)])
    ensures Process(cfg, Track(cfg, before), p, now1, now2).raised <==>
      match p
      case NotMessage => false
      case Handled => false
      case Thrown => TooBad(cfg, before, now1)
      case Missing => TooBad(cfg, before, now1) && TooBad(cfg, before + [Bad(now1)], now2)
  {
    OrderedPrefix(before + [Bad(now1)], Bad(now2));
    TrackPush(cfg, before, Bad(now1));
    VerdictExact(cfg, before, now1);
    VerdictExact(cfg, before + [Bad(now1)], now2);
  }

  /** Reaching the limit always makes process_event raise, also through the second record. */
  lemma LimitRaises(cfg: Config, h: Health, p: Payload, now1: real, now2: real)
    requires (p.Missing? || p.Thrown?) && h.consecutive + 1 >= cfg.maxConsecutive
    ensures Process(cfg, h, p, now1, now2).raised
  {}

  /** A raise on the format path that the error rate alone has triggered escapes exactly when the
      second record, which starts from the windows the first has pruned, answers True as well. */
  lemma RateRaiseEscapes(cfg: Config, h: Health, now1: real, now2: real)
    requires ErrorAt(cfg, h, now1).1 && h.consecutive + 1 < cfg.maxConsecutive && now1 <= now2
    ensures var events, errors := After(h.events, now2 - WINDOW), After(h.errors + [now1, now2], now2 - WINDOW);
            Process(cfg, h, Missing, now1, now2).raised <==>
              || h.consecutive + 2 >= cfg.maxConsecutive
              || (|After(h.events, now1 - WINDOW)| >= ENOUGH && |events| > 0 && RateExceeds(|errors|, |events|, cfg.maxRate))
  {
    AfterTwice(h.events, now1 - WINDOW, now2 - WINDOW);
    var kept := After(h.errors + [now1], now1 - WINDOW);
    AfterAppend(kept, now2, now2 - WINDOW);
    AfterTwice(h.errors + [now1], now1 - WINDOW, now2 - WINDOW);
    assert h.errors + [now1, now2] == h.errors + [now1] + [now2];
    AfterAppend(h.errors + [now1], now2, now2 - WINDOW);
  }

  // ---------------------------------------------------------------- the worker's life

  /** What the worker does: connect, or handle one message while it has a stream. */
  datatype Act = Connect | Message(p: Payload, now1: real, now2: real) | Close

  /** `live`: the worker is inside its event loop.  process_event raising leaves it. */
  datatype Worker = Worker(health: Health, live: bool)

  function Step(cfg: Config, w: Worker, a: Act): Worker {
    match a
    case Connect => if w.live then w else Worker(FRESH, true)
    case Close => w.(live := false)
    case Message(p, now1, now2) =>
      if !w.live then w
      else var r := Process(cfg, w.health, p, now1, now2); Worker(r.health, !r.raised)
  }

  function Live(cfg: Config, acts: seq<Act>): Worker {
    if acts == [] then Worker(FRESH, false)
    else Step(cfg, Live(cfg, acts[..|acts| - 1]), acts[|acts| - 1])
  }

  /** The records made since the worker last connected. */
  function Since(cfg: Config, acts: seq<Act>): seq<Mark> {
    if acts == [] then []
    else
      var before, a := acts[..|acts| - 1], acts[|acts| - 1];
      var w := Live(cfg, before);
      match a
      case Connect => if w.live then Since(cfg, before) else []
      case Close => Since(cfg, before)
      case Message(p, now1, now2) =>
        Since(cfg, before) + (if w.live then Process(cfg, w.health, p, now1, now2).marks else [])
  }

  /** In every run of a worker its health is what the records since it last connected make of a fresh one. */
  lemma {:induction false} LiveTracks(cfg: Config, acts: seq<Act>)
    ensures Live(cfg, acts).health == Track(cfg, Since(cfg, acts))
  {
    if acts != [] {
      var before, a := acts[..|acts| - 1], acts[|acts| - 1];
      LiveTracks(cfg, before);
      assert Since(cfg, before) + [] == Since(cfg, before);
      if a.Message? && Live(cfg, before).live {
        RecordsPerMessage(cfg, Since(cfg, before), a.p, a.now1, a.now2);
      }
    }
  }

  /** So in every run of a worker the pruned windows are the exact views of that history. */
  lemma LiveWindows(cfg: Config, acts: seq<Act>)
    requires Ordered(Since(cfg, acts))
    ensures Live(cfg, acts).health == Views(cfg, Since(cfg, acts))
  {
    LiveTracks(cfg, acts);
    WindowsExact(cfg, Since(cfg, acts));
  }

  function Max(a: int, b: int): int {
    if a < b then b else a
  }

  /** In every reachable state the counter is at most one above the limit, and inside the event
      loop it is below it. */
  lemma {:induction false} CounterBounded(cfg: Config, acts: seq<Act>)
    ensures var w := Live(cfg, acts);
            && w.health.consecutive <= Max(cfg.maxConsecutive, 1) + 1
            && (w.live ==> w.health.consecutive < Max(cfg.maxConsecutive, 1))
  {
    if acts != [] {
      CounterBounded(cfg, acts[..|acts| - 1]);
    }
  }

  /** After a connect, one error less than the limit and then a format failure. */
  function ToTheLimit(n: nat, now: real): seq<Act> {
    [Connect] + seq(n, _ => Message(Thrown, now, now))
  }

  lemma {:induction false} ErrorsCount(cfg: Config, n: nat, now: real)
    requires n < cfg.maxConsecutive
    ensures var w := Live(cfg, ToTheLimit(n, now)); w.live && w.health.consecutive == n && w.health.events == []
  {
    var acts := ToTheLimit(n, now);
    if n == 0 {
      assert acts[..0] == [] && acts[0] == Connect && |acts| == 1;
    } else {
      assert acts[..|acts| - 1] == ToTheLimit(n - 1, now);
      ErrorsCount(cfg, n - 1, now);
    }
  }

  /** The bound is met whatever the limit: one error less than it and then a format failure, which counts
      twice, take the counter to one above it.  With the default limit of ten it reaches eleven. */
  lemma CounterReachesBound(cfg: Config, now: real)
    requires cfg.maxConsecutive >= 1
    ensures Live(cfg, ToTheLimit(cfg.maxConsecutive - 1, now) + [Message(Missing, now, now)]).health.consecutive ==
            cfg.maxConsecutive + 1
  {
    var n := cfg.maxConsecutive - 1;
    var acts := ToTheLimit(n, now) + [Message(Missing, now, now)];
    assert acts[..|acts| - 1] == ToTheLimit(n, now);
    ErrorsCount(cfg, n, now);
  }

  lemma FractionOrder(a: real, b: real, c: real, d: real)
    requires b > 0.0 && d > 0.0 && a * d <= c * b
    ensures a / b <= c / d
  {
    var x, y, m := a / b, c / d, b * d;
    assert m > 0.0;
    assert x * m == a * d by {
      assert x * b == a;
      assert x * m == (x * b) * d;
    }
    assert y * m == c * b by {
      assert y * d == c;
      assert y * m == (y * d) * b;
    }
    if x > y {
      MulOrder(x, y, m);
    }
  }

  lemma MulOrder(x: real, y: real, m: real)
    requires x > y && m > 0.0
    ensures x * m > y * m
  {}

  lemma OneMoreError(errors: nat, events: nat, limit: real)
    requires RateExceeds(errors, events, limit)
    ensures RateExceeds(errors + 1, events, limit)
  {
    var e, n := errors as real, (events + errors) as real;
    assert e * (n + 1.0) == e * n + e && (e + 1.0) * n == e * n + n;
    FractionOrder(e, n, e + 1.0, n + 1.0);
    assert (events + (errors + 1)) as real == n + 1.0 && (errors + 1) as real == e + 1.0;
  }

  /** When both records fall in the same instant, the raise that the error rate has triggered is
      lost exactly when the limit is still more than one error away and fewer than ten successes
      fall in the last minute. */
  lemma RateRaiseLostIff(cfg: Config, h: Health, now: real)
    requires ErrorAt(cfg, h, now).1 && h.consecutive + 1 < cfg.maxConsecutive
    ensures !Process(cfg, h, Missing, now, now).raised <==>
            h.consecutive + 2 < cfg.maxConsecutive && |After(h.events, now - WINDOW)| < ENOUGH
  {
    var kept := After(h.errors + [now], now - WINDOW);
    AfterAppend(kept, now, now - WINDOW);
    AfterTwice(h.errors + [now], now - WINDOW, now - WINDOW);
    AfterTwice(h.events, now - WINDOW, now - WINDOW);
    OneMoreError(|kept|, |After(h.events, now - WINDOW)|, cfg.maxRate);
  }

  // A run that loses one: nine successes at the start, one 50 seconds later, an error at 55, and a
  // format failure at 70, when errors are two of the three records of the last minute.

  function Opening(n: nat): seq<Mark> {
    seq(n, _ => Good(0.0))
  }

  lemma {:induction false} OpeningTracked(cfg: Config, n: nat)
    ensures Track(cfg, Opening(n)) == Health(0, [], seq(n, _ => 0.0))
  {
    if n > 0 {
      assert Opening(n)[..n - 1] == Opening(n - 1);
      OpeningTracked(cfg, n - 1);
      var zeros := seq(n, _ => 0.0);
      assert zeros == seq(n - 1, _ => 0.0) + [0.0];
      AllLate(zeros, 0.0 - WINDOW);
    } else {
      assert Opening(0) == [];
    }
  }

  lemma {:induction false} AllLate(times: seq<real>, cutoff: real)
    requires forall i | 0 <= i < |times| :: times[i] > cutoff
    ensures After(times, cutoff) == times
  {
    if times != [] {
      AllLate(times[..|times| - 1], cutoff);
    }
  }

  lemma {:induction false} AllEarly(times: seq<real>, cutoff: real)
    requires forall i | 0 <= i < |times| :: times[i] <= cutoff
    ensures After(times, cutoff) == []
  {
    if times != [] {
      AllEarly(times[..|times| - 1], cutoff);
    }
  }

  lemma BeforeTheLoss(cfg: Config)
    requires cfg == Config(10, 0.5)
    ensures Track(cfg, Opening(9) + [Good(50.0)] + [Bad(55.0)]) == Health(1, [55.0], seq(9, _ => 0.0) + [50.0])
  {
    var zeros := seq(9, _ => 0.0);
    OpeningTracked(cfg, 9);
    var a := Opening(9) + [Good(50.0)];
    assert a[..|a| - 1] == Opening(9);
    AllLate(zeros + [50.0], -10.0);
    var b := a + [Bad(55.0)];
    assert b[..|b| - 1] == a;
    AllLate(zeros + [50.0], -5.0);
    AllLate([] + [55.0], -5.0);
  }

  lemma LossAt(cfg: Config, h: Health, zeros: seq<real>)
    requires cfg == Config(10, 0.5) && h == Health(1, [55.0], zeros + [50.0])
    requires |zeros| == 9 && forall i | 0 <= i < |zeros| :: zeros[i] == 0.0
    ensures ErrorAt(cfg, h, 70.0).1 && After(h.events, 70.0 - WINDOW) == [50.0]
  {
    AllEarly(zeros, 10.0);
    AfterAppend(zeros, 50.0, 10.0);
    AllLate([55.0] + [70.0], 10.0);
    HalfMeansMore(2, 1);
  }

  /** The reconnect documented for an error rate above one half does not always come. */
  lemma RateRaiseLost(cfg: Config)
    requires cfg == Config(10, 0.5)
    ensures var h := Track(cfg, Opening(9) + [Good(50.0)] + [Bad(55.0)]);
            ErrorAt(cfg, h, 70.0).1 && !Process(cfg, h, Missing, 70.0, 70.0).raised
  {
    var h := Track(cfg, Opening(9) + [Good(50.0)] + [Bad(55.0)]);
    BeforeTheLoss(cfg);
    LossAt(cfg, h, seq(9, _ => 0.0));
    RateRaiseLostIff(cfg, h, 70.0);
  }
}
