/** The retry delays of connect_to_event_stream.  src/es2r/es2r.py. */
module Backoff {
  import opened Base

  datatype Config = Config(reconnectDelay: nat, maxReconnectDelay: nat)

  const DEFAULTS := Config(5, 300)

  /** How one attempt ends.  The two handled kinds wait; any other exception escapes. */
  datatype Attempt = Connected | HttpError | NetworkError | Escaped

  function Pow2(n: nat): (r: nat)
    ensures r >= 1
  {
    if n == 0 then 1 else 2 * Pow2(n - 1)
  }

  /** The wait after a failure when connect_attempt has reached n. */
  function Delay(cfg: Config, n: nat): nat {
    Min(cfg.reconnectDelay * Pow2(Min(n, 6)), cfg.maxReconnectDelay)
  }

  /** One attempt: the counter it leaves and the time it sleeps. */
  function Try(cfg: Config, attempt: nat, a: Attempt): (nat, nat) {
    match a
    case Connected => (0, 0)
    case HttpError => (attempt + 1, Delay(cfg, attempt + 1))
    case NetworkError => (attempt + 1, Delay(cfg, attempt + 1))
    case Escaped => (attempt + 1, 0)
  }

  /** The waits of a run of attempts, which may span several workers: connect_attempt belongs to the
      process, and starting a worker does not touch it. */
  function Waits(cfg: Config, attempt: nat, tries: seq<Attempt>): seq<nat>
    decreases |tries|
  {
    if tries == [] then []
    else
      var (next, slept) := Try(cfg, attempt, tries[0]);
      [slept] + Waits(cfg, next, tries[1..])
  }

  function Sum(s: seq<nat>): nat {
    if s == [] then 0 else s[0] + Sum(s[1..])
  }

  predicate Handled(tries: seq<Attempt>) {
    forall i | 0 <= i < |tries| :: tries[i].HttpError? || tries[i].NetworkError?
  }

  lemma {:induction false} Pow2Mono(a: nat, b: nat)
    requires a <= b
    ensures Pow2(a) <= Pow2(b)
  {
    if a < b {
      Pow2Mono(a, b - 1);
    }
  }

  lemma DelayMono(cfg: Config, a: nat, b: nat)
    requires a <= b
    ensures Delay(cfg, a) <= Delay(cfg, b) <= cfg.maxReconnectDelay
  {
    Pow2Mono(Min(a, 6), Min(b, 6));
    ScaleMono(cfg.reconnectDelay, Pow2(Min(a, 6)), Pow2(Min(b, 6)));
  }

  /** The delays one by one: doubled up to the sixth failure and the same from there on, never above the maximum. */
  lemma DelayTable(cfg: Config, n: nat)
    ensures Delay(cfg, 1) == Min(2 * cfg.reconnectDelay, cfg.maxReconnectDelay)
    ensures 1 <= n < 6 ==> Delay(cfg, n + 1) == Min(2 * (cfg.reconnectDelay * Pow2(n)), cfg.maxReconnectDelay)
    ensures n >= 6 ==> Delay(cfg, n) == Min(64 * cfg.reconnectDelay, cfg.maxReconnectDelay)
  {
    assert Pow2(6) == 64 && Pow2(1) == 2;
    if 1 <= n < 6 {
      assert Pow2(n + 1) == 2 * Pow2(n);
      assert cfg.reconnectDelay * (2 * Pow2(n)) == 2 * (cfg.reconnectDelay * Pow2(n));
    }
  }

  lemma ScaleMono(k: nat, a: nat, b: nat)
    requires a <= b
    ensures k * a <= k * b
  {}

  /** Over consecutive handled failures the waits never shrink and never exceed the maximum, for
      every configuration and wherever the run starts. */
  lemma {:induction false} WaitsGrow(cfg: Config, attempt: nat, tries: seq<Attempt>)
    requires Handled(tries)
    decreases |tries|
    ensures var w := Waits(cfg, attempt, tries);
            && |w| == |tries|
            && (forall i | 0 <= i < |w| :: w[i] == Delay(cfg, attempt + 1 + i) && w[i] <= cfg.maxReconnectDelay)
            && (forall i, j | 0 <= i < j < |w| :: w[i] <= w[j])
  {
    if tries != [] {
      WaitsGrow(cfg, attempt + 1, tries[1..]);
      var w := Waits(cfg, attempt, tries);
      forall i | 0 <= i < |w| ensures w[i] == Delay(cfg, attempt + 1 + i) && w[i] <= cfg.maxReconnectDelay {
        DelayMono(cfg, attempt + 1 + i, attempt + 1 + i);
        if i > 0 { assert w[i] == Waits(cfg, attempt + 1, tries[1..])[i - 1]; }
      }
      forall i, j | 0 <= i < j < |w| ensures w[i] <= w[j] {
        DelayMono(cfg, attempt + 1 + i, attempt + 1 + j);
      }
    }
  }

  /** The attempts since the last success, this one not counted. */
  function Tried(attempt: nat, tries: seq<Attempt>): nat {
    if tries == [] then attempt
    else if tries[|tries| - 1].Connected? then 0
    else 1 + Tried(attempt, tries[..|tries| - 1])
  }

  lemma {:induction false} TriedFirst(attempt: nat, tries: seq<Attempt>)
    requires tries != []
    ensures Tried(attempt, tries) == Tried(if tries[0].Connected? then 0 else attempt + 1, tries[1..])
  {
    if |tries| > 1 {
      assert tries[..|tries| - 1][1..] == tries[1..][..|tries| - 2];
      TriedFirst(attempt, tries[..|tries| - 1]);
    } else {
      assert tries[..0] == [];
    }
  }

  /** Over every run of attempts, whatever comes of them: an attempt that succeeds or ends in an exception nobody
      handles waits nothing, and any other the delay of its place after the last success, where
      attempts that ended in such an exception count too. */
  lemma {:induction false} WaitsExact(cfg: Config, attempt: nat, tries: seq<Attempt>, i: nat)
    requires i < |tries|
    ensures var w := Waits(cfg, attempt, tries);
      |w| == |tries| &&
      w[i] == if tries[i].Connected? || tries[i].Escaped? then 0 else Delay(cfg, 1 + Tried(attempt, tries[..i]))
    decreases |tries|
  {
    var next := if tries[0].Connected? then 0 else attempt + 1;
    if |tries| > 1 {
      WaitsExact(cfg, next, tries[1..], if i == 0 then 0 else i - 1);
    }
    if i > 0 {
      TriedFirst(attempt, tries[..i]);
      assert tries[..i][1..] == tries[1..][..i - 1];
    }
  }

  /** The total wait from failure number `attempt + 1` to failure number n, with the defaults. */
  function Total(n: nat): nat {
    if n <= 5 then 10 * (Pow2(n) - 1) else 310 + 300 * (n - 5)
  }

  lemma DefaultDelay(n: nat)
    requires n >= 1
    ensures Delay(DEFAULTS, n) == if n <= 5 then 5 * Pow2(n) else 300
    ensures Total(n) == Total(n - 1) + Delay(DEFAULTS, n)
  {
    assert Pow2(5) == 32 && Pow2(6) == 64;
    Pow2Mono(n, if n <= 5 then 5 else n);
  }

  lemma FirstWait(cfg: Config, attempt: nat, tries: seq<Attempt>)
    requires tries != [] && Handled(tries)
    ensures Sum(Waits(cfg, attempt, tries)) == Delay(cfg, attempt + 1) + Sum(Waits(cfg, attempt + 1, tries[1..]))
  {
    var w := Waits(cfg, attempt, tries);
    assert w[1..] == Waits(cfg, attempt + 1, tries[1..]);
  }

  /** With the defaults, n consecutive handled failures after a success wait 10 * (2^n - 1) seconds
      in all for n <= 5, and 310 + 300 * (n - 5) from then on. */
  lemma {:induction false} TotalWait(tries: seq<Attempt>, attempt: nat)
    requires Handled(tries)
    ensures Sum(Waits(DEFAULTS, attempt, tries)) == Total(attempt + |tries|) - Total(attempt)
  {
    if tries != [] {
      DefaultDelay(attempt + 1);
      FirstWait(DEFAULTS, attempt, tries);
      TotalWait(tries[1..], attempt + 1);
    }
  }

  /** A success starts the count afresh. */
  lemma FreshAfterSuccess(attempt: nat, tries: seq<Attempt>)
    requires Handled(tries)
    ensures Sum(Waits(DEFAULTS, attempt, [Connected] + tries)) == Total(|tries|)
  {
    var all := [Connected] + tries;
    assert all[1..] == tries;
    TotalWait(tries, 0);
    assert Waits(DEFAULTS, attempt, all)[1..] == Waits(DEFAULTS, 0, tries);
  }
}
