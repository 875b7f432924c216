/** The Redis list between es2r and xmlrcsd.  es2r appends with RPUSH and the daemon takes from the
    same end with RPOP, so the list is a stack.  src/es2r/es2r.py, src/xmlrcsd/main.cpp. */
module RedisQueue {
  import opened Base

  datatype Op = Rpush | Rpop

  /** Items are named by the order in which they were pushed: 0, 1, 2, ...  `alone` says that every
      pop that found an item found exactly one. */
  datatype Queue = Queue(next: nat, list: seq<nat>, popped: seq<nat>, alone: bool)

  const EMPTY := Queue(0, [], [], true)

  function Do(q: Queue, op: Op): Queue {
    match op
    case Rpush => q.(next := q.next + 1, list := q.list + [q.next])
    case Rpop =>
      if q.list == [] then q
      else
        var k := |q.list| - 1;
        q.(list := q.list[..k], popped := q.popped + [q.list[k]], alone := q.alone && k == 0)
  }

  function DoAll(ops: seq<Op>, q: Queue): Queue {
    if ops == [] then q else Do(DoAll(ops[..|ops| - 1], q), ops[|ops| - 1])
  }

  // ---------------------------------------------------------------- conservation

  /** Every item pushed is in exactly one place, exactly once. */
  ghost predicate Conserved(q: Queue) {
    && Increasing(q.list) && NoDup(q.popped)
    && (forall i: nat {:trigger Inside(q, i)} {:trigger Outside(q, i)} :: Inside(q, i) || Outside(q, i) <==> i < q.next)
    && (forall i: nat {:trigger Inside(q, i)} {:trigger Outside(q, i)} :: !(Inside(q, i) && Outside(q, i)))
    && |q.list| + |q.popped| == q.next
  }

  predicate Inside(q: Queue, i: nat) { i in q.list }
  predicate Outside(q: Queue, i: nat) { i in q.popped }

  lemma PushConserves(q: Queue)
    requires Conserved(q)
    ensures Conserved(Do(q, Rpush))
  {
    var u := Do(q, Rpush);
    forall i: nat
      ensures Inside(u, i) <==> Inside(q, i) || i == q.next
      ensures Outside(u, i) <==> Outside(q, i)
    {}
    assert !Inside(q, q.next) && !Outside(q, q.next);
    forall i | 0 <= i < |q.list| ensures q.list[i] < q.next { assert Inside(q, q.list[i]); }
  }

  lemma PopConserves(q: Queue)
    requires Conserved(q) && q.list != []
    ensures Conserved(Do(q, Rpop))
  {
    var u := Do(q, Rpop);
    var x := q.list[|q.list| - 1];
    assert q.list == u.list + [x];
    assert Inside(q, x);
    assert x !in u.list by {
      assert forall i | 0 <= i < |u.list| :: u.list[i] == q.list[i] && u.list[i] < x;
    }
    forall i: nat
      ensures Inside(q, i) <==> Inside(u, i) || i == x
      ensures Outside(u, i) <==> Outside(q, i) || i == x
    {}
    assert !Outside(q, x);
  }

  lemma {:induction false} RunConserves(ops: seq<Op>)
    ensures Conserved(DoAll(ops, EMPTY))
  {
    if ops != [] {
      var q, op := DoAll(ops[..|ops| - 1], EMPTY), ops[|ops| - 1];
      RunConserves(ops[..|ops| - 1]);
      if op.Rpush? {
        PushConserves(q);
      } else if q.list != [] {
        PopConserves(q);
      }
    }
  }

  /** What the items are: the texts at the places where they were pushed. */
  function Texts<T>(pushed: seq<T>, at: seq<nat>): seq<T>
    requires forall i | 0 <= i < |at| :: at[i] < |pushed|
  {
    seq(|at|, i requires 0 <= i < |at| => pushed[at[i]])
  }

  ghost predicate Covers<T>(pushed: seq<T>, q: Queue) {
    && (forall i | 0 <= i < |q.list| :: q.list[i] < |pushed|)
    && (forall i | 0 <= i < |q.popped| :: q.popped[i] < |pushed|)
  }

  lemma RunCovers<T>(ops: seq<Op>, pushed: seq<T>)
    requires DoAll(ops, EMPTY).next <= |pushed|
    ensures Covers(pushed, DoAll(ops, EMPTY))
  {
    var q := DoAll(ops, EMPTY);
    RunConserves(ops);
    forall i | 0 <= i < |q.list| ensures q.list[i] < |pushed| { assert Inside(q, q.list[i]); }
    forall i | 0 <= i < |q.popped| ensures q.popped[i] < |pushed| { assert Outside(q, q.popped[i]); }
  }

  lemma TextsPush<T>(pushed: seq<T>, at: seq<nat>, x: nat)
    requires x < |pushed| && forall i | 0 <= i < |at| :: at[i] < |pushed|
    ensures Texts(pushed, at + [x]) == Texts(pushed, at) + [pushed[x]]
  {}

  /** Over every run, popped and remaining texts together are the multiset of texts pushed. */
  lemma {:induction false} TextsConserved<T>(ops: seq<Op>, pushed: seq<T>)
    requires DoAll(ops, EMPTY).next <= |pushed|
    ensures var q := DoAll(ops, EMPTY);
            Covers(pushed, q) && multiset(Texts(pushed, q.popped)) + multiset(Texts(pushed, q.list)) == multiset(pushed[..q.next])
  {
    RunCovers(ops, pushed);
    if ops != [] {
      var q, u := DoAll(ops[..|ops| - 1], EMPTY), DoAll(ops, EMPTY);
      RunCovers(ops[..|ops| - 1], pushed);
      TextsConserved(ops[..|ops| - 1], pushed);
      if ops[|ops| - 1].Rpush? {
        PushTexts(pushed, q);
      } else if q.list != [] {
        PopTexts(pushed, q);
      }
    }
  }

  lemma PushTexts<T>(pushed: seq<T>, q: Queue)
    requires Covers(pushed, q) && q.next < |pushed|
    ensures multiset(Texts(pushed, q.list + [q.next])) == multiset(Texts(pushed, q.list)) + multiset{pushed[q.next]}
    ensures multiset(pushed[..q.next + 1]) == multiset(pushed[..q.next]) + multiset{pushed[q.next]}
  {
    TextsPush(pushed, q.list, q.next);
    assert pushed[..q.next + 1] == pushed[..q.next] + [pushed[q.next]];
  }

  lemma PopTexts<T>(pushed: seq<T>, q: Queue)
    requires Covers(pushed, q) && q.list != []
    ensures var u := Do(q, Rpop);
            && Covers(pushed, u)
            && multiset(Texts(pushed, u.popped)) + multiset(Texts(pushed, u.list)) ==
               multiset(Texts(pushed, q.popped)) + multiset(Texts(pushed, q.list))
  {
    var u, x := Do(q, Rpop), q.list[|q.list| - 1];
    assert q.list == u.list + [x];
    TextsPush(pushed, u.list, x);
    TextsPush(pushed, q.popped, x);
  }

  // ---------------------------------------------------------------- the orders that can come out

  /** No item may come out between a later one and one that lies between the two: once k is out,
      the earlier items still inside come out last pushed first. */
  predicate StackOrder(popped: seq<nat>) {
    forall p, r, j: nat | 0 <= p < r < |popped| && popped[r] < j < popped[p] :: j in popped[..r]
  }

  lemma {:induction false} RunStackOrder(ops: seq<Op>)
    ensures StackOrder(DoAll(ops, EMPTY).popped)
  {
    if ops != [] {
      var before := DoAll(ops[..|ops| - 1], EMPTY);
      var q := DoAll(ops, EMPTY);
      RunStackOrder(ops[..|ops| - 1]);
      RunConserves(ops[..|ops| - 1]);
      if ops[|ops| - 1].Rpop? && before.list != [] {
        forall p, r, j: nat | 0 <= p < r < |q.popped| && q.popped[r] < j < q.popped[p] ensures j in q.popped[..r] {
          if r < |before.popped| {
            assert q.popped[..r] == before.popped[..r];
          } else {
            assert q.popped[..r] == before.popped && Outside(before, q.popped[p]);
            assert !Inside(before, j);
          }
        }
      }
    }
  }

  /** No three items pushed as i, j, k are ever popped as k, i, j. */
  lemma NeverLastFirstMiddle(ops: seq<Op>, p: nat, r: nat, m: nat)
    requires var out := DoAll(ops, EMPTY).popped; p < r < m < |out|
    ensures var out := DoAll(ops, EMPTY).popped; !(out[r] < out[m] < out[p])
  {
    var out := DoAll(ops, EMPTY).popped;
    RunStackOrder(ops);
    RunConserves(ops);
    assert out[m] !in out[..r] by {
      assert forall t | 0 <= t < r :: out[t] != out[m];
    }
  }

  /** The pushes and pops that bring out a given order: push up to the wanted item, then pop. */
  function Plan(order: seq<nat>): seq<Op> {
    if order == [] then []
    else
      var k := |order| - 1;
      var before := Plan(order[..k]);
      var next := DoAll(before, EMPTY).next;
      before + Pushes(if order[k] < next then 0 else order[k] + 1 - next) + [Rpop]
  }

  function Pushes(n: nat): seq<Op> {
    seq(n, _ => Rpush)
  }

  lemma {:induction false} DoAllAppend(a: seq<Op>, b: seq<Op>, q: Queue)
    ensures DoAll(a + b, q) == DoAll(b, DoAll(a, q))
    decreases |b|
  {
    if b == [] {
      assert a + b == a;
    } else {
      assert (a + b)[..|a + b| - 1] == a + b[..|b| - 1];
      DoAllAppend(a, b[..|b| - 1], q);
    }
  }

  lemma {:induction false} PushMany(n: nat, q: Queue)
    ensures var u := DoAll(Pushes(n), q);
            && u.next == q.next + n && u.popped == q.popped && |u.list| == |q.list| + n
            && (n > 0 ==> u.list[|u.list| - 1] == q.next + n - 1)
            && (n == 0 ==> u == q)
    decreases n
  {
    var ops := Pushes(n);
    if n > 0 {
      assert ops[..n - 1] == Pushes(n - 1);
      PushMany(n - 1, q);
    } else {
      assert ops == [];
    }
  }

  /** The last item pushed is among those popped. */
  predicate JustUsed(next: nat, popped: seq<nat>) {
    if popped == [] then next == 0 else next > 0 && next - 1 in popped
  }

  lemma StackOrderPrefix(order: seq<nat>, k: nat)
    requires k <= |order| && NoDup(order) && StackOrder(order)
    ensures NoDup(order[..k]) && StackOrder(order[..k])
  {
    forall p, r, j: nat | 0 <= p < r < k && order[..k][r] < j < order[..k][p] ensures j in order[..k][..r] {
      assert order[..k][..r] == order[..r];
    }
  }

  /** The wanted item, if it was pushed already, is on top. */
  lemma TopIs(v: Queue, order: seq<nat>)
    requires order != [] && NoDup(order) && StackOrder(order)
    requires Conserved(v) && v.popped == order[..|order| - 1] && order[|order| - 1] < v.next
    requires JustUsed(v.next, v.popped)
    ensures v.list != [] && v.list[|v.list| - 1] == order[|order| - 1]
  {
    var k := |order| - 1;
    var x, used := order[k], order[..k];
    assert Inside(v, x) by {
      assert !Outside(v, x);
    }
    var t := v.list[|v.list| - 1];
    assert Inside(v, t);
    assert Outside(v, v.next - 1);
    var p: nat :| p < k && order[p] == v.next - 1;
    assert x < t ==> t in used;
    assert !Outside(v, t);
  }

  /** Pushing n more and popping. */
  lemma PlanStep(before: seq<Op>, n: nat)
    ensures var q := DoAll(before, EMPTY);
            var v := DoAll(before + Pushes(n), EMPTY);
            && v.next == q.next + n && v.popped == q.popped
            && (n > 0 ==> v.list != [] && v.list[|v.list| - 1] == q.next + n - 1)
            && (n == 0 ==> v == q)
            && DoAll(before + Pushes(n) + [Rpop], EMPTY) == Do(v, Rpop)
  {
    var q, pushes := DoAll(before, EMPTY), Pushes(n);
    PushMany(n, q);
    DoAllAppend(before, pushes, EMPTY);
    assert (before + pushes + [Rpop])[..|before + pushes|] == before + pushes;
  }

  /** Every stack order comes out of the run planned for it. */
  lemma {:induction false} EveryStackOrderHappens(order: seq<nat>)
    requires NoDup(order) && StackOrder(order)
    ensures DoAll(Plan(order), EMPTY).popped == order
    ensures JustUsed(DoAll(Plan(order), EMPTY).next, order)
  {
    if order != [] {
      var k := |order| - 1;
      var x := order[k];
      StackOrderPrefix(order, k);
      EveryStackOrderHappens(order[..k]);
      var next := DoAll(Plan(order[..k]), EMPTY).next;
      PlanNext(Plan(order[..k]), order, if x < next then 0 else x + 1 - next);
    }
  }

  /** The items that come out of the run, in that order. */
  predicate Yields(ops: seq<Op>, order: seq<nat>) {
    DoAll(ops, EMPTY).popped == order
  }

  /** The orders in which items can come out of the list are exactly the stack orders: no item twice, and
      whenever an earlier item follows a later one, every item between the two has come out already. */
  lemma PossibleIff(order: seq<nat>)
    ensures (exists ops :: Yields(ops, order)) <==> NoDup(order) && StackOrder(order)
  {
    if NoDup(order) && StackOrder(order) {
      EveryStackOrderHappens(order);
      assert Yields(Plan(order), order);
    }
    forall ops | Yields(ops, order) ensures NoDup(order) && StackOrder(order) {
      RunConserves(ops);
      RunStackOrder(ops);
    }
  }

  /** Having no three items k, i, j out of order is not enough: 2 cannot come out before 0 without 1. */
  lemma SkippingIsImpossible()
    ensures !exists ops :: Yields(ops, [2, 0])
  {
    var order: seq<nat> := [2, 0];
    var j: nat := 1;
    assert order[1] < j < order[0] && j !in order[..1];
    PossibleIff(order);
    forall ops ensures !Yields(ops, [2, 0]) {
      assert !Yields(ops, order);
    }
  }

  lemma PopWanted(v: Queue, order: seq<nat>)
    requires order != [] && v.list != [] && v.list[|v.list| - 1] == order[|order| - 1] && v.next > 0
    requires v.popped == order[..|order| - 1] && (v.next - 1 == order[|order| - 1] || v.next - 1 in v.popped)
    ensures Do(v, Rpop).popped == order && JustUsed(Do(v, Rpop).next, order)
  {
    assert order == v.popped + [order[|order| - 1]];
  }

  lemma PlanNext(before: seq<Op>, order: seq<nat>, n: nat)
    requires order != [] && NoDup(order) && StackOrder(order)
    requires DoAll(before, EMPTY).popped == order[..|order| - 1] && JustUsed(DoAll(before, EMPTY).next, order[..|order| - 1])
    requires n == if order[|order| - 1] < DoAll(before, EMPTY).next then 0 else order[|order| - 1] + 1 - DoAll(before, EMPTY).next
    ensures var u := DoAll(before + Pushes(n) + [Rpop], EMPTY); u.popped == order && JustUsed(u.next, order)
  {
    PlanStep(before, n);
    RunConserves(before);
    if n == 0 {
      TopIs(DoAll(before, EMPTY), order);
    }
    PopWanted(DoAll(before + Pushes(n), EMPTY), order);
  }

  // ---------------------------------------------------------------- when the list is a queue

  /** The items came out in the order in which they went in. */
  predicate Fifo(popped: seq<nat>) {
    forall p | 0 <= p < |popped| :: popped[p] == p
  }

  /** If 0, 1, ..., m-1 are out, the top is m exactly when the list holds nothing else. */
  lemma FifoTop(q: Queue)
    requires Conserved(q) && Fifo(q.popped) && q.list != []
    ensures q.list[|q.list| - 1] == |q.popped| <==> |q.list| == 1
  {
    var m := |q.popped|;
    forall i | 0 <= i < |q.list| ensures m <= q.list[i] < q.next {
      assert Inside(q, q.list[i]);
      if q.list[i] < m {
        assert q.popped[q.list[i]] == q.list[i];
        assert Outside(q, q.list[i]);
      }
    }
    assert m <= q.list[0] && q.list[|q.list| - 1] < q.next;
  }

  /** The popped sequence is a prefix of the pushed one exactly when every pop that found an item
      found exactly one. */
  lemma {:induction false} FifoIffAlone(ops: seq<Op>)
    ensures var q := DoAll(ops, EMPTY); Fifo(q.popped) <==> q.alone
  {
    if ops != [] {
      var q := DoAll(ops[..|ops| - 1], EMPTY);
      FifoIffAlone(ops[..|ops| - 1]);
      RunConserves(ops[..|ops| - 1]);
      if ops[|ops| - 1].Rpop? && q.list != [] {
        var u := Do(q, Rpop);
        var m := |q.popped|;
        if Fifo(q.popped) {
          FifoTop(q);
          assert u.popped[m] == q.list[|q.list| - 1];
          assert forall p | 0 <= p < m :: u.popped[p] == q.popped[p];
        } else {
          var p :| 0 <= p < m && q.popped[p] != p;
          assert u.popped[p] == q.popped[p];
        }
      }
    }
  }

  // ---------------------------------------------------------------- the producer's side

  /** What a command to Redis came to: it may fail before or after the server has run it. */
  datatype Outcome = Done | Failed(applied: bool)

  /** How many times the server has run the command. */
  function Run(o: Outcome): nat {
    if o.Done? || o.applied then 1 else 0
  }

  /** How many copies one call of insert_to_redis leaves. */
  function Inserted(first: Outcome, reconnect: bool, second: Outcome): nat {
    Run(first) + (if first.Done? || !reconnect then 0 else Run(second))
  }

  /** The table of insert_to_redis: a first success leaves one copy and is not retried; after a failure the retry,
      if the connection came back, adds its own to what the first may have left. */
  lemma InsertedTable(first: Outcome, reconnect: bool, second: Outcome)
    ensures first.Done? ==> Inserted(first, reconnect, second) == 1
    ensures first == Failed(false) ==>
      Inserted(first, reconnect, second) == if reconnect && second != Failed(false) then 1 else 0
    ensures first == Failed(true) ==>
      Inserted(first, reconnect, second) == if reconnect && second != Failed(false) then 2 else 1
  {
  }

  function Copies(text: string, n: nat): seq<string> {
    seq(n, _ => text)
  }

  lemma CopiesAre(text: string)
    ensures Copies(text, 0) == [] && Copies(text, 1) == [text] && Copies(text, 2) == [text, text]
  {
  }

  lemma CopiesAdd(before: seq<string>, text: string, m: nat, n: nat)
    ensures before + Copies(text, m) + Copies(text, n) == before + Copies(text, m + n)
  {
    assert Copies(text, m) + Copies(text, n) == Copies(text, m + n);
    assert before + Copies(text, m) + Copies(text, n) == before + (Copies(text, m) + Copies(text, n));
  }

  /** A text pushed later changes nothing about those pushed before. */
  lemma TextsGrow<T>(pushed: seq<T>, x: T, at: seq<nat>)
    requires forall i | 0 <= i < |at| :: at[i] < |pushed|
    ensures Texts(pushed + [x], at) == Texts(pushed, at)
  {}

  /** The reply to RPOP, as a text: the empty one when the list is empty. */
  function Reply(items: seq<string>): string {
    if items == [] then "" else items[|items| - 1]
  }

  class RedisList {
    var items: seq<string>
    ghost var ops: seq<Op>        // history: what the server has run
    ghost var pushed: seq<string> // history: every text pushed

    ghost function View(): Queue
      reads this
    {
      DoAll(ops, EMPTY)
    }

    ghost predicate Valid()
      reads this
    {
      View().next == |pushed| && Covers(pushed, View()) && items == Texts(pushed, View().list)
    }

    constructor ()
      ensures Valid() && items == [] && View() == EMPTY
    {
      items, ops, pushed := [], [], [];
    }

    method RPush(text: string, o: Outcome) returns (ok: bool)
      requires Valid()
      modifies this
      ensures Valid() && ok == o.Done?
      ensures items == old(items) + Copies(text, Run(o)) && pushed == old(pushed) + Copies(text, Run(o))
      ensures View() == if Run(o) == 1 then Do(old(View()), Rpush) else old(View())
      ensures items == if o == Failed(false) then old(items) else old(items) + [text]
    {
      assert Copies(text, 1) == [text] && old(items) + Copies(text, 0) == old(items) && old(pushed) + Copies(text, 0) == old(pushed);
      if o.Done? || o.applied {
        ghost var q := View();
        items := items + [text];
        TextsGrow(pushed, text, q.list);
        ops, pushed := ops + [Rpush], pushed + [text];
        assert ops[..|ops| - 1] == old(ops);
        TextsPush(pushed, q.list, q.next);
      }
      return o.Done?;
    }

    /** The text popped is the one pushed at the place that the queue's history names last. */
    method RPop() returns (text: Option<string>)
      requires Valid()
      modifies this
      ensures Valid() && pushed == old(pushed) && View() == Do(old(View()), Rpop)
      ensures (if text.Some? then text.value else "") == Reply(old(items))
      ensures old(items) == [] ==> text.None? && items == []
      ensures old(items) != [] ==>
                && text.Some? && items + [text.value] == old(items)
                && text.value == pushed[View().popped[|View().popped| - 1]]
    {
      ghost var q := View();
      ops := ops + [Rpop];
      assert ops[..|ops| - 1] == old(ops);
      if items == [] {
        assert q.list == [];
        return None;
      }
      text := Some(items[|items| - 1]);
      items := items[..|items| - 1];
    }

    /** insert_to_redis: one retry on a new connection.  A command that fails after the server has run
        it leaves its copy behind, so True means one copy or two, and False none, one or two. */
    method InsertToRedis(wiki: string, xml: string, first: Outcome, reconnect: bool, second: Outcome) returns (ok: bool)
      requires Valid()
      modifies this
      ensures Valid()
      ensures ok <==> first.Done? || (reconnect && second.Done?)
      ensures first.Done? ==> items == old(items) + [wiki + "|" + xml]
      ensures ok ==> items == old(items) + [wiki + "|" + xml] || items == old(items) + [wiki + "|" + xml, wiki + "|" + xml]
      ensures items == old(items) + Copies(wiki + "|" + xml, Inserted(first, reconnect, second))
      ensures pushed == old(pushed) + Copies(wiki + "|" + xml, Inserted(first, reconnect, second))
    {
      InsertedTable(first, reconnect, second);
      CopiesAre(wiki + "|" + xml);
      ok := RPush(wiki + "|" + xml, first);
      if ok {
        return;
      }
      if !reconnect {
        return false;
      }
      ok := RPush(wiki + "|" + xml, second);
      CopiesAdd(old(items), wiki + "|" + xml, Run(first), Run(second));
      CopiesAdd(old(pushed), wiki + "|" + xml, Run(first), Run(second));
    }
  }
}
