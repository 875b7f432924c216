/** Small datatypes and sequence facts shared by the other modules. */
module Base {

  datatype Option<+T> = None | Some(value: T)

  predicate Prefix<T(==)>(a: seq<T>, b: seq<T>) {
    |a| <= |b| && a == b[..|a|]
  }

  /** Two prefixes of one sequence are comparable. */
  lemma PrefixesCompare<T>(a: seq<T>, b: seq<T>, whole: seq<T>)
    requires Prefix(a, whole) && Prefix(b, whole)
    ensures Prefix(a, b) || Prefix(b, a)
  {
    if |a| <= |b| {
      assert whole[..|b|][..|a|] == whole[..|a|];
    } else {
      assert whole[..|a|][..|b|] == whole[..|b|];
    }
  }

  function Min(a: int, b: int): int {
    if a <= b then a else b
  }

  /** Increasing from each element to every later one. */
  predicate Increasing(s: seq<nat>) {
    forall i, j | 0 <= i < j < |s| :: s[i] < s[j]
  }

  /** Text without line breaks. */
  predicate OneLine(s: string) {
    '\r' !in s && '\n' !in s
  }

  predicate NoDup<T(==)>(s: seq<T>) {
    forall i, j | 0 <= i < j < |s| :: s[i] != s[j]
  }

  ghost function ToSet<T>(s: seq<T>): set<T> {
    set x | x in s
  }

  /** A sequence without repeats has as many elements as its set. */
  lemma {:induction false} NoDupCard<T>(s: seq<T>)
    requires NoDup(s)
    ensures |ToSet(s)| == |s|
  {
    if s != [] {
      var t := s[..|s| - 1];
      assert s == t + [s[|s| - 1]];
      assert ToSet(s) == ToSet(t) + {s[|s| - 1]};
      NoDupCard(t);
    }
  }

  /** Erase the first occurrence of x, as vector::erase(find(...)) does. */
  function Erase<T(==)>(s: seq<T>, x: T): (r: seq<T>) {
    if s == [] then []
    else if s[0] == x then s[1..]
    else [s[0]] + Erase(s[1..], x)
  }

  lemma {:induction false} EraseNoDup<T>(s: seq<T>, x: T)
    requires NoDup(s)
    ensures NoDup(Erase(s, x))
    ensures ToSet(Erase(s, x)) == ToSet(s) - {x}
    ensures |Erase(s, x)| == if x in s then |s| - 1 else |s|
  {
    if s != [] {
      assert s == [s[0]] + s[1..];
      if s[0] == x {
        assert x !in s[1..];
      } else {
        EraseNoDup(s[1..], x);
        var r := Erase(s[1..], x);
        assert forall y :: y in r <==> y in ToSet(r);
        assert forall y :: y in s[1..] <==> y in ToSet(s[1..]);
        assert s[0] !in r;
        assert ToSet([s[0]] + r) == {s[0]} + ToSet(r);
        assert ToSet(s) == {s[0]} + ToSet(s[1..]);
      }
    }
  }
}
