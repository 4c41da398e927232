/** Order-preserving filtering of sequences, shared by the task queue and the network watcher. */
module Seqs {

  function Not<T>(p: T -> bool): T -> bool {
    x => !p(x)
  }

  /** The elements of `s` that `p` accepts, in order and with multiplicity. */
  function Keep<T(!new)>(s: seq<T>, p: T -> bool): (r: seq<T>)
    ensures |r| <= |s|
  {
    if s == [] then [] else
      var rest := Keep(s[1..], p);
      if p(s[0]) then [s[0]] + rest else rest
  }

  lemma {:induction false} KeepMembers<T(!new)>(s: seq<T>, p: T -> bool)
    ensures forall x :: x in Keep(s, p) <==> x in s && p(x)
  {
    if s != [] {
      KeepMembers(s[1..], p);
    }
  }

  lemma {:induction false} KeepConcat<T(!new)>(a: seq<T>, b: seq<T>, p: T -> bool)
    ensures Keep(a + b, p) == Keep(a, p) + Keep(b, p)
  {
    if a == [] {
      assert a + b == b;
    } else {
      assert (a + b)[1..] == a[1..] + b;
      KeepConcat(a[1..], b, p);
    }
  }

  /** Filtering splits the elements: nothing is lost and nothing is invented. */
  lemma {:induction false} KeepPartition<T(!new)>(s: seq<T>, p: T -> bool)
    ensures multiset(s) == multiset(Keep(s, p)) + multiset(Keep(s, Not(p)))
  {
    if s != [] {
      assert s == [s[0]] + s[1..];
      KeepPartition(s[1..], p);
    }
  }

  /** A filter that accepts every element changes nothing. */
  lemma {:induction false} KeepAll<T(!new)>(s: seq<T>, p: T -> bool)
    requires forall x :: x in s ==> p(x)
    ensures Keep(s, p) == s
  {
    if s != [] {
      KeepAll(s[1..], p);
    }
  }

  /** Filters that agree on the elements keep the same ones. */
  lemma {:induction false} KeepSame<T(!new)>(s: seq<T>, p: T -> bool, q: T -> bool)
    requires forall x :: x in s ==> p(x) == q(x)
    ensures Keep(s, p) == Keep(s, q)
  {
    if s != [] {
      KeepSame(s[1..], p, q);
    }
  }

  /** The image of `s` under `f`, position by position. */
  function Map<A, B>(f: A -> B, s: seq<A>): (r: seq<B>)
    ensures |r| == |s|
    ensures forall i :: 0 <= i < |s| ==> r[i] == f(s[i])
  {
    seq(|s|, i requires 0 <= i < |s| => f(s[i]))
  }

  /** Filtering commutes with a projection that the two predicates agree on. */
  lemma {:induction false} KeepMap<A(!new), B(!new)>(f: A -> B, s: seq<A>, p: A -> bool, q: B -> bool)
    requires forall x :: x in s ==> p(x) == q(f(x))
    ensures Map(f, Keep(s, p)) == Keep(Map(f, s), q)
  {
    if s != [] {
      KeepMap(f, s[1..], p, q);
      assert Map(f, s)[1..] == Map(f, s[1..]);
    }
  }
}
