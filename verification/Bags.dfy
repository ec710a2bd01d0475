/**
  Accounting over sequences of actors.

  An actor, a queue entry or a slot `x` holds the value `f(x)`, or nothing.
  `Tally(s, f, k)` is how many elements of `s` hold `k`, and `Size(s, f)` how many
  hold anything.  The concurrent models use the first to say that a resource has
  exactly one holder among threads, queues and slots, whatever their number, and
  the second for the counters that the source keeps.
*/
module Bags {
  datatype Option<+T> = None | Some(value: T)

  ghost function One<K>(x: Option<K>, k: K): (n: nat) { if x == Some(k) then 1 else 0 }

  function Any<K>(x: Option<K>): (n: nat) { if x.Some? then 1 else 0 }

  function Itself<K>(x: K): Option<K> { Some(x) }

  ghost function Tally<A, K>(s: seq<A>, f: A -> Option<K>, k: K): (n: nat) {
    if s == [] then 0 else Tally(s[..|s| - 1], f, k) + One(f(s[|s| - 1]), k)
  }

  function Size<A, K>(s: seq<A>, f: A -> Option<K>): (n: nat)
    ensures n <= |s|
  {
    if s == [] then 0 else Size(s[..|s| - 1], f) + Any(f(s[|s| - 1]))
  }

  // ------------------------------------------------------------- appending

  lemma {:induction false} Append<A, K>(s: seq<A>, f: A -> Option<K>, x: A, k: K)
    ensures Tally(s + [x], f, k) == Tally(s, f, k) + One(f(x), k)
    ensures Size(s + [x], f) == Size(s, f) + Any(f(x))
  {
    assert (s + [x])[..|s|] == s;
  }

  lemma {:induction false} Concat<A, K>(s: seq<A>, t: seq<A>, f: A -> Option<K>, k: K)
    ensures Tally(s + t, f, k) == Tally(s, f, k) + Tally(t, f, k)
    ensures Size(s + t, f) == Size(s, f) + Size(t, f)
    decreases |t|
  {
    if t == [] {
      assert s + t == s;
    } else {
      var t', x := t[..|t| - 1], t[|t| - 1];
      assert t == t' + [x];
      assert s + t == (s + t') + [x];
      Append(s + t', f, x, k);
      Append(t', f, x, k);
      Concat(s, t', f, k);
    }
  }

  lemma {:induction false} Split<A, K>(s: seq<A>, f: A -> Option<K>, i: nat, k: K)
    requires i < |s|
    ensures Tally(s, f, k) == Tally(s[..i], f, k) + One(f(s[i]), k) + Tally(s[i + 1..], f, k)
    ensures Size(s, f) == Size(s[..i], f) + Any(f(s[i])) + Size(s[i + 1..], f)
  {
    assert s == (s[..i] + [s[i]]) + s[i + 1..];
    Concat(s[..i] + [s[i]], s[i + 1..], f, k);
    Append(s[..i], f, s[i], k);
  }

  /** Replacing one element replaces exactly what that element held. */
  lemma {:induction false} Update<A, K>(s: seq<A>, f: A -> Option<K>, i: nat, x: A, k: K)
    requires i < |s|
    ensures Tally(s[i := x], f, k) == Tally(s, f, k) - One(f(s[i]), k) + One(f(x), k)
    ensures Size(s[i := x], f) == Size(s, f) - Any(f(s[i])) + Any(f(x))
  {
    var t := s[i := x];
    assert t[..i] == s[..i] && t[i + 1..] == s[i + 1..];
    Split(s, f, i, k);
    Split(t, f, i, k);
  }

  /** Removing one element removes exactly what that element held. */
  lemma {:induction false} Remove<A, K>(s: seq<A>, f: A -> Option<K>, i: nat, k: K)
    requires i < |s|
    ensures Tally(s[..i] + s[i + 1..], f, k) == Tally(s, f, k) - One(f(s[i]), k)
    ensures Size(s[..i] + s[i + 1..], f) == Size(s, f) - Any(f(s[i]))
  {
    Split(s, f, i, k);
    Concat(s[..i], s[i + 1..], f, k);
  }

  /** Taking the first element takes exactly what it held. */
  lemma {:induction false} Behead<A, K>(s: seq<A>, f: A -> Option<K>, k: K)
    requires s != []
    ensures Tally(s, f, k) == One(f(s[0]), k) + Tally(s[1..], f, k)
    ensures Size(s, f) == Any(f(s[0])) + Size(s[1..], f)
  {
    assert s == [s[0]] + s[1..];
    Concat([s[0]], s[1..], f, k);
  }

  // --------------------------------------------------- holders and tallies

  /** An element that holds `k` is counted. */
  lemma {:induction false} Has<A, K>(s: seq<A>, f: A -> Option<K>, i: nat, k: K)
    requires i < |s| && f(s[i]) == Some(k)
    ensures Tally(s, f, k) >= 1 && Size(s, f) >= 1
  {
    Split(s, f, i, k);
  }

  /** Two elements that hold `k` are both counted. */
  lemma {:induction false} Twice<A, K>(s: seq<A>, f: A -> Option<K>, i: nat, j: nat, k: K)
    requires i < j < |s| && f(s[i]) == Some(k) == f(s[j])
    ensures Tally(s, f, k) >= 2
  {
    Split(s, f, j, k);
    Has(s[..j], f, i, k);
  }

  /** A value that is counted is held by some element. */
  lemma {:induction false} Find<A, K>(s: seq<A>, f: A -> Option<K>, k: K) returns (i: nat)
    requires Tally(s, f, k) >= 1
    ensures i < |s| && f(s[i]) == Some(k)
    decreases |s|
  {
    var n := |s| - 1;
    if f(s[n]) == Some(k) {
      i := n;
    } else {
      i := Find(s[..n], f, k);
    }
  }

  /** Nobody holds `k`. */
  lemma {:induction false} Absent<A, K>(s: seq<A>, f: A -> Option<K>, k: K)
    requires forall i :: 0 <= i < |s| ==> f(s[i]) != Some(k)
    ensures Tally(s, f, k) == 0
  {
    if Tally(s, f, k) >= 1 {
      var i := Find(s, f, k);
    }
  }

  /** Holding on fewer occasions means a smaller count. */
  lemma {:induction false} SizeMono<A, K>(s: seq<A>, f: A -> Option<K>, g: A -> Option<K>)
    requires forall i :: 0 <= i < |s| && f(s[i]).Some? ==> g(s[i]).Some?
    ensures Size(s, f) <= Size(s, g)
    decreases |s|
  {
    if s != [] {
      SizeMono(s[..|s| - 1], f, g);
    }
  }

  /** Elements past `n` that hold nothing leave at most `n` holders. */
  lemma {:induction false} SizeBound<A, K>(s: seq<A>, f: A -> Option<K>, n: nat)
    requires forall i :: n <= i < |s| ==> f(s[i]).None?
    ensures Size(s, f) <= n
    decreases |s|
  {
    if |s| > n {
      SizeBound(s[..|s| - 1], f, n);
    }
  }

  lemma {:induction false} SizeZero<A, K>(s: seq<A>, f: A -> Option<K>)
    requires forall i :: 0 <= i < |s| ==> f(s[i]).None?
    ensures Size(s, f) == 0
  {
    SizeBound(s, f, 0);
  }

  lemma {:induction false} SizeFull<A, K>(s: seq<A>, f: A -> Option<K>)
    requires forall i :: 0 <= i < |s| ==> f(s[i]).Some?
    ensures Size(s, f) == |s|
    decreases |s|
  {
    if s != [] {
      SizeFull(s[..|s| - 1], f);
    }
  }

  /** The order does not matter for who is there. */
  lemma SameElements<A>(s: seq<A>, t: seq<A>, x: A)
    requires multiset(s) == multiset(t)
    ensures x in s <==> x in t
  {
    assert x in s <==> x in multiset(s);
    assert x in t <==> x in multiset(t);
  }

  /** Counting does not depend on the order. */
  lemma {:induction false} TallyPermuted<A, K>(s: seq<A>, t: seq<A>, f: A -> Option<K>, k: K)
    requires multiset(s) == multiset(t)
    ensures Tally(s, f, k) == Tally(t, f, k)
    decreases |s|
  {
    if s == [] {
      assert |t| == |multiset(t)| == 0;
    } else {
      var front, x := s[..|s| - 1], s[|s| - 1];
      assert s == front + [x];
      assert x in multiset(t);
      var i :| 0 <= i < |t| && t[i] == x;
      SamePermuted(front, x, t, i);
      TallyPermuted(front, t[..i] + t[i + 1..], f, k);
      Remove(t, f, i, k);
    }
  }

  lemma SamePermuted<A>(front: seq<A>, x: A, t: seq<A>, i: nat)
    requires i < |t| && t[i] == x && multiset(front + [x]) == multiset(t)
    ensures multiset(front) == multiset(t[..i] + t[i + 1..])
  {
    assert t == t[..i] + [x] + t[i + 1..];
    assert multiset(t) == multiset(t[..i]) + multiset{x} + multiset(t[i + 1..]);
    assert multiset(front) == multiset(front + [x]) - multiset{x};
  }

  // ------------------------------------------------------------------- sums

  function Sum<A>(s: seq<A>, f: A -> int): int {
    if s == [] then 0 else Sum(s[..|s| - 1], f) + f(s[|s| - 1])
  }

  lemma {:induction false} SumAppend<A>(s: seq<A>, f: A -> int, x: A)
    ensures Sum(s + [x], f) == Sum(s, f) + f(x)
  {
    assert (s + [x])[..|s|] == s;
  }

  lemma {:induction false} SumSplit<A>(s: seq<A>, f: A -> int, i: nat)
    requires i < |s|
    ensures Sum(s, f) == Sum(s[..i], f) + f(s[i]) + Sum(s[i + 1..], f)
    decreases |s|
  {
    var n := |s| - 1;
    if i == n {
      assert s[i + 1..] == [];
    } else {
      SumSplit(s[..n], f, i);
      assert s[..n][..i] == s[..i];
      assert s[i + 1..] == s[..n][i + 1..] + [s[n]];
      SumAppend(s[..n][i + 1..], f, s[n]);
    }
  }

  lemma {:induction false} SumUpdate<A>(s: seq<A>, f: A -> int, i: nat, x: A)
    requires i < |s|
    ensures Sum(s[i := x], f) == Sum(s, f) - f(s[i]) + f(x)
  {
    var t := s[i := x];
    assert t[..i] == s[..i] && t[i + 1..] == s[i + 1..];
    SumSplit(s, f, i);
    SumSplit(t, f, i);
  }

  lemma {:induction false} SumConcat<A>(s: seq<A>, t: seq<A>, f: A -> int)
    ensures Sum(s + t, f) == Sum(s, f) + Sum(t, f)
    decreases |t|
  {
    if t == [] {
      assert s + t == s;
    } else {
      var n := |t| - 1;
      SumConcat(s, t[..n], f);
      assert s + t == (s + t[..n]) + [t[n]];
      SumAppend(s + t[..n], f, t[n]);
    }
  }

  lemma {:induction false} SumRemove<A>(s: seq<A>, f: A -> int, i: nat)
    requires i < |s|
    ensures Sum(s[..i] + s[i + 1..], f) == Sum(s, f) - f(s[i])
  {
    SumSplit(s, f, i);
    SumConcat(s[..i], s[i + 1..], f);
  }

  /** Nothing counted adds up to nothing. */
  lemma {:induction false} SumZero<A>(s: seq<A>, f: A -> int)
    requires forall i :: 0 <= i < |s| ==> f(s[i]) == 0
    ensures Sum(s, f) == 0
    decreases |s|
  {
    if s != [] {
      SumZero(s[..|s| - 1], f);
    }
  }

  lemma {:induction false} SumNonNegative<A>(s: seq<A>, f: A -> int)
    requires forall i :: 0 <= i < |s| ==> f(s[i]) >= 0
    ensures Sum(s, f) >= 0
    decreases |s|
  {
    if s != [] {
      SumNonNegative(s[..|s| - 1], f);
    }
  }

  // ------------------------------------------------------------ pigeonhole

  ghost function Gather<A, K>(s: seq<A>, f: A -> Option<K>): multiset<K> {
    if s == [] then multiset{}
    else
      var last := f(s[|s| - 1]);
      Gather(s[..|s| - 1], f) + if last.Some? then multiset{last.value} else multiset{}
  }

  lemma {:induction false} GatherAt<A, K>(s: seq<A>, f: A -> Option<K>, k: K)
    ensures Gather(s, f)[k] == Tally(s, f, k)
    ensures |Gather(s, f)| == Size(s, f)
    decreases |s|
  {
    if s != [] {
      GatherAt(s[..|s| - 1], f, k);
    }
  }

  ghost function Range(n: nat): (m: multiset<nat>)
    ensures |m| == n
    ensures forall k: nat :: m[k] == if k < n then 1 else 0
  {
    if n == 0 then multiset{} else Range(n - 1) + multiset{n - 1}
  }

  /** If each of `0 .. n` has exactly one holder among four groups, and nothing else
      is held, then the groups together have `n` holders. */
  lemma Pigeonhole<A, B, C, D>(a: seq<A>, f: A -> Option<nat>, b: seq<B>, g: B -> Option<nat>,
                               c: seq<C>, h: C -> Option<nat>, d: seq<D>, e: D -> Option<nat>, n: nat)
    requires forall k: nat :: Tally(a, f, k) + Tally(b, g, k) + Tally(c, h, k) + Tally(d, e, k)
                              == if k < n then 1 else 0
    ensures Size(a, f) + Size(b, g) + Size(c, h) + Size(d, e) == n
  {
    var m := Gather(a, f) + Gather(b, g) + Gather(c, h) + Gather(d, e);
    forall k: nat ensures m[k] == Range(n)[k] {
      GatherAt(a, f, k); GatherAt(b, g, k); GatherAt(c, h, k); GatherAt(d, e, k);
    }
    assert m == Range(n);
    GatherAt(a, f, 0); GatherAt(b, g, 0); GatherAt(c, h, 0); GatherAt(d, e, 0);
  }
}
