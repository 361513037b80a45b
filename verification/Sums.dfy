/** Finite sums over sets of integer keys, and sorting a set of keys. */
module Sums {

  /** Some element of a non-empty set. */
  ghost function Pick<T>(s: set<T>): (x: T)
    requires s != {}
    ensures x in s
  {
    var x :| x in s;
    x
  }

  /** The sum of f over s. */
  ghost function Sum(s: set<int>, f: int -> int): int {
    if s == {} then 0 else
      var x := Pick(s);
      f(x) + Sum(s - {x}, f)
  }

  lemma {:induction false} SumRemove(s: set<int>, x: int, f: int -> int)
    requires x in s
    ensures Sum(s, f) == f(x) + Sum(s - {x}, f)
    decreases s
  {
    var y := Pick(s);
    if y != x {
      SumRemove(s - {y}, x, f);
      SumRemove(s - {x}, y, f);
      assert s - {y} - {x} == s - {x} - {y};
    }
  }

  lemma {:induction false} SumCongruence(s: set<int>, f: int -> int, g: int -> int)
    requires forall x :: x in s ==> f(x) == g(x)
    ensures Sum(s, f) == Sum(s, g)
    decreases s
  {
    if s != {} {
      var x := Pick(s);
      SumRemove(s, x, f);
      SumRemove(s, x, g);
      SumCongruence(s - {x}, f, g);
    }
  }

  lemma {:induction false} SumDisjoint(s: set<int>, t: set<int>, f: int -> int)
    requires s !! t
    ensures Sum(s + t, f) == Sum(s, f) + Sum(t, f)
    decreases t
  {
    if t == {} {
      assert s + t == s;
    } else {
      var x := Pick(t);
      SumRemove(s + t, x, f);
      SumRemove(t, x, f);
      assert (s + t) - {x} == s + (t - {x});
      SumDisjoint(s, t - {x}, f);
    }
  }

  lemma {:induction false} SumZero(s: set<int>, f: int -> int)
    requires forall x :: x in s ==> f(x) == 0
    ensures Sum(s, f) == 0
    decreases s
  {
    if s != {} {
      var x := Pick(s);
      SumRemove(s, x, f);
      SumZero(s - {x}, f);
    }
  }

  lemma {:induction false} SumAtMost(s: set<int>, f: int -> int, g: int -> int)
    requires forall x :: x in s ==> f(x) <= g(x)
    ensures Sum(s, f) <= Sum(s, g)
    decreases s
  {
    if s != {} {
      var x := Pick(s);
      SumRemove(s, x, f);
      SumRemove(s, x, g);
      SumAtMost(s - {x}, f, g);
    }
  }

  ghost predicate Increasing(q: seq<int>) {
    forall i, j :: 0 <= i < j < |q| ==> q[i] < q[j]
  }

  ghost function Elements(q: seq<int>): set<int> {
    set x | x in q
  }

  /** The strictly increasing enumeration of a set is unique. */
  lemma {:induction false} IncreasingUnique(p: seq<int>, q: seq<int>)
    requires Increasing(p) && Increasing(q)
    requires Elements(p) == Elements(q)
    ensures p == q
    decreases |p|
  {
    assert |q| > 0 ==> q[0] in Elements(q);
    assert |p| > 0 ==> p[0] in Elements(p);
    if p != [] && q != [] {
      assert p[0] == q[0] by {
        var i :| 0 <= i < |q| && q[i] == p[0];
        var j :| 0 <= j < |p| && p[j] == q[0];
      }
      assert Elements(p[1..]) == Elements(p) - {p[0]} by { TailElements(p); }
      assert Elements(q[1..]) == Elements(q) - {q[0]} by { TailElements(q); }
      IncreasingUnique(p[1..], q[1..]);
      assert p == [p[0]] + p[1..] && q == [q[0]] + q[1..];
    }
  }

  lemma TailElements(q: seq<int>)
    requires Increasing(q) && |q| > 0
    ensures Elements(q[1..]) == Elements(q) - {q[0]}
  {
    forall x ensures x in Elements(q[1..]) <==> x in Elements(q) - {q[0]} {
      if x in Elements(q) && x != q[0] {
        var i :| 0 <= i < |q| && q[i] == x;
        assert q[1..][i - 1] == x;
      }
      if x in Elements(q[1..]) {
        var i :| 0 <= i < |q[1..]| && q[1..][i] == x;
        assert q[i + 1] == x;
      }
    }
  }

  lemma {:induction false} SumAdd(s: set<int>, f: int -> int, g: int -> int, h: int -> int)
    requires forall x :: x in s ==> h(x) == f(x) + g(x)
    ensures Sum(s, h) == Sum(s, f) + Sum(s, g)
    decreases s
  {
    if s != {} {
      var x := Pick(s);
      SumRemove(s, x, f);
      SumRemove(s, x, g);
      SumRemove(s, x, h);
      SumAdd(s - {x}, f, g, h);
    }
  }

  method Choose<T>(s: set<T>) returns (x: T)
    requires s != {}
    ensures x in s
  {
    x :| x in s;
  }

  /** The keys of a set in increasing order, as ORDER BY id returns them. */
  method Sort(s: set<int>) returns (q: seq<int>)
    ensures Increasing(q) && Elements(q) == s
  {
    q := [];
    var rest := s;
    while rest != {}
      invariant rest <= s && Increasing(q) && Elements(q) == s - rest
      decreases rest
    {
      var x := Choose(rest);
      assert x in q <==> x in Elements(q);
      q := InsertKey(q, x);
      rest := rest - {x};
    }
  }

  method InsertKey(q: seq<int>, x: int) returns (r: seq<int>)
    requires Increasing(q) && x !in q
    ensures Increasing(r) && Elements(r) == Elements(q) + {x}
  {
    var i := 0;
    while i < |q| && q[i] < x
      invariant 0 <= i <= |q|
      invariant forall j :: 0 <= j < i ==> q[j] < x
    {
      i := i + 1;
    }
    r := q[..i] + [x] + q[i..];
    assert q == q[..i] + q[i..];
    forall y ensures y in r <==> y in q || y == x {
      assert y in r <==> y in q[..i] || y == x || y in q[i..];
    }
  }

  /** 0, 1, ..., n - 1. */
  function Below(n: nat): (s: set<int>)
    ensures forall i :: i in s <==> 0 <= i < n
  {
    if n == 0 then {} else Below(n - 1) + {n - 1}
  }

  /** One key more is one value more. */
  lemma SumBelow(n: nat, f: int -> int)
    ensures Sum(Below(n + 1), f) == Sum(Below(n), f) + f(n)
  {
    SumRemove(Below(n + 1), n, f);
    assert Below(n + 1) - {n} == Below(n);
  }

  predicate GrowsBy(g: int -> int, f: int -> int, k: int) {
    g(k + 1) == g(k) + f(k)
  }

  /** What grows by f(k) in its k-th step has grown by the sum of f. */
  lemma {:induction false} SumOfSteps(g: int -> int, f: int -> int, n: nat)
    requires forall k :: 0 <= k < n ==> GrowsBy(g, f, k)
    ensures g(n) == g(0) + Sum(Below(n), f)
    decreases n
  {
    if n > 0 {
      var m := n - 1;
      SumOfSteps(g, f, m);
      assert GrowsBy(g, f, m);
      OneMoreStep(g, f, m, Sum(Below(m), f));
    }
  }

  lemma OneMoreStep(g: int -> int, f: int -> int, m: nat, before: int)
    requires GrowsBy(g, f, m) && g(m) == g(0) + before && before == Sum(Below(m), f)
    ensures g(m + 1) == g(0) + Sum(Below(m + 1), f)
  {
    SumBelow(m, f);
  }
}
