// Finite sums over the rows of a table.
//
// Every total of the model is one of these: the held and the used tokens of a user, the tokens
// a batch reserves, the free slots of the nodes, the requests out on a node, the entries of a
// settled task.  A count is a sum of zeros and ones, so the same lemmas serve for both: how a
// sum changes when one row is updated or appended, and how two sums compare row by row.
module Sums {

  function Sum<T>(s: seq<T>, f: T -> int): int {
    if s == [] then 0 else Sum(s[..|s| - 1], f) + f(s[|s| - 1])
  }

  function Max(a: int, b: int): int { if a >= b then a else b }

  function Min(a: int, b: int): int { if a <= b then a else b }

  lemma {:induction false} SumAppend<T>(s: seq<T>, x: T, f: T -> int)
    ensures Sum(s + [x], f) == Sum(s, f) + f(x)
  {
    assert (s + [x])[..|s|] == s;
  }

  lemma SumPrefix<T>(s: seq<T>, n: nat, f: T -> int)
    requires n < |s|
    ensures Sum(s[..n + 1], f) == Sum(s[..n], f) + f(s[n])
  {
    assert s[..n + 1] == s[..n] + [s[n]];
    SumAppend(s[..n], s[n], f);
  }

  lemma {:induction false} SumConcat<T>(s: seq<T>, t: seq<T>, f: T -> int)
    ensures Sum(s + t, f) == Sum(s, f) + Sum(t, f)
  {
    if t == [] {
      assert s + t == s;
    } else {
      var init := t[..|t| - 1];
      assert s + t == (s + init) + [t[|t| - 1]];
      SumAppend(s + init, t[|t| - 1], f);
      SumConcat(s, init, f);
    }
  }

  lemma {:induction false} SumUpdate<T>(s: seq<T>, i: nat, x: T, f: T -> int)
    requires i < |s|
    ensures Sum(s[i := x], f) == Sum(s, f) - f(s[i]) + f(x)
  {
    var n := |s| - 1;
    if i == n {
      assert s[i := x][..n] == s[..n];
    } else {
      assert s[i := x][..n] == s[..n][i := x];
      SumUpdate(s[..n], i, x, f);
    }
  }

  // Sums of pointwise equal weights agree.
  lemma {:induction false} SumSame<S, T>(a: seq<S>, f: S -> int, b: seq<T>, g: T -> int)
    requires |a| == |b|
    requires forall i :: 0 <= i < |a| ==> f(a[i]) == g(b[i])
    ensures Sum(a, f) == Sum(b, g)
  {
    if a != [] {
      var n := |a| - 1;
      assert f(a[n]) == g(b[n]);
      SumSame(a[..n], f, b[..n], g);
    }
  }

  // Sums are linear in pointwise weights.
  lemma {:induction false} SumLinear<R, S, T>(a: seq<R>, f: R -> int, b: seq<S>, g: S -> int, c: seq<T>, h: T -> int)
    requires |a| == |b| == |c|
    requires forall i :: 0 <= i < |a| ==> f(a[i]) == g(b[i]) + h(c[i])
    ensures Sum(a, f) == Sum(b, g) + Sum(c, h)
  {
    if a != [] {
      var n := |a| - 1;
      assert f(a[n]) == g(b[n]) + h(c[n]);
      SumLinear(a[..n], f, b[..n], g, c[..n], h);
    }
  }

  lemma {:induction false} SumMonotone<S, T>(a: seq<S>, f: S -> int, b: seq<T>, g: T -> int)
    requires |a| == |b|
    requires forall i :: 0 <= i < |a| ==> f(a[i]) <= g(b[i])
    ensures Sum(a, f) <= Sum(b, g)
  {
    if a != [] {
      var n := |a| - 1;
      assert f(a[n]) <= g(b[n]);
      SumMonotone(a[..n], f, b[..n], g);
    }
  }

  lemma {:induction false} SumZero<T>(s: seq<T>, f: T -> int)
    requires forall i :: 0 <= i < |s| ==> f(s[i]) == 0
    ensures Sum(s, f) == 0
  {
    if s != [] {
      assert f(s[|s| - 1]) == 0;
      SumZero(s[..|s| - 1], f);
    }
  }

  lemma {:induction false} SumNonNegative<T>(s: seq<T>, f: T -> int)
    requires forall i :: 0 <= i < |s| ==> f(s[i]) >= 0
    ensures Sum(s, f) >= 0
  {
    if s != [] {
      assert f(s[|s| - 1]) >= 0;
      SumNonNegative(s[..|s| - 1], f);
    }
  }

  // One row never weighs more than the whole table.
  lemma {:induction false} SumMember<T>(s: seq<T>, i: nat, f: T -> int)
    requires i < |s|
    requires forall j :: 0 <= j < |s| ==> f(s[j]) >= 0
    ensures f(s[i]) <= Sum(s, f)
  {
    if i == |s| - 1 {
      SumNonNegative(s[..i], f);
    } else {
      assert f(s[|s| - 1]) >= 0;
      SumMember(s[..|s| - 1], i, f);
    }
  }

  // If the whole table weighs nothing, no row does.
  lemma {:induction false} SumZeroMember<T>(s: seq<T>, i: nat, f: T -> int)
    requires i < |s|
    requires forall j :: 0 <= j < |s| ==> f(s[j]) >= 0
    requires Sum(s, f) == 0
    ensures f(s[i]) == 0
  {
    SumMember(s, i, f);
  }
}
