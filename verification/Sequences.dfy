/** Options, and counting the elements of a sequence that satisfy a predicate. */
module Sequences {

  datatype Option<+T> = None | Some(value: T) {
    function GetOr(default: T): T {
      match this
      case Some(v) => v
      case None => default
    }
  }

  function Min(a: int, b: int): int {
    if a <= b then a else b
  }

  function Max(a: int, b: int): int {
    if a <= b then b else a
  }

  /** How many elements of `s` satisfy `f`. */
  function Count<T>(s: seq<T>, f: T -> bool): (n: nat)
    ensures n <= |s|
  {
    if s == [] then 0 else Count(s[..|s| - 1], f) + (if f(s[|s| - 1]) then 1 else 0)
  }

  lemma CountAppend<T>(s: seq<T>, x: T, f: T -> bool)
    ensures Count(s + [x], f) == Count(s, f) + (if f(x) then 1 else 0)
  {
    assert (s + [x])[..|s|] == s;
  }

  lemma {:induction false} CountConcat<T>(a: seq<T>, b: seq<T>, f: T -> bool)
    ensures Count(a + b, f) == Count(a, f) + Count(b, f)
    decreases |b|
  {
    if b == [] {
      assert a + b == a;
    } else {
      var front := b[..|b| - 1];
      CountConcat(a, front, f);
      assert a + b == (a + front) + [b[|b| - 1]];
      CountAppend(a + front, b[|b| - 1], f);
    }
  }

  lemma {:induction false} CountUpdate<T>(s: seq<T>, i: nat, x: T, f: T -> bool)
    requires i < |s|
    ensures Count(s[i := x], f) + (if f(s[i]) then 1 else 0) == Count(s, f) + (if f(x) then 1 else 0)
    decreases |s|
  {
    var n := |s| - 1;
    if i == n {
      assert s[i := x][..n] == s[..n];
    } else {
      CountUpdate(s[..n], i, x, f);
      assert s[i := x][..n] == s[..n][i := x];
    }
  }

  /** If `f` on one sequence implies `g` on another, place by place, the counts are ordered. */
  lemma {:induction false} CountMonotone<T>(a: seq<T>, b: seq<T>, f: T -> bool, g: T -> bool)
    requires |a| == |b|
    requires forall i :: 0 <= i < |a| && f(a[i]) ==> g(b[i])
    ensures Count(a, f) <= Count(b, g)
    decreases |a|
  {
    if a != [] {
      var n := |a| - 1;
      assert forall i :: 0 <= i < n ==> a[..n][i] == a[i] && b[..n][i] == b[i];
      CountMonotone(a[..n], b[..n], f, g);
      assert f(a[n]) ==> g(b[n]);
    }
  }

  lemma {:induction false} CountZero<T>(s: seq<T>, f: T -> bool)
    ensures Count(s, f) == 0 <==> forall i :: 0 <= i < |s| ==> !f(s[i])
    decreases |s|
  {
    if s != [] {
      var n := |s| - 1;
      CountZero(s[..n], f);
      assert forall i :: 0 <= i < n ==> s[..n][i] == s[i];
      assert (forall i :: 0 <= i < |s| ==> !f(s[i])) <==> (forall i :: 0 <= i < n ==> !f(s[i])) && !f(s[n]);
    }
  }
}
