// Vocabulary shared by every module: optional values, duplicate-free lists,
// look-up tables with a default, and sums over finite sets.
module Basics {

  datatype Option<+T> = None | Some(value: T)

  // The reading of `unordered_map::operator[]` on an int-valued table: an absent key counts as 0.
  function Get(m: map<int, int>, k: int): int {
    if k in m then m[k] else 0
  }

  function Lookup(m: map<int, int>, k: int): Option<int> {
    if k in m then Some(m[k]) else None
  }

  function Erase(m: map<int, int>, k: int): (r: map<int, int>)
    ensures k !in r && forall x :: x != k ==> Lookup(r, x) == Lookup(m, x)
  {
    map x | x in m && x != k :: m[x]
  }

  function Max(a: int, b: int): int {
    if a > b then a else b
  }

  lemma Reassociate<T>(a: seq<T>, b: seq<T>, d: seq<T>)
    ensures a + b + d == a + (b + d)
  {
  }

  lemma Resplit<T>(s: seq<T>, n: nat)
    requires n <= |s|
    ensures s[..n] + s[n..] == s
  {
  }

  ghost predicate NoDup<T>(s: seq<T>) {
    forall i, j :: 0 <= i < j < |s| ==> s[i] != s[j]
  }

  // The elements of a list, as a set.
  ghost function Elems<T>(s: seq<T>): (r: set<T>)
    ensures NoDup(s) ==> |r| == |s|
  {
    var r := set x | x in s;
    if s == [] then
      r
    else
      var t := Elems(s[1..]);
      assert NoDup(s) ==> s[0] !in s[1..];
      assert r == {s[0]} + t;
      r
  }

  // Sum of f over the entries of a list.
  ghost function Sum(s: seq<int>, f: int -> int): int {
    if s == [] then 0 else f(s[0]) + Sum(s[1..], f)
  }

  lemma {:induction false} SumSame(s: seq<int>, f: int -> int, g: int -> int)
    requires forall x :: x in s ==> f(x) == g(x)
    ensures Sum(s, f) == Sum(s, g)
  {
    if s == [] {
    } else {
      var x := s[0];
      assert x in s;
      SumSame(s[1..], f, g);
    }
  }

  lemma {:induction false} SumConst(s: seq<int>, f: int -> int, k: int)
    requires forall x :: x in s ==> f(x) == k
    ensures Sum(s, f) == k * |s|
  {
    if s == [] {
    } else {
      var x := s[0];
      assert x in s;
      SumConst(s[1..], f, k);
    }
  }

  lemma {:induction false} SumNonNegative(s: seq<int>, f: int -> int)
    requires forall x :: x in s ==> f(x) >= 0
    ensures Sum(s, f) >= 0
  {
    if s == [] {
    } else {
      var x := s[0];
      assert x in s;
      SumNonNegative(s[1..], f);
    }
  }

  lemma {:induction false} SumAdd(s: seq<int>, f: int -> int, g: int -> int, h: int -> int)
    requires forall x :: x in s ==> h(x) == f(x) + g(x)
    ensures Sum(s, h) == Sum(s, f) + Sum(s, g)
  {
    if s == [] {
    } else {
      var x := s[0];
      assert x in s;
      SumAdd(s[1..], f, g, h);
    }
  }

  // Changing f at one listed point only changes the sum by the difference there.
  lemma {:induction false} SumPoint(s: seq<int>, f: int -> int, g: int -> int, x: int)
    requires NoDup(s) && x in s
    requires forall y :: y in s && y != x ==> f(y) == g(y)
    ensures Sum(s, g) == Sum(s, f) - f(x) + g(x)
  {
    if s[0] == x {
      SumSame(s[1..], f, g);
    } else {
      SumPoint(s[1..], f, g, x);
    }
  }
}
