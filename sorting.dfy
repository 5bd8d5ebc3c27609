/** `Array.prototype.sort` with a numeric comparator `(a, b) => key(a) - key(b)`
    (ascending) or `(a, b) => key(b) - key(a)` (descending). The language
    requires that sort to be stable; the model is a stable insertion sort. */
module Sorting {

  /** `a` may stand before `b` in the requested direction. */
  predicate InOrder(a: real, b: real, descending: bool)
  {
    if descending then a >= b else a <= b
  }

  ghost predicate Ordered<T>(s: seq<T>, key: T -> real, descending: bool)
  {
    forall i, j :: 0 <= i < j < |s| ==> InOrder(key(s[i]), key(s[j]), descending)
  }

  /** Puts `x` in front of the first element it may precede, so that `x` stays
      ahead of the elements whose key equals its own. */
  function Insert<T>(x: T, s: seq<T>, key: T -> real, descending: bool): (r: seq<T>)
    requires Ordered(s, key, descending)
    ensures Ordered(r, key, descending)
    ensures multiset(r) == multiset(s) + multiset{x}
    ensures |r| == |s| + 1
  {
    if s == [] || InOrder(key(x), key(s[0]), descending) then
      [x] + s
    else
      var rest := Insert(x, s[1..], key, descending);
      ConsInserted(x, s, rest, key, descending);
      [s[0]] + rest
  }

  /** Putting the head of `s` back in front of the insertion of `x` into the
      rest of `s` gives an ordered list holding `x` and all of `s`. */
  lemma ConsInserted<T>(x: T, s: seq<T>, rest: seq<T>, key: T -> real, descending: bool)
    requires s != [] && Ordered(s, key, descending) && Ordered(rest, key, descending)
    requires !InOrder(key(x), key(s[0]), descending)
    requires multiset(rest) == multiset(s[1..]) + multiset{x}
    ensures Ordered([s[0]] + rest, key, descending)
    ensures multiset([s[0]] + rest) == multiset(s) + multiset{x}
  {
    HeadPrecedesInsert(x, s, rest, key, descending);
    var r := [s[0]] + rest;
    assert multiset(r) == multiset(s) + multiset{x} by {
      assert s == [s[0]] + s[1..];
    }
    forall i, j | 0 <= i < j < |r| ensures InOrder(key(r[i]), key(r[j]), descending) {
      assert r[j] == rest[j - 1];
      if i > 0 {
        assert r[i] == rest[i - 1];
      }
    }
  }

  /** When `x` goes after the head of `s`, that head may precede everything
      the insertion into the rest of `s` produces. */
  lemma HeadPrecedesInsert<T>(x: T, s: seq<T>, rest: seq<T>, key: T -> real, descending: bool)
    requires s != [] && Ordered(s, key, descending)
    requires !InOrder(key(x), key(s[0]), descending)
    requires multiset(rest) == multiset(s[1..]) + multiset{x}
    ensures forall j :: 0 <= j < |rest| ==> InOrder(key(s[0]), key(rest[j]), descending)
  {
    forall j | 0 <= j < |rest| ensures InOrder(key(s[0]), key(rest[j]), descending) {
      var y := rest[j];
      assert y in multiset(rest);
      if y != x {
        assert y in multiset(s[1..]);
        assert y in s[1..];
        var i :| 0 <= i < |s| - 1 && s[1..][i] == y;
        assert s[i + 1] == y;
      }
    }
  }

  /** The sorted copy of `s`. */
  function SortBy<T>(s: seq<T>, key: T -> real, descending: bool): (r: seq<T>)
    ensures Ordered(r, key, descending)
    ensures multiset(r) == multiset(s)
    ensures |r| == |s|
  {
    if s == [] then []
    else
      assert s == [s[0]] + s[1..];
      Insert(s[0], SortBy(s[1..], key, descending), key, descending)
  }
}
