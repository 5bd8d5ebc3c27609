/** Generic building blocks shared by the model: an Option type, left-to-right
    folds (the `reduce` calls of the source), `filter`, `find`, `map` by id,
    and the facts about them that the ledger and the views rely on. */
module Common {

  datatype Option<+T> = None | Some(value: T) {
    /** The JavaScript `x || default` idiom on an optional value. */
    function GetOr(default: T): T {
      match this
      case Some(v) => v
      case None => default
    }
  }

  // ---------------------------------------------------------------------------
  // Folds: `reduce((acc, x) => acc + f(x), 0)` and `reduce((acc, x) => acc * f(x), 1)`

  /** Sum of `f` over `s`, accumulated left to right. */
  function SumBy<T>(s: seq<T>, f: T -> real): real
  {
    if s == [] then 0.0 else SumBy(s[..|s| - 1], f) + f(s[|s| - 1])
  }

  lemma {:induction false} SumByConcat<T>(a: seq<T>, b: seq<T>, f: T -> real)
    ensures SumBy(a + b, f) == SumBy(a, f) + SumBy(b, f)
  {
    if b == [] {
      assert a + b == a;
    } else {
      assert (a + b)[..|a + b| - 1] == a + b[..|b| - 1];
      SumByConcat(a, b[..|b| - 1], f);
    }
  }

  /** Removing one element at index `i` takes exactly its term out of the sum. */
  lemma {:induction false} SumBySplit<T>(s: seq<T>, i: nat, f: T -> real)
    requires i < |s|
    ensures SumBy(s, f) == SumBy(s[..i] + s[i + 1..], f) + f(s[i])
  {
    var pre, post := s[..i], s[i + 1..];
    assert s == (pre + [s[i]]) + post;
    assert SumBy([s[i]], f) == f(s[i]) by {
      assert [s[i]][..0] == [];
    }
    SumByConcat(pre + [s[i]], post, f);
    SumByConcat(pre, [s[i]], f);
    SumByConcat(pre, post, f);
  }

  /** The last element of `s` sits at some position `j` of a permutation `t`,
      and what remains of both are permutations of each other. */
  lemma PermutationLast<T>(s: seq<T>, t: seq<T>) returns (j: nat)
    requires |s| > 0 && multiset(s) == multiset(t)
    ensures j < |t| && t[j] == s[|s| - 1]
    ensures multiset(s[..|s| - 1]) == multiset(t[..j] + t[j + 1..])
  {
    var x := s[|s| - 1];
    MultisetRemoveAt(s, |s| - 1);
    assert s[|s| - 1 + 1..] == [];
    assert s[..|s| - 1] + s[|s| - 1 + 1..] == s[..|s| - 1];
    assert x in multiset(t);
    j :| 0 <= j < |t| && t[j] == x;
    MultisetRemoveAt(t, j);
  }

  /** Dropping the element at `j` removes one occurrence of it. */
  lemma MultisetRemoveAt<T>(t: seq<T>, j: nat)
    requires j < |t|
    ensures multiset(t[..j] + t[j + 1..]) == multiset(t) - multiset{t[j]}
  {
    assert t == t[..j] + [t[j]] + t[j + 1..];
    assert multiset(t) == multiset(t[..j]) + multiset{t[j]} + multiset(t[j + 1..]);
  }

  /** A sum does not depend on the order of its terms. */
  lemma {:induction false} SumByPermutation<T>(s: seq<T>, t: seq<T>, f: T -> real)
    requires multiset(s) == multiset(t)
    ensures SumBy(s, f) == SumBy(t, f)
  {
    if s == [] {
      assert |t| == |multiset(t)| == 0;
    } else {
      var j := PermutationLast(s, t);
      SumByPermutation(s[..|s| - 1], t[..j] + t[j + 1..], f);
      SumBySplit(t, j, f);
      assert s[..|s| - 1] + s[|s| - 1 + 1..] == s[..|s| - 1];
      SumBySplit(s, |s| - 1, f);
    }
  }

  /** Sums of two sequences that agree term by term are equal. */
  lemma {:induction false} SumByPointwise<T, U>(s: seq<T>, f: T -> real, t: seq<U>, g: U -> real)
    requires |s| == |t|
    requires forall i :: 0 <= i < |s| ==> f(s[i]) == g(t[i])
    ensures SumBy(s, f) == SumBy(t, g)
  {
    if s != [] {
      SumByPointwise(s[..|s| - 1], f, t[..|t| - 1], g);
    }
  }

  /** Product of `f` over `s`, accumulated left to right from 1. */
  function ProductBy<T>(s: seq<T>, f: T -> real): real
  {
    if s == [] then 1.0 else ProductBy(s[..|s| - 1], f) * f(s[|s| - 1])
  }

  lemma {:induction false} ProductByConcat<T>(a: seq<T>, b: seq<T>, f: T -> real)
    ensures ProductBy(a + b, f) == ProductBy(a, f) * ProductBy(b, f)
  {
    if b == [] {
      assert a + b == a;
    } else {
      var b' := b[..|b| - 1];
      var y := f(b[|b| - 1]);
      assert (a + b)[..|a + b| - 1] == a + b';
      ProductByConcat(a, b', f);
      calc {
        ProductBy(a + b, f);
        ProductBy(a + b', f) * y;
        (ProductBy(a, f) * ProductBy(b', f)) * y;
        ProductBy(a, f) * (ProductBy(b', f) * y);
      }
    }
  }

  /** A product does not depend on the order of its factors. */
  lemma {:induction false} ProductByPermutation<T>(s: seq<T>, t: seq<T>, f: T -> real)
    requires multiset(s) == multiset(t)
    ensures ProductBy(s, f) == ProductBy(t, f)
  {
    if s == [] {
      assert |t| == |multiset(t)| == 0;
    } else {
      var x := s[|s| - 1];
      var j := PermutationLast(s, t);
      var a, b := t[..j], t[j + 1..];
      assert t == a + [x] + b;
      ProductByPermutation(s[..|s| - 1], a + b, f);
      ProductByConcat(a + [x], b, f);
      ProductByConcat(a, [x], f);
      ProductByConcat(a, b, f);
      assert ProductBy([x], f) == f(x) by {
        assert [x][..0] == [];
      }
      assert s == s[..|s| - 1] + [x];
      ProductByConcat(s[..|s| - 1], [x], f);
      MulSwap(ProductBy(a, f), f(x), ProductBy(b, f));
    }
  }

  lemma MulSwap(p: real, q: real, r: real)
    ensures (p * q) * r == (p * r) * q
  {
  }

  /** Products of two sequences that agree factor by factor are equal. */
  lemma {:induction false} ProductByPointwise<T, U>(s: seq<T>, f: T -> real, t: seq<U>, g: U -> real)
    requires |s| == |t|
    requires forall i :: 0 <= i < |s| ==> f(s[i]) == g(t[i])
    ensures ProductBy(s, f) == ProductBy(t, g)
  {
    if s != [] {
      ProductByPointwise(s[..|s| - 1], f, t[..|t| - 1], g);
    }
  }

  /** A product of factors that are all at least 1 (a bound) is at least 1; all
      strictly above 1 and at least one of them gives a product strictly above 1. */
  lemma {:induction false} ProductByAtLeastOne<T>(s: seq<T>, f: T -> real)
    requires forall i :: 0 <= i < |s| ==> f(s[i]) >= 1.0
    ensures ProductBy(s, f) >= 1.0
    ensures (|s| > 0 && forall i :: 0 <= i < |s| ==> f(s[i]) > 1.0) ==> ProductBy(s, f) > 1.0
  {
    if s != [] {
      var p := ProductBy(s[..|s| - 1], f);
      var x := f(s[|s| - 1]);
      ProductByAtLeastOne(s[..|s| - 1], f);
      assert p * x >= 1.0 * x by {
        assert (p - 1.0) * x >= 0.0;
      }
    }
  }

  // ---------------------------------------------------------------------------
  // filter

  /** `s.filter(p)`: the elements of `s` that satisfy `p`, in their order. */
  function Filter<T(!new)>(s: seq<T>, p: T -> bool): (r: seq<T>)
    ensures |r| <= |s|
    ensures forall i :: 0 <= i < |r| ==> p(r[i])
  {
    if s == [] then []
    else
      var last := s[|s| - 1];
      Filter(s[..|s| - 1], p) + (if p(last) then [last] else [])
  }

  /** The sum over the kept elements grows by the last element's term when
      that element is kept. */
  lemma {:induction false} SumByFilterLast<T(!new)>(s: seq<T>, p: T -> bool, f: T -> real)
    requires s != []
    ensures SumBy(Filter(s, p), f)
      == SumBy(Filter(s[..|s| - 1], p), f) + (if p(s[|s| - 1]) then f(s[|s| - 1]) else 0.0)
  {
    var last, kept := s[|s| - 1], Filter(s[..|s| - 1], p);
    if p(last) {
      var r := kept + [last];
      assert Filter(s, p) == r;
      assert r[..|r| - 1] == kept;
    } else {
      assert Filter(s, p) == kept;
    }
  }

  /** `Filter` keeps exactly the elements that satisfy `p`. */
  lemma {:induction false} FilterMembers<T(!new)>(s: seq<T>, p: T -> bool)
    ensures forall x :: x in Filter(s, p) <==> x in s && p(x)
  {
    if s != [] {
      FilterMembers(s[..|s| - 1], p);
      assert s == s[..|s| - 1] + [s[|s| - 1]];
    }
  }

  /** `Filter` keeps every copy of an element that satisfies `p` and no copy of
      one that does not. */
  lemma {:induction false} FilterCount<T(!new)>(s: seq<T>, p: T -> bool, x: T)
    ensures multiset(Filter(s, p))[x] == if p(x) then multiset(s)[x] else 0
  {
    if s != [] {
      var init, last := s[..|s| - 1], s[|s| - 1];
      FilterCount(init, p, x);
      assert s == init + [last];
      assert Filter(s, p) == Filter(init, p) + (if p(last) then [last] else []);
    }
  }

  /** `Filter` keeps the whole sequence exactly when every element satisfies `p`. */
  lemma {:induction false} FilterKeepsAll<T(!new)>(s: seq<T>, p: T -> bool)
    ensures |Filter(s, p)| == |s| <==> forall i :: 0 <= i < |s| ==> p(s[i])
  {
    if s != [] {
      var init, last := s[..|s| - 1], s[|s| - 1];
      FilterKeepsAll(init, p);
      assert Filter(s, p) == Filter(init, p) + (if p(last) then [last] else []);
      assert (forall i :: 0 <= i < |s| ==> p(s[i])) <==> (forall i :: 0 <= i < |init| ==> p(init[i])) && p(last) by {
        assert forall i :: 0 <= i < |init| ==> init[i] == s[i];
      }
    }
  }

  lemma {:induction false} FilterConcat<T(!new)>(a: seq<T>, b: seq<T>, p: T -> bool)
    ensures Filter(a + b, p) == Filter(a, p) + Filter(b, p)
  {
    if b == [] {
      assert a + b == a;
    } else {
      assert (a + b)[..|a + b| - 1] == a + b[..|b| - 1];
      FilterConcat(a, b[..|b| - 1], p);
    }
  }

  // ---------------------------------------------------------------------------
  // Lookup, replacement and removal by a string id

  /** The position of the first element whose key is `k` (`findIndex`). */
  function FindIndex<T>(s: seq<T>, key: T -> string, k: string): (r: Option<nat>)
    ensures r.Some? ==> r.value < |s| && key(s[r.value]) == k
    ensures r.Some? ==> forall j :: 0 <= j < r.value ==> key(s[j]) != k
    ensures r.None? <==> forall j :: 0 <= j < |s| ==> key(s[j]) != k
  {
    if s == [] then None
    else if key(s[0]) == k then Some(0)
    else match FindIndex(s[1..], key, k)
      case None => None
      case Some(i) => Some(i + 1)
  }

  /** `s.find(x => key(x) === k)`: the first element with key `k`, if any. */
  function Find<T>(s: seq<T>, key: T -> string, k: string): (r: Option<T>)
    ensures r.Some? <==> HasKey(s, key, k)
    ensures r.Some? ==> r.value in s && key(r.value) == k
  {
    match FindIndex(s, key, k)
    case None => None
    case Some(i) => Some(s[i])
  }

  /** `s.some(x => key(x) === k)`. */
  predicate HasKey<T>(s: seq<T>, key: T -> string, k: string)
  {
    exists i :: 0 <= i < |s| && key(s[i]) == k
  }

  /** No two elements share a key. */
  ghost predicate UniqueBy<T>(s: seq<T>, key: T -> string)
  {
    forall i, j :: 0 <= i < |s| && 0 <= j < |s| && key(s[i]) == key(s[j]) ==> i == j
  }

  /** `s.map(x => key(x) === k ? y : x)`: every element with key `k` becomes `y`. */
  function ReplaceKey<T>(s: seq<T>, key: T -> string, k: string, y: T): (r: seq<T>)
    ensures |r| == |s|
    ensures forall i :: 0 <= i < |s| && key(s[i]) == k ==> r[i] == y
    ensures forall i :: 0 <= i < |s| && key(s[i]) != k ==> r[i] == s[i]
  {
    if s == [] then []
    else [if key(s[0]) == k then y else s[0]] + ReplaceKey(s[1..], key, k, y)
  }

  /** `s.filter(x => key(x) !== k)`: every element with key `k` is dropped. */
  function RemoveKey<T(!new)>(s: seq<T>, key: T -> string, k: string): (r: seq<T>)
    ensures forall i :: 0 <= i < |r| ==> key(r[i]) != k
    ensures !HasKey(s, key, k) ==> r == s
  {
    if s == [] then []
    else (if key(s[0]) == k then [] else [s[0]]) + RemoveKey(s[1..], key, k)
  }

  /** `RemoveKey` keeps exactly the elements whose key differs from `k`. */
  lemma {:induction false} RemoveKeyMembers<T(!new)>(s: seq<T>, key: T -> string, k: string)
    ensures forall x :: x in RemoveKey(s, key, k) <==> x in s && key(x) != k
  {
    if s != [] {
      RemoveKeyMembers(s[1..], key, k);
      assert s == [s[0]] + s[1..];
    }
  }

  lemma {:induction false} RemoveKeyConcat<T(!new)>(a: seq<T>, b: seq<T>, key: T -> string, k: string)
    ensures RemoveKey(a + b, key, k) == RemoveKey(a, key, k) + RemoveKey(b, key, k)
  {
    if a != [] {
      var head := if key(a[0]) == k then [] else [a[0]];
      assert (a + b)[0] == a[0] && (a + b)[1..] == a[1..] + b;
      calc {
        RemoveKey(a + b, key, k);
        head + RemoveKey(a[1..] + b, key, k);
        { RemoveKeyConcat(a[1..], b, key, k); }
        head + (RemoveKey(a[1..], key, k) + RemoveKey(b, key, k));
        (head + RemoveKey(a[1..], key, k)) + RemoveKey(b, key, k);
        RemoveKey(a, key, k) + RemoveKey(b, key, k);
      }
    } else {
      assert a + b == b;
    }
  }

  /** With unique keys, removing key `key(s[i])` removes exactly position `i`. */
  lemma {:induction false} RemoveKeyUnique<T(!new)>(s: seq<T>, key: T -> string, i: nat)
    requires UniqueBy(s, key) && i < |s|
    ensures RemoveKey(s, key, key(s[i])) == s[..i] + s[i + 1..]
  {
    var k, tail := key(s[i]), s[1..];
    assert RemoveKey(s, key, k) == (if key(s[0]) == k then [] else [s[0]]) + RemoveKey(tail, key, k);
    UniqueByTail(s, key);
    if i == 0 {
      assert RemoveKey(tail, key, k) == tail;
    } else {
      assert key(s[0]) != k;
      assert tail[i - 1] == s[i];
      RemoveKeyUnique(tail, key, i - 1);
      assert s[..i] == [s[0]] + tail[..i - 1];
      assert s[i + 1..] == tail[i..];
    }
  }

  /** The tail of a list with unique keys has unique keys, none of them the
      head's. */
  lemma UniqueByTail<T>(s: seq<T>, key: T -> string)
    requires UniqueBy(s, key) && |s| > 0
    ensures UniqueBy(s[1..], key) && !HasKey(s[1..], key, key(s[0]))
  {
    var tail := s[1..];
    forall j | 0 <= j < |tail| ensures key(tail[j]) != key(s[0]) {
      assert tail[j] == s[j + 1];
    }
    forall p, q | 0 <= p < |tail| && 0 <= q < |tail| && key(tail[p]) == key(tail[q]) ensures p == q {
      assert tail[p] == s[p + 1] && tail[q] == s[q + 1];
    }
  }

  /** With unique keys, replacing key `key(s[i])` by an element carrying the
      same key rewrites exactly position `i`. */
  lemma ReplaceKeyUnique<T>(s: seq<T>, key: T -> string, i: nat, y: T)
    requires UniqueBy(s, key) && i < |s|
    ensures ReplaceKey(s, key, key(s[i]), y) == s[i := y]
  {
    var r := ReplaceKey(s, key, key(s[i]), y);
    forall j | 0 <= j < |s| ensures r[j] == s[i := y][j] {
      if j != i {
        assert key(s[j]) != key(s[i]);
      }
    }
  }

  lemma SumByUpdate<T>(s: seq<T>, i: nat, y: T, f: T -> real)
    requires i < |s|
    ensures SumBy(s[i := y], f) == SumBy(s, f) - f(s[i]) + f(y)
  {
    SumBySplit(s, i, f);
    SumBySplit(s[i := y], i, f);
    assert s[i := y][..i] + s[i := y][i + 1..] == s[..i] + s[i + 1..];
  }

  lemma UniqueByRemove<T>(s: seq<T>, key: T -> string, i: nat)
    requires UniqueBy(s, key) && i < |s|
    ensures UniqueBy(s[..i] + s[i + 1..], key)
  {
    var r := s[..i] + s[i + 1..];
    forall a, b | 0 <= a < |r| && 0 <= b < |r| && key(r[a]) == key(r[b]) ensures a == b {
      var a' := if a < i then a else a + 1;
      var b' := if b < i then b else b + 1;
      assert r[a] == s[a'] && r[b] == s[b'];
    }
  }

  lemma UniqueByUpdate<T>(s: seq<T>, key: T -> string, i: nat, y: T)
    requires UniqueBy(s, key) && i < |s| && key(y) == key(s[i])
    ensures UniqueBy(s[i := y], key)
  {
    var r := s[i := y];
    forall a, b | 0 <= a < |r| && 0 <= b < |r| && key(r[a]) == key(r[b]) ensures a == b {
      assert key(r[a]) == key(s[a]) && key(r[b]) == key(s[b]);
    }
  }

  lemma UniqueByPrepend<T>(x: T, s: seq<T>, key: T -> string)
    requires UniqueBy(s, key) && !HasKey(s, key, key(x))
    ensures UniqueBy([x] + s, key)
  {
    var r := [x] + s;
    forall a, b | 0 <= a < |r| && 0 <= b < |r| && key(r[a]) == key(r[b]) ensures a == b {
      if a > 0 && b > 0 {
        assert r[a] == s[a - 1] && r[b] == s[b - 1];
      }
    }
  }

  /** A sequence with unique keys holds each value at most once. */
  lemma {:induction false} UniqueByCount<T>(s: seq<T>, key: T -> string, v: T)
    requires UniqueBy(s, key)
    ensures multiset(s)[v] <= 1
  {
    if s != [] {
      var p := s[..|s| - 1];
      assert s == p + [s[|s| - 1]];
      UniqueByRemove(s, key, |s| - 1);
      assert p == s[..|s| - 1] + s[|s| - 1 + 1..];
      UniqueByCount(p, key, v);
      if v == s[|s| - 1] {
        assert v !in p by {
          forall j | 0 <= j < |p| ensures p[j] != v {
            assert key(s[j]) != key(s[|s| - 1]);
          }
        }
      }
    }
  }

  /** Two distinct positions holding the same value count twice. */
  lemma DuplicateCount<T>(t: seq<T>, a: int, b: int)
    ensures 0 <= a < |t| && 0 <= b < |t| && a != b && t[a] == t[b] ==> multiset(t)[t[a]] >= 2
  {
    if 0 <= a < |t| && 0 <= b < |t| && a != b && t[a] == t[b] {
      var lo, hi := if a < b then a else b, if a < b then b else a;
      var x := t[a];
      assert t == t[..hi] + t[hi..];
      assert multiset(t)[x] == multiset(t[..hi])[x] + multiset(t[hi..])[x];
      assert t[..hi][lo] == x && t[hi..][0] == x;
      assert x in multiset(t[..hi]) && x in multiset(t[hi..]);
    }
  }

  /** Unique keys survive any reordering (the sorts of the source). */
  lemma UniqueByPermutation<T>(s: seq<T>, t: seq<T>, key: T -> string)
    requires multiset(s) == multiset(t) && UniqueBy(s, key)
    ensures UniqueBy(t, key)
  {
    forall a, b | 0 <= a < |t| && 0 <= b < |t| && key(t[a]) == key(t[b]) ensures a == b {
      assert t[a] in multiset(s) && t[b] in multiset(s);
      DuplicateCount(t, a, b);
      UniqueByCount(s, key, t[a]);
      var i :| 0 <= i < |s| && s[i] == t[a];
      var j :| 0 <= j < |s| && s[j] == t[b];
    }
  }

  // ---------------------------------------------------------------------------
  // Array.prototype.reverse and de-duplication through a Set

  /** `s.map(f)`. */
  function Map<T, U>(s: seq<T>, f: T -> U): (r: seq<U>)
    ensures |r| == |s|
    ensures forall i :: 0 <= i < |s| ==> r[i] == f(s[i])
  {
    if s == [] then [] else Map(s[..|s| - 1], f) + [f(s[|s| - 1])]
  }

  /** Summing `g` over the image of `s` under `f` sums `g . f` over `s`. */
  lemma {:induction false} SumByMap<T, U>(s: seq<T>, f: T -> U, g: U -> real, h: T -> real)
    requires forall x :: h(x) == g(f(x))
    ensures SumBy(Map(s, f), g) == SumBy(s, h)
  {
    if s != [] {
      var m := Map(s, f);
      assert m[..|s| - 1] == Map(s[..|s| - 1], f);
      SumByMap(s[..|s| - 1], f, g, h);
    }
  }

  /** `s.reverse()`. */
  function Reverse<T>(s: seq<T>): (r: seq<T>)
    ensures |r| == |s|
    ensures forall k :: 0 <= k < |s| ==> r[k] == s[|s| - 1 - k]
  {
    if s == [] then [] else Reverse(s[1..]) + [s[0]]
  }

  /** `Array.from(new Set(s))`: each value once, at its first appearance. */
  function Distinct<T(==,!new)>(s: seq<T>): (r: seq<T>)
    ensures forall i, j :: 0 <= i < j < |r| ==> r[i] != r[j]
    ensures forall x :: x in r <==> x in s
  {
    if s == [] then []
    else
      var d := Distinct(s[..|s| - 1]);
      assert forall x :: x in s <==> x in s[..|s| - 1] || x == s[|s| - 1] by {
        assert s == s[..|s| - 1] + [s[|s| - 1]];
      }
      if s[|s| - 1] in d then d else d + [s[|s| - 1]]
  }

  /** The position of the first occurrence of `x` in `s`. */
  function FirstIndexOf<T(==)>(s: seq<T>, x: T): (r: nat)
    requires x in s
    ensures r < |s| && s[r] == x && forall j :: 0 <= j < r ==> s[j] != x
  {
    if s[0] == x then 0 else 1 + FirstIndexOf(s[1..], x)
  }

  /** A first occurrence is unaffected by appending. */
  lemma FirstIndexOfExtend<T>(s: seq<T>, y: T, x: T)
    requires x in s
    ensures FirstIndexOf(s + [y], x) == FirstIndexOf(s, x)
  {
    var k := FirstIndexOf(s, x);
    assert (s + [y])[k] == x;
  }

  /** `Distinct` lists the values in the order of their first occurrence. */
  lemma {:induction false} DistinctFirstAppearance<T(!new)>(s: seq<T>)
    ensures forall i, j :: 0 <= i < j < |Distinct(s)| ==>
      FirstIndexOf(s, Distinct(s)[i]) < FirstIndexOf(s, Distinct(s)[j])
  {
    if s != [] {
      var init, last := s[..|s| - 1], s[|s| - 1];
      var d := Distinct(init);
      DistinctFirstAppearance(init);
      assert s == init + [last];
      forall x | x in init ensures FirstIndexOf(s, x) == FirstIndexOf(init, x) {
        FirstIndexOfExtend(init, last, x);
      }
      if last !in d {
        assert Distinct(s) == d + [last];
        assert FirstIndexOf(s, last) == |init|;
      }
    }
  }
}
