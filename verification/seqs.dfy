/** The array operations the source leans on (`Array.prototype.filter` and
    `some`, counting by key) with the facts the rest of the model needs:
    a filter keeps exactly the matching elements, in their original order. */
module Seqs {

  /** `xs` is an order-preserving sub-list of `ys`: `ys` with some elements dropped. */
  ghost predicate Sublist<T>(xs: seq<T>, ys: seq<T>)
    decreases |ys|
  {
    if xs == [] then true
    else if ys == [] then false
    else (xs[0] == ys[0] && Sublist(xs[1..], ys[1..])) || Sublist(xs, ys[1..])
  }

  /** `s.filter(f)`. */
  function Filter<T>(s: seq<T>, f: T -> bool): (r: seq<T>)
    ensures |r| <= |s|
    ensures forall x :: x in r ==> x in s && f(x)
    ensures forall x :: x in s && f(x) ==> x in r
  {
    if s == [] then [] else (if f(s[0]) then [s[0]] else []) + Filter(s[1..], f)
  }

  /** A filter keeps every accepted element as often as it occurs, and no other. */
  lemma {:induction false} FilterCount<T>(s: seq<T>, f: T -> bool)
    ensures forall x :: multiset(Filter(s, f))[x] == (if f(x) then multiset(s)[x] else 0)
  {
    if s != [] {
      FilterCount(s[1..], f);
      assert s == [s[0]] + s[1..];
      assert Filter(s, f) == (if f(s[0]) then [s[0]] else []) + Filter(s[1..], f);
    }
  }

  lemma {:induction false} SublistOfTail<T>(xs: seq<T>, ys: seq<T>, y: T)
    requires Sublist(xs, ys)
    ensures Sublist(xs, [y] + ys)
  {
    if xs != [] {
      assert ([y] + ys)[1..] == ys;
    }
  }

  lemma {:induction false} SublistRefl<T>(s: seq<T>)
    ensures Sublist(s, s)
  {
    if s != [] {
      SublistRefl(s[1..]);
    }
  }

  /** The result of a filter is an order-preserving sub-list of its input. */
  lemma {:induction false} FilterIsSublist<T>(s: seq<T>, f: T -> bool)
    ensures Sublist(Filter(s, f), s)
  {
    if s != [] {
      FilterIsSublist(s[1..], f);
      var rest := Filter(s[1..], f);
      if f(s[0]) {
        assert Filter(s, f) == [s[0]] + rest;
        assert ([s[0]] + rest)[1..] == rest;
      } else {
        assert Filter(s, f) == rest;
        SublistOfTail(rest, s[1..], s[0]);
        assert [s[0]] + s[1..] == s;
      }
    }
  }

  /** A filter whose predicate holds everywhere changes nothing. */
  lemma {:induction false} FilterAll<T>(s: seq<T>, f: T -> bool)
    requires forall x :: x in s ==> f(x)
    ensures Filter(s, f) == s
  {
    if s != [] {
      FilterAll(s[1..], f);
    }
  }

  /** A filter whose predicate holds nowhere keeps nothing. */
  lemma {:induction false} FilterNone<T>(s: seq<T>, f: T -> bool)
    requires forall i :: 0 <= i < |s| ==> !f(s[i])
    ensures Filter(s, f) == []
  {
    if s != [] {
      FilterNone(s[1..], f);
    }
  }

  /** Filters by two predicates that agree everywhere give the same list. */
  lemma {:induction false} FilterSame<T>(s: seq<T>, f: T -> bool, g: T -> bool)
    requires forall x :: f(x) == g(x)
    ensures Filter(s, f) == Filter(s, g)
  {
    if s != [] {
      FilterSame(s[1..], f, g);
    }
  }

  /** Filtering distributes over concatenation: it keeps elements in place. */
  lemma {:induction false} FilterAppend<T>(a: seq<T>, b: seq<T>, f: T -> bool)
    ensures Filter(a + b, f) == Filter(a, f) + Filter(b, f)
  {
    if a != [] {
      assert (a + b)[0] == a[0] && (a + b)[1..] == a[1..] + b;
      FilterAppend(a[1..], b, f);
      var head := if f(a[0]) then [a[0]] else [];
      calc {
        Filter(a + b, f);
        head + Filter(a[1..] + b, f);
        head + (Filter(a[1..], f) + Filter(b, f));
        (head + Filter(a[1..], f)) + Filter(b, f);
      }
    } else {
      assert a + b == b;
    }
  }

  /** `s.some(f)`. */
  function Any<T>(s: seq<T>, f: T -> bool): (r: bool)
    ensures r <==> exists i :: 0 <= i < |s| && f(s[i])
  {
    if s == [] then false
    else f(s[0]) || Any(s[1..], f)
  }

  /** The number of elements of `s` that `f` accepts: `s.filter(f).length`. */
  function CountIf<T>(s: seq<T>, f: T -> bool): (n: nat)
    ensures n <= |s|
    ensures n == |Filter(s, f)|
    ensures n > 0 <==> Any(s, f)
  {
    if s == [] then 0 else (if f(s[0]) then 1 else 0) + CountIf(s[1..], f)
  }

  /** Every non-empty set of naturals has a least element. */
  lemma {:induction false} HasLeast(keys: set<nat>)
    requires keys != {}
    ensures exists m :: m in keys && forall k :: k in keys ==> m <= k
  {
    var w :| w in keys;
    LeastFrom(keys, 0, w);
  }

  /** Counting up from a lower bound `n` of the set reaches its least element
      no later than the element `w`. */
  lemma {:induction false} LeastFrom(keys: set<nat>, n: nat, w: nat)
    requires w in keys && n <= w
    requires forall k :: k in keys ==> n <= k
    ensures exists m :: m in keys && forall k :: k in keys ==> m <= k
    decreases w - n
  {
    if n !in keys {
      LeastFrom(keys, n + 1, w);
    }
  }

  /** The least element of a non-empty set of naturals. */
  function Least(keys: set<nat>): (m: nat)
    requires keys != {}
    ensures m in keys && forall k :: k in keys ==> m <= k
  {
    HasLeast(keys);
    var m :| m in keys && forall k :: k in keys ==> m <= k;
    m
  }

  /** The order in which `Object.keys`, `Object.entries` and `Object.values`
      list the integer-like keys of a JavaScript object: ascending. */
  function AscendingKeys(keys: set<nat>): (ks: seq<nat>)
    ensures forall k :: k in keys <==> k in ks
    ensures forall i, j :: 0 <= i < j < |ks| ==> ks[i] < ks[j]
    decreases |keys|
  {
    if keys == {} then []
    else
      var m := Least(keys);
      [m] + AscendingKeys(keys - {m})
  }

  /** Each key is listed once: there are as many entries as keys. */
  lemma {:induction false} AscendingKeysCount(keys: set<nat>)
    ensures |AscendingKeys(keys)| == |keys|
    decreases |keys|
  {
    if keys != {} {
      AscendingKeysCount(keys - {Least(keys)});
    }
  }
}
