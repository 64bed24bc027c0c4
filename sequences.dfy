/** Array helpers for the JavaScript array operations the server uses:
    `filter`, `slice`, `reverse`, and the order-preserving subsequence
    relation their results stand in. */
module Sequences {

  /** `xs.filter(p)` */
  function Filter<T>(xs: seq<T>, p: T -> bool): (r: seq<T>)
    ensures |r| <= |xs|
    ensures forall i :: 0 <= i < |r| ==> p(r[i])
    decreases |xs|
  {
    if xs == [] then [] else (if p(xs[0]) then [xs[0]] else []) + Filter(xs[1..], p)
  }

  /** An element survives the filter exactly when it was there and passes it. */
  lemma {:induction false} FilterMembership<T>(xs: seq<T>, p: T -> bool, x: T)
    ensures x in Filter(xs, p) <==> x in xs && p(x)
    decreases |xs|
  {
    if xs != [] {
      FilterMembership(xs[1..], p, x);
      assert xs == [xs[0]] + xs[1..];
    }
  }

  /** Filtering distributes over concatenation. */
  lemma {:induction false} FilterAppend<T>(a: seq<T>, b: seq<T>, p: T -> bool)
    ensures Filter(a + b, p) == Filter(a, p) + Filter(b, p)
    decreases |a|
  {
    if a == [] {
      assert a + b == b;
    } else {
      assert (a + b)[0] == a[0];
      assert (a + b)[1..] == a[1..] + b;
      FilterAppend(a[1..], b, p);
    }
  }

  /** Filtering something every element of which passes leaves it as it is. */
  lemma {:induction false} FilterKeepsAll<T>(xs: seq<T>, p: T -> bool)
    requires forall i :: 0 <= i < |xs| ==> p(xs[i])
    ensures Filter(xs, p) == xs
    decreases |xs|
  {
    if xs != [] {
      FilterKeepsAll(xs[1..], p);
    }
  }

  /** Filtering something no element of which passes leaves nothing. */
  lemma {:induction false} FilterDropsAll<T>(xs: seq<T>, p: T -> bool)
    requires forall i :: 0 <= i < |xs| ==> !p(xs[i])
    ensures Filter(xs, p) == []
    decreases |xs|
  {
    if xs != [] {
      FilterDropsAll(xs[1..], p);
    }
  }

  /** The filter keeps every element exactly when every element passes it. */
  lemma {:induction false} FilterFullLength<T>(xs: seq<T>, p: T -> bool)
    ensures |Filter(xs, p)| == |xs| <==> forall i :: 0 <= i < |xs| ==> p(xs[i])
    decreases |xs|
  {
    if xs != [] {
      FilterFullLength(xs[1..], p);
      if |Filter(xs, p)| == |xs| {
        assert p(xs[0]);
        forall i | 0 <= i < |xs|
          ensures p(xs[i])
        {
          if i > 0 {
            assert xs[i] == xs[1..][i - 1];
          }
        }
      }
    }
  }

  /** No element occurs twice. */
  predicate Distinct<T(==)>(xs: seq<T>) {
    forall i, j :: 0 <= i < j < |xs| ==> xs[i] != xs[j]
  }

  /** Filtering keeps the elements distinct. */
  lemma {:induction false} FilterDistinct<T>(xs: seq<T>, p: T -> bool)
    requires Distinct(xs)
    ensures Distinct(Filter(xs, p))
    decreases |xs|
  {
    if xs != [] {
      var rest := Filter(xs[1..], p);
      FilterDistinct(xs[1..], p);
      FilterMembership(xs[1..], p, xs[0]);
      assert xs[0] !in xs[1..] by {
        forall j | 0 <= j < |xs[1..]|
          ensures xs[1..][j] != xs[0]
        {
          assert xs[1..][j] == xs[j + 1];
        }
      }
      if p(xs[0]) {
        var r := [xs[0]] + rest;
        assert Filter(xs, p) == r;
        forall i, j | 0 <= i < j < |r|
          ensures r[i] != r[j]
        {
          if i == 0 {
            assert r[j] == rest[j - 1];
          } else {
            assert r[i] == rest[i - 1] && r[j] == rest[j - 1];
          }
        }
      }
    }
  }

  /** `xs` is `ys` with some elements left out, the others kept in order. */
  predicate SubsequenceOf<T(==)>(xs: seq<T>, ys: seq<T>)
    decreases |ys|
  {
    if xs == [] then true
    else if ys == [] then false
    else (xs[0] == ys[0] && SubsequenceOf(xs[1..], ys[1..])) || SubsequenceOf(xs, ys[1..])
  }

  lemma {:induction false} SubsequenceReflexive<T>(xs: seq<T>)
    ensures SubsequenceOf(xs, xs)
    decreases |xs|
  {
    if xs != [] {
      SubsequenceReflexive(xs[1..]);
    }
  }

  lemma {:induction false} SubsequenceTransitive<T>(xs: seq<T>, ys: seq<T>, zs: seq<T>)
    requires SubsequenceOf(xs, ys) && SubsequenceOf(ys, zs)
    ensures SubsequenceOf(xs, zs)
    decreases |zs|
  {
    if xs != [] && zs != [] {
      if SubsequenceOf(ys, zs[1..]) {
        SubsequenceTransitive(xs, ys, zs[1..]);
      } else if xs[0] == ys[0] && SubsequenceOf(xs[1..], ys[1..]) {
        SubsequenceTransitive(xs[1..], ys[1..], zs[1..]);
      } else {
        SubsequenceTransitive(xs, ys[1..], zs[1..]);
      }
    }
  }

  /** A suffix keeps the order of what it was cut from. */
  lemma {:induction false} SuffixIsSubsequence<T>(xs: seq<T>, k: nat)
    requires k <= |xs|
    ensures SubsequenceOf(xs[k..], xs)
    decreases k
  {
    if k == 0 {
      assert xs[0..] == xs;
      SubsequenceReflexive(xs);
    } else {
      SuffixIsSubsequence(xs[1..], k - 1);
      assert xs[1..][k - 1..] == xs[k..];
    }
  }

  /** The filter keeps the order of its input. */
  lemma {:induction false} FilterIsSubsequence<T>(xs: seq<T>, p: T -> bool)
    ensures SubsequenceOf(Filter(xs, p), xs)
    decreases |xs|
  {
    if xs != [] {
      FilterIsSubsequence(xs[1..], p);
      var r := Filter(xs, p);
      if p(xs[0]) {
        assert r == [xs[0]] + Filter(xs[1..], p);
        assert r[0] == xs[0] && r[1..] == Filter(xs[1..], p);
      } else {
        assert r == Filter(xs[1..], p);
      }
    }
  }

  /** The last `n` elements of `xs` (all of them when there are fewer). */
  function Last<T>(xs: seq<T>, n: nat): (r: seq<T>)
    ensures |r| == if n < |xs| then n else |xs|
    ensures forall i :: 0 <= i < |r| ==> r[i] == xs[|xs| - |r| + i]
  {
    if n < |xs| then xs[|xs| - n..] else xs
  }

  /** `xs.slice(start)`: a negative start counts from the end, and either
      kind of start is clamped into the array. */
  function JsSlice<T>(xs: seq<T>, start: int): seq<T> {
    var from := if start < 0 then (if |xs| + start < 0 then 0 else |xs| + start)
                else (if start > |xs| then |xs| else start);
    xs[from..]
  }

  /** `xs.reverse()` on a copy. */
  function Reverse<T>(xs: seq<T>): (r: seq<T>)
    ensures |r| == |xs|
    ensures forall i :: 0 <= i < |xs| ==> r[i] == xs[|xs| - 1 - i]
    decreases |xs|
  {
    if xs == [] then [] else Reverse(xs[1..]) + [xs[0]]
  }

  /** Overwriting the last element of `h + [x]` with `y` gives `h + [y]`. */
  lemma ReplaceLast<T>(h: seq<T>, x: T, y: T)
    ensures (h + [x])[|h| := y] == h + [y]
  {
  }
}
