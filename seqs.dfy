/**
 * `Array.prototype.filter` and the order facts about it that the catalog page
 * and the editor's delete handlers rely on.
 */
module Seqs {

  /** `s.filter(keep)`: the elements satisfying `keep`, in their original order. */
  function Filter<T>(s: seq<T>, keep: T -> bool): (r: seq<T>)
    ensures |r| <= |s|
    ensures forall x :: x in r ==> x in s && keep(x)
  {
    if s == [] then [] else (if keep(s[0]) then [s[0]] else []) + Filter(s[1..], keep)
  }

  /** `s.map(f)`. */
  function Map<T, U>(s: seq<T>, f: T -> U): (r: seq<U>)
    ensures |r| == |s|
  {
    if s == [] then [] else Map(s[..|s| - 1], f) + [f(s[|s| - 1])]
  }

  /** Element `j` of the image is the image of element `j`. */
  lemma {:induction false} MapAt<T, U>(s: seq<T>, f: T -> U, j: nat)
    requires j < |s|
    ensures Map(s, f)[j] == f(s[j])
    decreases |s|
  {
    if j < |s| - 1 {
      MapAt(s[..|s| - 1], f, j);
    }
  }

  /** The images of the elements under `f`, concatenated in order (`flatMap`). */
  function FlatMap<T, U>(s: seq<T>, f: T -> seq<U>): seq<U> {
    if s == [] then [] else FlatMap(s[..|s| - 1], f) + f(s[|s| - 1])
  }

  /** Extending the list by one element appends that element's image. */
  lemma {:induction false} FlatMapSnoc<T, U>(s: seq<T>, j: nat, f: T -> seq<U>)
    requires j < |s|
    ensures FlatMap(s[..j + 1], f) == FlatMap(s[..j], f) + f(s[j])
  {
    assert s[..j + 1][..j] == s[..j];
  }

  /** The image of a concatenation is the concatenation of the images. */
  lemma {:induction false} FlatMapAppend<T, U>(a: seq<T>, b: seq<T>, f: T -> seq<U>)
    ensures FlatMap(a + b, f) == FlatMap(a, f) + FlatMap(b, f)
    decreases |b|
  {
    if b == [] {
      assert a + b == a;
    } else {
      var b' := b[..|b| - 1];
      assert (a + b)[..|a + b| - 1] == a + b';
      assert (a + b)[|a + b| - 1] == b[|b| - 1];
      FlatMapAppend(a, b', f);
      AppendAssoc(FlatMap(a, f), FlatMap(b', f), f(b[|b| - 1]));
    }
  }

  /** The image splits around element `i`. */
  lemma {:induction false} FlatMapSplit<T, U>(s: seq<T>, f: T -> seq<U>, i: nat)
    requires i < |s|
    ensures FlatMap(s, f) == (FlatMap(s[..i], f) + f(s[i])) + FlatMap(s[i + 1..], f)
  {
    assert s == s[..i + 1] + s[i + 1..];
    FlatMapAppend(s[..i + 1], s[i + 1..], f);
    FlatMapSnoc(s, i, f);
  }

  /** `block` occurs in `lines` starting at position `start`. */
  ghost predicate Placed<U>(lines: seq<U>, start: nat, block: seq<U>) {
    start + |block| <= |lines| && forall k :: 0 <= k < |block| ==> lines[start + k] == block[k]
  }

  /** After a head, element `i`'s image (`block`) sits in the whole (`lines`) right after
      the head and the image of the elements before it (at `start`). */
  lemma {:induction false} FlatMapAt<T, U>(head: seq<U>, s: seq<T>, f: T -> seq<U>, i: nat,
                                           lines: seq<U>, start: nat, block: seq<U>)
    requires i < |s|
    requires lines == head + FlatMap(s, f) && start == |head| + |FlatMap(s[..i], f)| && block == f(s[i])
    ensures Placed(lines, start, block)
  {
    FlatMapSplit(s, f, i);
    ConcatAt(head, FlatMap(s[..i], f), f(s[i]), FlatMap(s[i + 1..], f));
  }

  /** Concatenation is associative. */
  lemma AppendAssoc<T>(a: seq<T>, b: seq<T>, c: seq<T>)
    ensures (a + b) + c == a + (b + c)
  {
  }

  /** Where the parts of a block `[first] + middle + rest + [last]` sit. */
  lemma {:induction false} BlockAt<T>(first: T, middle: seq<T>, rest: seq<T>, last: T)
    ensures var block := [first] + middle + rest + [last];
      && |block| == 2 + |middle| + |rest|
      && block[0] == first
      && (forall k :: 0 <= k < |middle| ==> block[1 + k] == middle[k])
      && (forall k :: 0 <= k < |rest| ==> block[1 + |middle| + k] == rest[k])
      && block[1 + |middle| + |rest|] == last
  {
    var block := [first] + middle + rest + [last];
    forall k | 0 <= k < |rest| ensures block[1 + |middle| + k] == rest[k] {
      assert (([first] + middle) + rest)[1 + |middle| + k] == rest[k];
    }
  }

  /** `x` is the element at position `k` of `s`. */
  ghost predicate At<T>(s: seq<T>, k: int, x: T) {
    0 <= k < |s| && s[k] == x
  }

  /** Where the parts of a placed block `[first] + middle + rest + [last]` sit in `lines`. */
  lemma {:induction false} PlacedBlockAt<T>(lines: seq<T>, start: nat, first: T, middle: seq<T>, rest: seq<T>, last: T)
    requires Placed(lines, start, [first] + middle + rest + [last])
    ensures start + 2 + |middle| + |rest| <= |lines|
    ensures At(lines, start, first)
    ensures forall k :: 0 <= k < |middle| ==> At(lines, start + 1 + k, middle[k])
    ensures Placed(lines, start + 1 + |middle|, rest)
    ensures At(lines, start + 1 + |middle| + |rest|, last)
  {
    var block := [first] + middle + rest + [last];
    BlockAt(first, middle, rest, last);
    assert lines[start + 0] == block[0];
    forall k | 0 <= k < |middle| ensures At(lines, start + 1 + k, middle[k]) {
      assert lines[start + (1 + k)] == block[1 + k];
    }
    forall k | 0 <= k < |rest| ensures lines[start + 1 + |middle| + k] == rest[k] {
      assert lines[start + (1 + |middle| + k)] == block[1 + |middle| + k];
    }
    assert lines[start + (1 + |middle| + |rest|)] == block[1 + |middle| + |rest|];
  }

  /** Where a block sits when it follows a head and a prefix and precedes a suffix. */
  lemma {:induction false} ConcatAt<T>(head: seq<T>, p: seq<T>, block: seq<T>, q: seq<T>)
    ensures |head + ((p + block) + q)| == |head| + |p| + |block| + |q|
    ensures forall k :: 0 <= k < |block| ==> (head + ((p + block) + q))[|head| + |p| + k] == block[k]
  {
  }

  /** Mapping one more element appends its image. */
  lemma {:induction false} MapSnoc<T, U>(s: seq<T>, j: nat, f: T -> U)
    requires j < |s|
    ensures Map(s[..j + 1], f) == Map(s[..j], f) + [f(s[j])]
  {
    assert s[..j + 1][..j] == s[..j];
  }

  /** `a` is `b` with some elements left out, the rest kept in order. */
  predicate IsSubsequence<T(==)>(a: seq<T>, b: seq<T>)
    decreases |b|
  {
    if a == [] then true
    else if b == [] then false
    else (a[0] == b[0] && IsSubsequence(a[1..], b[1..])) || IsSubsequence(a, b[1..])
  }

  /** Filtering drops elements and never reorders the rest. */
  lemma {:induction false} FilterIsSubsequence<T>(s: seq<T>, keep: T -> bool)
    ensures IsSubsequence(Filter(s, keep), s)
  {
    if s != [] {
      var rest := Filter(s[1..], keep);
      FilterIsSubsequence(s[1..], keep);
      if keep(s[0]) {
        assert Filter(s, keep) == [s[0]] + rest && ([s[0]] + rest)[1..] == rest;
      } else {
        assert Filter(s, keep) == rest;
      }
    }
  }

  /** An element is kept exactly when it occurs in the input and satisfies the predicate. */
  lemma {:induction false} FilterMembership<T>(s: seq<T>, keep: T -> bool, x: T)
    ensures x in Filter(s, keep) <==> x in s && keep(x)
  {
    if s != [] {
      FilterMembership(s[1..], keep, x);
      assert s == [s[0]] + s[1..];
    }
  }

  /** When every element passes, filtering returns the input unchanged. */
  lemma {:induction false} FilterKeepsAll<T>(s: seq<T>, keep: T -> bool)
    requires forall i :: 0 <= i < |s| ==> keep(s[i])
    ensures Filter(s, keep) == s
  {
    if s != [] {
      FilterKeepsAll(s[1..], keep);
      assert [s[0]] + s[1..] == s;
    }
  }

  /** Filtering distributes over concatenation. */
  lemma {:induction false} FilterAppend<T>(a: seq<T>, b: seq<T>, keep: T -> bool)
    ensures Filter(a + b, keep) == Filter(a, keep) + Filter(b, keep)
  {
    if a != [] {
      FilterAppend(a[1..], b, keep);
      assert (a + b)[0] == a[0] && (a + b)[1..] == a[1..] + b;
      var head := if keep(a[0]) then [a[0]] else [];
      assert Filter(a + b, keep) == head + (Filter(a[1..], keep) + Filter(b, keep));
      assert Filter(a, keep) == head + Filter(a[1..], keep);
    } else {
      assert a + b == b;
    }
  }

  /** A stricter predicate keeps a subsequence of what a weaker one keeps. */
  lemma {:induction false} FilterNarrows<T>(s: seq<T>, strict: T -> bool, loose: T -> bool)
    requires forall x :: strict(x) ==> loose(x)
    ensures IsSubsequence(Filter(s, strict), Filter(s, loose))
  {
    if s != [] {
      FilterNarrows(s[1..], strict, loose);
      var a, b := Filter(s[1..], strict), Filter(s[1..], loose);
      if strict(s[0]) {
        assert Filter(s, strict) == [s[0]] + a && Filter(s, loose) == [s[0]] + b;
        assert ([s[0]] + a)[1..] == a && ([s[0]] + b)[1..] == b;
      } else if loose(s[0]) {
        assert Filter(s, strict) == a && Filter(s, loose) == [s[0]] + b;
        SubsequenceOfCons(a, s[0], b);
      } else {
        assert Filter(s, strict) == a && Filter(s, loose) == b;
      }
    }
  }

  /** Predicates that agree on every element keep the same elements. */
  lemma {:induction false} FilterCongruent<T>(s: seq<T>, f: T -> bool, g: T -> bool)
    requires forall i :: 0 <= i < |s| ==> f(s[i]) == g(s[i])
    ensures Filter(s, f) == Filter(s, g)
  {
    if s != [] {
      FilterCongruent(s[1..], f, g);
    }
  }

  lemma SubsequenceOfCons<T>(a: seq<T>, x: T, b: seq<T>)
    requires IsSubsequence(a, b)
    ensures IsSubsequence(a, [x] + b)
  {
    assert ([x] + b)[1..] == b;
  }

  /** The number of elements of `s` satisfying `keep`. */
  function Count<T>(s: seq<T>, keep: T -> bool): nat
  {
    if s == [] then 0 else (if keep(s[0]) then 1 else 0) + Count(s[1..], keep)
  }

  lemma {:induction false} FilterLength<T>(s: seq<T>, keep: T -> bool)
    ensures |Filter(s, keep)| == Count(s, keep)
  {
    if s != [] { FilterLength(s[1..], keep); }
  }
}
