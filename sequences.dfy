/**
  Order-keeping operations on the logs both scripts produce: keeping the entries of
  one kind, and joining the per-file groups of entries into one log.
 */
module Sequences {

  /** The elements of `s` that `p` accepts, in order. */
  function Filter<T>(s: seq<T>, p: T -> bool): (r: seq<T>)
    ensures |r| <= |s|
  {
    if s == [] then []
    else Filter(s[..|s| - 1], p) + (if p(s[|s| - 1]) then [s[|s| - 1]] else [])
  }

  lemma {:induction false} FilterAppend<T>(a: seq<T>, b: seq<T>, p: T -> bool)
    ensures Filter(a + b, p) == Filter(a, p) + Filter(b, p)
    decreases |b|
  {
    if b == [] {
      assert a + b == a;
    } else {
      assert (a + b)[..|a + b| - 1] == a + b[..|b| - 1];
      FilterAppend(a, b[..|b| - 1], p);
    }
  }

  lemma FilterSingle<T>(x: T, p: T -> bool)
    ensures Filter([x], p) == if p(x) then [x] else []
  {
    assert [x][..0] == [];
  }

  /** Filtering a three-part sequence part by part. */
  lemma FilterSplit3<T>(a: seq<T>, m: seq<T>, z: seq<T>, p: T -> bool)
    ensures Filter(a + m + z, p) == Filter(a, p) + Filter(m, p) + Filter(z, p)
  {
    FilterAppend(a, m, p);
    FilterAppend(a + m, z, p);
  }

  /** Filtering `a + m + z` keeps only what `m` contributes when `p` accepts nothing
      in `a` and `z`. */
  lemma FilterFramed<T>(a: seq<T>, m: seq<T>, z: seq<T>, p: T -> bool)
    requires forall k :: 0 <= k < |a| ==> !p(a[k])
    requires forall k :: 0 <= k < |z| ==> !p(z[k])
    ensures Filter(a + m + z, p) == Filter(m, p)
  {
    FilterNone(a, p);
    FilterNone(z, p);
    FilterSplit3(a, m, z, p);
  }

  /** Growing the joined prefix of `bs` by its next group. */
  lemma FlattenStep<T>(bs: seq<seq<T>>, i: nat, b: seq<T>)
    requires i < |bs| && b == bs[i]
    ensures Flatten(bs[..i]) + b == Flatten(bs[..i + 1])
  {
    assert bs[..i + 1] == bs[..i] + [b];
    FlattenSnoc(bs[..i], b);
  }

  /** A prefix of groups that ends in a one-element group ends in that element. */
  lemma FlattenEndsWith<T>(bs: seq<seq<T>>, n: nat, x: T)
    requires n < |bs| && bs[n] == [x]
    ensures var s := Flatten(bs[..n + 1]); s != [] && s[|s| - 1] == x
  {
    FlattenStep(bs, n, bs[n]);
    LastOfAppend(Flatten(bs[..n]), bs[n]);
  }

  /** Filtering the joined prefix of `bs` grown by its next group. */
  lemma FilterFlattenStep<T>(bs: seq<seq<T>>, n: nat, p: T -> bool, before: seq<T>, after: seq<T>)
    requires n < |bs|
    requires Filter(Flatten(bs[..n]), p) == before && Filter(bs[n], p) == after
    ensures Filter(Flatten(bs[..n + 1]), p) == before + after
  {
    FlattenStep(bs, n, bs[n]);
    FilterAppend(Flatten(bs[..n]), bs[n], p);
  }

  /** Filtering a sequence of two or three elements, element by element. */
  lemma FilterShort<T>(b: seq<T>, p: T -> bool)
    requires 2 <= |b| <= 3
    ensures Filter(b, p) == (if p(b[0]) then [b[0]] else [])
      + (if |b| == 3 && p(b[1]) then [b[1]] else []) + (if p(b[|b| - 1]) then [b[|b| - 1]] else [])
  {
    var n := |b| - 1;
    assert b[..n][..n - 1] == b[..n - 1];
    FilterSingle(b[0], p);
    assert b[..1] == [b[0]];
    if |b| == 3 {
      assert b[..2] == b[..1] + [b[1]];
    }
  }

  /** Nothing is kept from a sequence none of whose elements `p` accepts. */
  lemma {:induction false} FilterNone<T>(s: seq<T>, p: T -> bool)
    requires forall k :: 0 <= k < |s| ==> !p(s[k])
    ensures Filter(s, p) == []
  {
    if s != [] {
      FilterNone(s[..|s| - 1], p);
    }
  }

  /** The groups of `bs` one after another. */
  function Flatten<T>(bs: seq<seq<T>>): (r: seq<T>)
    ensures bs == [] ==> r == []
  {
    if bs == [] then [] else Flatten(bs[..|bs| - 1]) + bs[|bs| - 1]
  }

  /** Growing a prefix by one element. */
  lemma PrefixSnoc<T>(s: seq<T>, n: nat)
    requires n < |s|
    ensures s[..n] + [s[n]] == s[..n + 1]
  {
  }

  /** Appending keeps the last element of a non-empty tail last. */
  lemma LastOfAppend<T>(a: seq<T>, b: seq<T>)
    requires b != []
    ensures a + b != [] && (a + b)[|a + b| - 1] == b[|b| - 1]
  {
  }

  /** Appending keeps the first element of a non-empty head first. */
  lemma FirstOfAppend<T>(a: seq<T>, b: seq<T>)
    requires a != []
    ensures a + b != [] && (a + b)[0] == a[0]
  {
  }

  /** The last element of `a + m + z` comes from `z`, or from `m` when `z` is empty. */
  lemma LastOfFramed<T>(s: seq<T>, a: seq<T>, m: seq<T>, z: seq<T>)
    requires s == a + m + z && (z != [] || m != [])
    ensures s != [] && s[|s| - 1] == if z != [] then z[|z| - 1] else m[|m| - 1]
  {
  }

  lemma AppendAssoc<T>(a: seq<T>, b: seq<T>, c: seq<T>)
    ensures a + (b + c) == a + b + c
  {
  }

  lemma PrependThree<T>(p: seq<T>, a: seq<T>, b: seq<T>, c: seq<T>)
    ensures p + (a + b + c) == p + a + b + c
  {
    AppendAssoc(p, a + b, c);
    AppendAssoc(p, a, b);
  }

  lemma PrependFour<T>(p: seq<T>, a: seq<T>, b: seq<T>, c: seq<T>, d: seq<T>)
    ensures p + (a + b + c + d) == p + a + b + c + d
  {
    AppendAssoc(p, a + b + c, d);
    PrependThree(p, a, b, c);
  }

  lemma AppendNil<T>(a: seq<T>)
    ensures a + [] == a
  {
  }

  lemma WholePrefix<T>(s: seq<T>)
    ensures s[..|s|] == s
  {
  }

  /** When each group contributes exactly one kept element, filtering the joined groups
      keeps those elements, one per group and in group order. */
  lemma {:induction false} FilterFlatten<T>(bs: seq<seq<T>>, p: T -> bool, picks: seq<T>)
    requires |picks| == |bs|
    requires forall i :: 0 <= i < |bs| ==> Filter(bs[i], p) == [picks[i]]
    ensures Filter(Flatten(bs), p) == picks
  {
    if bs != [] {
      var n := |bs| - 1;
      FilterFlatten(bs[..n], p, picks[..n]);
      FilterAppend(Flatten(bs[..n]), bs[n], p);
      assert picks == picks[..n] + [picks[n]];
    }
  }

  lemma FlattenSnoc<T>(bs: seq<seq<T>>, b: seq<T>)
    ensures Flatten(bs + [b]) == Flatten(bs) + b
  {
    assert (bs + [b])[..|bs|] == bs;
  }
}
