/** Facts about sequences that the board invariants are stated with. */
module Seqs {
  import opened Wrappers

  ghost predicate Distinct<T>(s: seq<T>) {
    forall i, j :: 0 <= i < j < |s| ==> s[i] != s[j]
  }

  /** A sequence without repeats holds each value at most once. */
  lemma {:induction false} DistinctCountsOne<T>(s: seq<T>, x: T)
    requires Distinct(s)
    ensures multiset(s)[x] <= 1
  {
    if s != [] {
      assert s == [s[0]] + s[1..];
      DistinctCountsOne(s[1..], x);
      if s[0] == x {
        assert x !in s[1..];
      }
    }
  }

  function Flatten<T>(ss: seq<seq<T>>): seq<T> {
    if ss == [] then [] else ss[0] + Flatten(ss[1..])
  }

  /** An element is in the flattening exactly when it is in one of the parts. */
  lemma {:induction false} InFlatten<T>(ss: seq<seq<T>>, x: T)
    ensures x in Flatten(ss) <==> exists i :: 0 <= i < |ss| && x in ss[i]
  {
    if ss != [] {
      InFlatten(ss[1..], x);
      if x in Flatten(ss[1..]) {
        var i :| 0 <= i < |ss[1..]| && x in ss[1..][i];
        assert x in ss[i + 1];
      }
      if exists i :: 0 <= i < |ss| && x in ss[i] {
        var i :| 0 <= i < |ss| && x in ss[i];
        if i > 0 {
          assert x in ss[1..][i - 1];
        }
      }
    }
  }

  lemma {:induction false} FlattenAppend<T>(a: seq<seq<T>>, b: seq<seq<T>>)
    ensures Flatten(a + b) == Flatten(a) + Flatten(b)
  {
    if a == [] {
      assert a + b == b;
    } else {
      assert (a + b)[1..] == a[1..] + b;
      FlattenAppend(a[1..], b);
    }
  }

  /** Rearranging the parts does not change which elements, and how many of each, the whole holds. */
  lemma {:induction false} FlattenPermutation<T>(a: seq<seq<T>>, b: seq<seq<T>>)
    requires multiset(a) == multiset(b)
    ensures multiset(Flatten(a)) == multiset(Flatten(b))
    decreases |a|
  {
    if a == [] {
      assert |b| == |multiset(b)| == 0;
    } else {
      var k := MatchFirst(a, b);
      var b' := b[..k] + b[k + 1..];
      FlattenPermutation(a[1..], b');
      FlattenRemove(b, k);
    }
  }

  /** Taking one element out of a sequence takes it out of its multiset. */
  lemma MultisetRemove<T>(s: seq<T>, k: nat)
    requires k < |s|
    ensures s == s[..k] + [s[k]] + s[k + 1..]
    ensures multiset(s[..k] + s[k + 1..]) == multiset(s) - multiset{s[k]}
  {
    assert s == s[..k] + [s[k]] + s[k + 1..];
  }

  /** Flattening holds one part and the flattening of the others. */
  lemma FlattenRemove<T>(ss: seq<seq<T>>, k: nat)
    requires k < |ss|
    ensures multiset(Flatten(ss)) == multiset(ss[k]) + multiset(Flatten(ss[..k] + ss[k + 1..]))
  {
    var p, m, q := ss[..k], [ss[k]], ss[k + 1..];
    assert ss == (p + m) + q;
    FlattenAppend(p + m, q);
    FlattenAppend(p, m);
    FlattenAppend(p, q);
    assert Flatten(m) == ss[k] by {
      assert m[1..] == [];
    }
    var fp, fq := Flatten(p), Flatten(q);
    calc {
      multiset(Flatten(ss));
      { assert Flatten(ss) == (fp + ss[k]) + fq; }
      multiset(fp + ss[k]) + multiset(fq);
      multiset(fp) + multiset(ss[k]) + multiset(fq);
      multiset(ss[k]) + (multiset(fp) + multiset(fq));
      { assert Flatten(p + q) == fp + fq; }
      multiset(ss[k]) + multiset(Flatten(p + q));
    }
  }

  /** An element lying in two different parts occurs at least twice in the flattening. */
  lemma {:induction false} FlattenTwice<T>(ss: seq<seq<T>>, x: T, i: nat, j: nat)
    requires i < j < |ss| && x in ss[i] && x in ss[j]
    ensures multiset(Flatten(ss))[x] >= 2
  {
    assert ss == ss[..i] + [ss[i]] + ss[i + 1..j] + [ss[j]] + ss[j + 1..];
    FlattenAppend(ss[..i] + [ss[i]] + ss[i + 1..j] + [ss[j]], ss[j + 1..]);
    FlattenAppend(ss[..i] + [ss[i]] + ss[i + 1..j], [ss[j]]);
    FlattenAppend(ss[..i] + [ss[i]], ss[i + 1..j]);
    FlattenAppend(ss[..i], [ss[i]]);
    assert Flatten([ss[i]]) == ss[i];
    assert Flatten([ss[j]]) == ss[j];
    assert multiset(Flatten(ss)) == multiset(Flatten(ss[..i])) + multiset(ss[i]) + multiset(Flatten(ss[i + 1..j]))
                                    + multiset(ss[j]) + multiset(Flatten(ss[j + 1..]));
  }

  /** `f` applied to every element, in order. */
  function Map<T, U>(s: seq<T>, f: T -> U): (r: seq<U>)
    ensures |r| == |s|
    ensures forall i :: 0 <= i < |s| ==> r[i] == f(s[i])
  {
    seq(|s|, i requires 0 <= i < |s| => f(s[i]))
  }

  lemma MapAppend<T, U>(a: seq<T>, b: seq<T>, f: T -> U)
    ensures Map(a + b, f) == Map(a, f) + Map(b, f)
  {
  }

  /** Mapping commutes with rearranging. */
  lemma {:induction false} MapPermutation<T, U>(a: seq<T>, b: seq<T>, f: T -> U)
    requires multiset(a) == multiset(b)
    ensures multiset(Map(a, f)) == multiset(Map(b, f))
    decreases |a|
  {
    if a == [] {
      assert |b| == |multiset(b)| == 0;
    } else {
      var k := MatchFirst(a, b);
      var b' := b[..k] + b[k + 1..];
      MapPermutation(a[1..], b', f);
      assert a == [a[0]] + a[1..];
      MapAppend([a[0]], a[1..], f);
      MapAppend(b[..k] + [b[k]], b[k + 1..], f);
      MapAppend(b[..k], [b[k]], f);
      MapAppend(b[..k], b[k + 1..], f);
      var x := [f(a[0])];
      assert Map([a[0]], f) == x && Map([b[k]], f) == x;
      var mp, mq := Map(b[..k], f), Map(b[k + 1..], f);
      calc {
        multiset(Map(b, f));
        multiset(mp + x + mq);
        multiset(mp) + multiset(x) + multiset(mq);
        multiset(x) + multiset(mp + mq);
        multiset(x) + multiset(Map(a[1..], f));
        multiset(x + Map(a[1..], f));
        multiset(Map(a, f));
      }
    }
  }

  /** Where the first element of `a` sits in its rearrangement `b`; the
      rest of `a` is a rearrangement of `b` without that position. */
  lemma MatchFirst<T>(a: seq<T>, b: seq<T>) returns (k: nat)
    requires a != [] && multiset(a) == multiset(b)
    ensures k < |b| && b[k] == a[0]
    ensures b == b[..k] + [b[k]] + b[k + 1..]
    ensures multiset(a[1..]) == multiset(b[..k] + b[k + 1..])
  {
    assert a[0] in multiset(b);
    k :| 0 <= k < |b| && b[k] == a[0];
    MultisetRemove(b, k);
    DropFirst(a);
    calc {
      multiset(a[1..]);
      multiset(a) - multiset{a[0]};
      multiset(b) - multiset{b[k]};
      multiset(b[..k] + b[k + 1..]);
    }
  }

  /** The tail of a sequence holds all but its first element. */
  lemma DropFirst<T>(a: seq<T>)
    requires a != []
    ensures multiset(a[1..]) == multiset(a) - multiset{a[0]}
  {
    MultisetRemove(a, 0);
    assert a[..0] + a[1..] == a[1..];
  }

  /** `s` without its first occurrence of `x` (unchanged when there is none). */
  function RemoveFirst<T(==)>(s: seq<T>, x: T): (r: seq<T>)
    ensures multiset(r) == multiset(s) - multiset{x}
  {
    if s == [] then []
    else if s[0] == x then
      assert s == [s[0]] + s[1..];
      s[1..]
    else
      assert s == [s[0]] + s[1..];
      [s[0]] + RemoveFirst(s[1..], x)
  }

  /** `s` with the first occurrence of each of `xs`, in turn, removed. */
  function RemoveEach<T(==)>(s: seq<T>, xs: seq<T>): seq<T> {
    if xs == [] then s else RemoveFirst(RemoveEach(s, xs[..|xs| - 1]), xs[|xs| - 1])
  }

  /** Removing each of `xs` takes exactly the multiset `xs` away, as far as `s` holds it. */
  lemma {:induction false} RemoveEachMultiset<T>(s: seq<T>, xs: seq<T>)
    ensures multiset(RemoveEach(s, xs)) == multiset(s) - multiset(xs)
  {
    if xs != [] {
      var init := xs[..|xs| - 1];
      var last := xs[|xs| - 1];
      var before := RemoveEach(s, init);
      RemoveEachMultiset(s, init);
      assert xs == init + [last];
      assert multiset(xs) == multiset(init) + multiset{last};
      MultisetDiffTwice(multiset(s), multiset(init), multiset{last});
      calc {
        multiset(RemoveEach(s, xs));
        multiset(RemoveFirst(before, last));
        multiset(before) - multiset{last};
        multiset(s) - multiset(init) - multiset{last};
        multiset(s) - multiset(xs);
      }
    }
  }

  lemma MultisetDiffTwice<T>(a: multiset<T>, b: multiset<T>, c: multiset<T>)
    ensures a - b - c == a - (b + c)
  {
    assert forall y :: (a - b - c)[y] == (a - (b + c))[y];
  }

  /** Distinct members of `big` taken without repeats form a sub-multiset of it. */
  lemma SubMultiset<T>(small: seq<T>, big: seq<T>)
    requires Distinct(small)
    requires forall i :: 0 <= i < |small| ==> small[i] in big
    ensures multiset(small) <= multiset(big)
  {
    forall x | x in multiset(small) ensures multiset(small)[x] <= multiset(big)[x] {
      DistinctCountsOne(small, x);
      assert x in big;
    }
  }

  /** Sequences with the same multiset have the same length and members. */
  lemma SameMembers<T>(a: seq<T>, b: seq<T>)
    requires multiset(a) == multiset(b)
    ensures |a| == |b|
    ensures forall x :: x in a ==> x in b
  {
    assert |a| == |multiset(a)|;
    forall x | x in a ensures x in b {
      assert x in multiset(a);
    }
  }

  /** Strictly increasing adjacent pairs make a sequence without repeats. */
  lemma {:induction false} IncreasingDistinct(s: seq<int>)
    requires forall i :: 0 <= i < |s| - 1 ==> s[i] < s[i + 1]
    ensures Distinct(s)
    ensures forall i, j :: 0 <= i < j < |s| ==> s[i] < s[j]
  {
    if |s| > 1 {
      IncreasingDistinct(s[1..]);
      forall i, j | 0 <= i < j < |s| ensures s[i] < s[j] {
        if i > 0 {
          assert s[i] == s[1..][i - 1] && s[j] == s[1..][j - 1];
        } else if j > 1 {
          assert s[1] == s[1..][0] && s[j] == s[1..][j - 1];
        }
      }
    }
  }

  /** A sum of equal terms. */
  lemma {:induction false} SumOfConst<T>(s: seq<T>, f: T -> int, c: int)
    requires forall i :: 0 <= i < |s| ==> f(s[i]) == c
    ensures SumOf(s, f) == c * |s|
  {
    if s != [] {
      SumOfConst(s[1..], f, c);
    }
  }

  /** The number of elements of `s` that satisfy `p`. */
  function CountWhere<T>(s: seq<T>, p: T -> bool): nat {
    if s == [] then 0 else (if p(s[0]) then 1 else 0) + CountWhere(s[1..], p)
  }

  /** The sum of `f` over the elements of `s`. */
  function SumOf<T>(s: seq<T>, f: T -> int): int {
    if s == [] then 0 else f(s[0]) + SumOf(s[1..], f)
  }

  lemma {:induction false} SumOfAppend<T>(a: seq<T>, b: seq<T>, f: T -> int)
    ensures SumOf(a + b, f) == SumOf(a, f) + SumOf(b, f)
  {
    if a == [] {
      assert a + b == b;
    } else {
      assert (a + b)[1..] == a[1..] + b;
      SumOfAppend(a[1..], b, f);
    }
  }

  /** Replacing one term changes the sum by exactly the difference. */
  lemma {:induction false} SumOfUpdate<T>(s: seq<T>, k: nat, x: T, f: T -> int)
    requires k < |s|
    ensures SumOf(s[k := x], f) == SumOf(s, f) - f(s[k]) + f(x)
  {
    assert s == s[..k] + [s[k]] + s[k + 1..];
    assert s[k := x] == s[..k] + [x] + s[k + 1..];
    SumOfAppend(s[..k] + [s[k]], s[k + 1..], f);
    SumOfAppend(s[..k], [s[k]], f);
    SumOfAppend(s[..k] + [x], s[k + 1..], f);
    SumOfAppend(s[..k], [x], f);
  }

  /** A sum does not depend on the order of its terms. */
  lemma {:induction false} SumOfPermutation<T>(a: seq<T>, b: seq<T>, f: T -> int)
    requires multiset(a) == multiset(b)
    ensures SumOf(a, f) == SumOf(b, f)
    decreases |a|
  {
    if a == [] {
      assert |b| == |multiset(b)| == 0;
    } else {
      var k := MatchFirst(a, b);
      var b' := b[..k] + b[k + 1..];
      SumOfPermutation(a[1..], b', f);
      SumOfAppend(b[..k] + [b[k]], b[k + 1..], f);
      SumOfAppend(b[..k], [b[k]], f);
      SumOfAppend(b[..k], b[k + 1..], f);
    }
  }

  /** A count is a sum of ones, so it does not depend on order either. */
  lemma {:induction false} CountWherePermutation<T>(a: seq<T>, b: seq<T>, p: T -> bool)
    requires multiset(a) == multiset(b)
    ensures CountWhere(a, p) == CountWhere(b, p)
  {
    var one := (x: T) => if p(x) then 1 else 0;
    CountIsSum(a, p);
    CountIsSum(b, p);
    SumOfPermutation(a, b, one);
  }

  lemma {:induction false} CountIsSum<T>(s: seq<T>, p: T -> bool)
    ensures CountWhere(s, p) == SumOf(s, (x: T) => if p(x) then 1 else 0)
  {
    if s != [] {
      CountIsSum(s[1..], p);
    }
  }

  /** `s` back to front. */
  function Rev<T>(s: seq<T>): (r: seq<T>)
    ensures |r| == |s|
    ensures forall i :: 0 <= i < |s| ==> r[i] == s[|s| - 1 - i]
  {
    if s == [] then [] else Rev(s[1..]) + [s[0]]
  }

  lemma {:induction false} RevMultiset<T>(s: seq<T>)
    ensures multiset(Rev(s)) == multiset(s)
  {
    if s != [] {
      RevMultiset(s[1..]);
      assert s == [s[0]] + s[1..];
    }
  }

  /** Summing `f` over the images under `g` is summing their composite `h`. */
  lemma {:induction false} SumOfMap<T, U>(s: seq<T>, g: T -> U, f: U -> int, h: T -> int)
    requires forall x :: h(x) == f(g(x))
    ensures SumOf(Map(s, g), f) == SumOf(s, h)
  {
    if s != [] {
      SumOfMap(s[1..], g, f, h);
      assert Map(s, g)[1..] == Map(s[1..], g);
    }
  }

  /** Counting `p` over the images under `g` is counting their composite `q`. */
  lemma {:induction false} CountWhereMap<T, U>(s: seq<T>, g: T -> U, p: U -> bool, q: T -> bool)
    requires forall x :: q(x) == p(g(x))
    ensures CountWhere(Map(s, g), p) == CountWhere(s, q)
  {
    if s != [] {
      CountWhereMap(s[1..], g, p, q);
      assert Map(s, g)[1..] == Map(s[1..], g);
    }
  }

  lemma {:induction false} CountWhereAppend<T>(a: seq<T>, b: seq<T>, p: T -> bool)
    ensures CountWhere(a + b, p) == CountWhere(a, p) + CountWhere(b, p)
  {
    if a == [] {
      assert a + b == b;
    } else {
      assert (a + b)[1..] == a[1..] + b;
      CountWhereAppend(a[1..], b, p);
    }
  }

  /** Two sequences without repeats and without a common value join into
      one without repeats. */
  lemma DistinctAppend<T>(a: seq<T>, b: seq<T>)
    requires Distinct(a) && Distinct(b)
    requires forall x :: x in a ==> x !in b
    ensures Distinct(a + b)
  {
    forall i, j | 0 <= i < j < |a + b| ensures (a + b)[i] != (a + b)[j] {
      if j >= |a| && i < |a| {
        assert (a + b)[i] in a && (a + b)[j] in b;
      }
    }
  }

  /** A rearrangement of distinct elements is distinct. */
  lemma DistinctPermutation<T>(a: seq<T>, b: seq<T>)
    requires Distinct(a) && multiset(a) == multiset(b)
    ensures Distinct(b)
  {
    forall i, j | 0 <= i < j < |b| ensures b[i] != b[j] {
      if b[i] == b[j] {
        assert b == b[..i] + [b[i]] + b[i + 1..j] + [b[j]] + b[j + 1..];
        assert multiset(b)[b[i]] >= 2;
        DistinctCountsOne(a, b[i]);
        assert false;
      }
    }
  }

  /** A sequence in which every element satisfies `p` counts them all. */
  lemma {:induction false} CountAll<T>(s: seq<T>, p: T -> bool)
    requires forall i :: 0 <= i < |s| ==> p(s[i])
    ensures CountWhere(s, p) == |s|
  {
    if s != [] {
      CountAll(s[1..], p);
    }
  }

  /** The first position whose element satisfies `p`, if any: the early-exit
      lookup loops `getRoomByCode`, `getFurnitureByCode` and
      `findRoomByFurnitureCode` all share this shape. */
  function FirstIndex<T>(s: seq<T>, p: T -> bool): (r: Option<nat>)
    ensures r.Some? ==> r.value < |s| && p(s[r.value])
    ensures r.Some? ==> forall j :: 0 <= j < r.value ==> !p(s[j])
    ensures r.None? <==> forall j :: 0 <= j < |s| ==> !p(s[j])
  {
    if s == [] then None
    else if p(s[0]) then Some(0)
    else
      match FirstIndex(s[1..], p)
      case None => None
      case Some(k) => Some(k + 1)
  }
}
