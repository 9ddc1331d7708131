/** The seeded random source and the three randomisation primitives built on it.

    `seedrandom(seed)` is a foreign library: it is modelled as a stream of
    natural-number draws, a function from draw position to draw, so that a
    board is determined by the stream alone.  `shuffle`, `sample` and
    `randomChoice` are specified by what they promise (a permutation, `k`
    distinct members, one member); each consumes draws from the stream in
    order, which is all the reproducibility argument needs. */
module Draws {
  import opened Seqs

  datatype Rng = Rng(stream: nat -> nat, pos: nat) {
    /** The next draw. */
    function Draw(): nat {
      stream(pos)
    }

    /** The source after `k` more draws. */
    function Skip(k: nat): (g: Rng)
      ensures g.stream == stream && g.pos == pos + k
    {
      Rng(stream, pos + k)
    }
  }

  /** `randomChoice(s)`: one member of `s`, chosen by one draw. */
  function Choice<T>(s: seq<T>, g: Rng): (r: (T, Rng))
    requires |s| > 0
    ensures r.0 in s
    ensures r.1 == g.Skip(1)
  {
    (s[g.Draw() % |s|], g.Skip(1))
  }

  /** `shuffle(s)`: a rearrangement of `s`, one draw per element. */
  function Shuffle<T>(s: seq<T>, g: Rng): (r: (seq<T>, Rng))
    ensures |r.0| == |s|
    ensures r.1 == g.Skip(|s|)
    decreases |s|
  {
    if s == [] then ([], g)
    else
      var k := g.Draw() % |s|;
      var rest := Shuffle(s[..k] + s[k + 1..], g.Skip(1));
      ([s[k]] + rest.0, rest.1)
  }

  /** A shuffle is a rearrangement: the same elements, as often each. */
  lemma {:induction false} ShufflePermutes<T>(s: seq<T>, g: Rng)
    ensures multiset(Shuffle(s, g).0) == multiset(s)
    decreases |s|
  {
    if s != [] {
      var k := g.Draw() % |s|;
      ShufflePermutes(s[..k] + s[k + 1..], g.Skip(1));
      assert s == s[..k] + [s[k]] + s[k + 1..];
      assert multiset(s) == multiset(s[..k] + s[k + 1..]) + multiset{s[k]};
    }
  }

  /** The draws decide positions only, not values: shuffling the images of
      a sequence gives the images of its shuffle. */
  lemma {:induction false} ShuffleNatural<T, U>(s: seq<T>, f: T -> U, g: Rng)
    ensures Shuffle(Map(s, f), g).0 == Map(Shuffle(s, g).0, f)
    decreases |s|
  {
    if s != [] {
      var k := g.Draw() % |s|;
      assert Map(s, f)[..k] + Map(s, f)[k + 1..] == Map(s[..k] + s[k + 1..], f);
      ShuffleNatural(s[..k] + s[k + 1..], f, g.Skip(1));
    }
  }

  /** Two sequences of the same length shuffled with the same draws move
      their elements alike: position `i` of both shuffles comes from one
      common position `j`. */
  lemma ShuffleParallel<T, U>(s: seq<T>, t: seq<U>, g: Rng)
    requires |s| == |t|
    ensures forall i :: 0 <= i < |s| ==>
      exists j :: 0 <= j < |s| && Shuffle(s, g).0[i] == s[j] && Shuffle(t, g).0[i] == t[j]
  {
    var z := seq(|s|, i requires 0 <= i < |s| => (s[i], t[i]));
    var first := (p: (T, U)) => p.0;
    var second := (p: (T, U)) => p.1;
    var sz := Shuffle(z, g).0;
    assert Shuffle(s, g).0 == Map(sz, first) by {
      assert Map(z, first) == s;
      ShuffleNatural(z, first, g);
    }
    assert Shuffle(t, g).0 == Map(sz, second) by {
      assert Map(z, second) == t;
      ShuffleNatural(z, second, g);
    }
    ShufflePermutes(z, g);
    forall i | 0 <= i < |s|
      ensures exists j :: 0 <= j < |s| && Shuffle(s, g).0[i] == s[j] && Shuffle(t, g).0[i] == t[j]
    {
      assert sz[i] in multiset(z);
      var j :| 0 <= j < |z| && z[j] == sz[i];
      assert Shuffle(s, g).0[i] == s[j] && Shuffle(t, g).0[i] == t[j];
    }
  }

  /** Shuffling keeps the elements pairwise distinct when they were. */
  lemma ShufflePreservesDistinct<T>(s: seq<T>, g: Rng)
    requires Distinct(s)
    ensures Distinct(Shuffle(s, g).0)
  {
    ShufflePermutes(s, g);
    DistinctPermutation(s, Shuffle(s, g).0);
  }

  /** `sample(s, k)`: `k` members of `s` picked one at a time without
      replacement, in the order they were picked; one draw per pick. */
  function Sample<T>(s: seq<T>, k: nat, g: Rng): (r: (seq<T>, Rng))
    requires k <= |s|
    ensures |r.0| == k
    ensures multiset(r.0) <= multiset(s)
    ensures r.1 == g.Skip(k)
    decreases k
  {
    if k == 0 then ([], g)
    else
      var i := g.Draw() % |s|;
      var rest := Sample(s[..i] + s[i + 1..], k - 1, g.Skip(1));
      assert s == s[..i] + [s[i]] + s[i + 1..];
      assert multiset(s) == multiset(s[..i] + s[i + 1..]) + multiset{s[i]};
      ([s[i]] + rest.0, rest.1)
  }

  /** A sample of distinct elements is itself distinct, and every pick is a member. */
  lemma SampleDistinctMembers<T>(s: seq<T>, k: nat, g: Rng)
    requires k <= |s|
    requires Distinct(s)
    ensures Distinct(Sample(s, k, g).0)
    ensures forall x :: x in Sample(s, k, g).0 ==> x in s
  {
    var r := Sample(s, k, g).0;
    forall x | x in r ensures x in s {
      assert x in multiset(r);
    }
    forall i, j | 0 <= i < j < |r| ensures r[i] != r[j] {
      if r[i] == r[j] {
        assert r == r[..i] + [r[i]] + r[i + 1..j] + [r[j]] + r[j + 1..];
        assert multiset(r)[r[i]] >= 2;
        DistinctCountsOne(s, r[i]);
        assert false;
      }
    }
  }
}
