/** How `furnishRoomsSmart` deals the leftover furniture
    (src/app/core/models/game.ts:255-279): the pre-placed codes are removed
    from the catalog's codes, both the leftovers and the rooms are shuffled,
    and then passes over the rooms hand the last leftover code to every
    room holding fewer than four, until none is left. */
module Furnish {
  import opened Wrappers
  import opened Seqs

  /** The most pieces a room is dealt up to. */
  const Capacity: nat := 4

  /** How many more codes a room can be dealt. */
  function RoomFree(codes: seq<int>): int {
    if |codes| < Capacity then Capacity - |codes| else 0
  }

  /** How many more codes the rooms together can be dealt. */
  function FreeSpace(layout: seq<seq<int>>): int {
    SumOf(layout, RoomFree)
  }

  /** One pass of the `for` loop, from room `i` on: each room with fewer
      than four codes, while codes are left, is pushed the last one. */
  function Pass(layout: seq<seq<int>>, codes: seq<int>, i: nat): (r: (seq<seq<int>>, seq<int>))
    requires i <= |layout|
    ensures |r.0| == |layout|
    ensures forall j :: 0 <= j < i ==> r.0[j] == layout[j]
    ensures forall j :: i <= j < |layout| ==>
      r.0[j] == layout[j] || (|r.0[j]| == |layout[j]| + 1 && r.0[j][..|layout[j]|] == layout[j])
    ensures forall j :: i <= j < |layout| && |layout[j]| >= Capacity ==> r.0[j] == layout[j]
    ensures |r.1| <= |codes| && r.1 == codes[..|r.1|]
    decreases |layout| - i
  {
    if i == |layout| then (layout, codes)
    else if |layout[i]| < Capacity && |codes| > 0 then
      Pass(layout[i := layout[i] + [codes[|codes| - 1]]], codes[..|codes| - 1], i + 1)
    else
      Pass(layout, codes, i + 1)
  }

  /** A room with space somewhere from `i` on, and a code left, means the
      pass deals at least one code. */
  lemma {:induction false} PassProgress(layout: seq<seq<int>>, codes: seq<int>, i: nat, k: nat)
    requires i <= k < |layout| && |layout[k]| < Capacity && |codes| > 0
    ensures |Pass(layout, codes, i).1| < |codes|
    decreases k - i
  {
    if !(|layout[i]| < Capacity) {
      PassProgress(layout, codes, i + 1, k);
    }
  }

  /** Pushing a code onto one room adds just that code to the whole. */
  lemma FlattenPush(layout: seq<seq<int>>, j: nat, x: int)
    requires j < |layout|
    ensures multiset(Flatten(layout[j := layout[j] + [x]])) == multiset(Flatten(layout)) + multiset{x}
  {
    var l' := layout[j := layout[j] + [x]];
    assert layout == layout[..j] + [layout[j]] + layout[j + 1..];
    assert l' == layout[..j] + [layout[j] + [x]] + layout[j + 1..];
    FlattenAppend(layout[..j] + [layout[j]], layout[j + 1..]);
    FlattenAppend(layout[..j], [layout[j]]);
    FlattenAppend(layout[..j] + [layout[j] + [x]], layout[j + 1..]);
    FlattenAppend(layout[..j], [layout[j] + [x]]);
    assert Flatten([layout[j]]) == layout[j];
    assert Flatten([layout[j] + [x]]) == layout[j] + [x];
  }

  /** A pass moves codes from the leftovers into the rooms: none is lost or
      made up, and each one dealt uses up one free place. */
  lemma PassConserves(layout: seq<seq<int>>, codes: seq<int>, i: nat)
    requires i <= |layout|
    ensures var r := Pass(layout, codes, i);
      && multiset(Flatten(r.0)) + multiset(r.1) == multiset(Flatten(layout)) + multiset(codes)
      && FreeSpace(r.0) == FreeSpace(layout) - (|codes| - |r.1|)
  {
    PassKeepsCodes(layout, codes, i);
    PassUsesSpace(layout, codes, i);
  }

  lemma {:induction false} PassKeepsCodes(layout: seq<seq<int>>, codes: seq<int>, i: nat)
    requires i <= |layout|
    ensures var r := Pass(layout, codes, i);
      multiset(Flatten(r.0)) + multiset(r.1) == multiset(Flatten(layout)) + multiset(codes)
    decreases |layout| - i
  {
    if i < |layout| {
      if |layout[i]| < Capacity && |codes| > 0 {
        var x, rest := codes[|codes| - 1], codes[..|codes| - 1];
        var l' := layout[i := layout[i] + [x]];
        assert Pass(layout, codes, i) == Pass(l', rest, i + 1);
        PassKeepsCodes(l', rest, i + 1);
        FlattenPush(layout, i, x);
        assert multiset(codes) == multiset(rest) + multiset{x} by {
          assert codes == rest + [x];
        }
      } else {
        PassKeepsCodes(layout, codes, i + 1);
      }
    }
  }

  lemma {:induction false} PassUsesSpace(layout: seq<seq<int>>, codes: seq<int>, i: nat)
    requires i <= |layout|
    ensures var r := Pass(layout, codes, i);
      FreeSpace(r.0) == FreeSpace(layout) - (|codes| - |r.1|)
    decreases |layout| - i
  {
    if i < |layout| {
      if |layout[i]| < Capacity && |codes| > 0 {
        var x := codes[|codes| - 1];
        PassUsesSpace(layout[i := layout[i] + [x]], codes[..|codes| - 1], i + 1);
        SumOfUpdate(layout, i, layout[i] + [x], RoomFree);
      } else {
        PassUsesSpace(layout, codes, i + 1);
      }
    }
  }

  /** A room with fewer than four codes exists wherever free space is left. */
  lemma {:induction false} RoomWithSpace(layout: seq<seq<int>>)
    requires FreeSpace(layout) > 0
    ensures exists k :: 0 <= k < |layout| && |layout[k]| < Capacity
  {
    if !(|layout[0]| < Capacity) {
      RoomWithSpace(layout[1..]);
      var k :| 0 <= k < |layout[1..]| && |layout[1..][k]| < Capacity;
      assert |layout[k + 1]| < Capacity;
    }
  }

  /** Free space left and a code left means the pass deals at least one code. */
  lemma PassDeals(layout: seq<seq<int>>, codes: seq<int>)
    requires FreeSpace(layout) >= |codes| > 0
    ensures |Pass(layout, codes, 0).1| < |codes|
  {
    RoomWithSpace(layout);
    var k :| 0 <= k < |layout| && |layout[k]| < Capacity;
    PassProgress(layout, codes, 0, k);
  }

  /** The `while` loop: passes until no code is left.  It ends because the
      rooms have room for every leftover code. */
  function Deal(layout: seq<seq<int>>, codes: seq<int>): (r: seq<seq<int>>)
    requires FreeSpace(layout) >= |codes|
    ensures |r| == |layout|
    decreases |codes|
  {
    if codes == [] then layout
    else
      var p := Pass(layout, codes, 0);
      PassConserves(layout, codes, 0);
      PassDeals(layout, codes);
      Deal(p.0, p.1)
  }

  /** Dealing keeps every room's codes as a prefix, never pushes a room
      past four, leaves full rooms alone, and moves every leftover code
      into exactly the rooms. */
  lemma {:induction false} DealProperties(layout: seq<seq<int>>, codes: seq<int>)
    requires FreeSpace(layout) >= |codes|
    ensures var r := Deal(layout, codes);
      && (forall j :: 0 <= j < |layout| ==> layout[j] <= r[j])
      && (forall j :: 0 <= j < |layout| && |layout[j]| < Capacity ==> |r[j]| <= Capacity)
      && (forall j :: 0 <= j < |layout| && |layout[j]| >= Capacity ==> r[j] == layout[j])
      && multiset(Flatten(r)) == multiset(Flatten(layout)) + multiset(codes)
    decreases |codes|
  {
    if codes != [] {
      var p := Pass(layout, codes, 0);
      PassConserves(layout, codes, 0);
      PassDeals(layout, codes);
      DealProperties(p.0, p.1);
      var r := Deal(layout, codes);
      assert r == Deal(p.0, p.1);
      forall j | 0 <= j < |layout| ensures layout[j] <= r[j] {
        assert layout[j] <= p.0[j] by {
          if p.0[j] != layout[j] {
            assert p.0[j][..|layout[j]|] == layout[j];
          }
        }
      }
      forall j | 0 <= j < |layout| && |layout[j]| < Capacity ensures |r[j]| <= Capacity {
        if p.0[j] != layout[j] {
          assert |p.0[j]| == |layout[j]| + 1;
        }
      }
    }
  }
}
