/** Which notes `buildAndApplyNotes` hands out, in the order it pops the
    shuffled furniture pool (src/app/core/models/game.ts:116-188).

    The pool is the catalog's codes after one shuffle; the last code is
    popped first.  Pop 0 gets the money note, pops 1-11 the clue notes,
    pop 12 the trapdoor, pops 13-14 the secret notes, pop 15 the
    two-card clue note, pops 16-21 the `notIn` hints and pops 22-25 the
    `lookIn` hints.  Every `randomChoice` is one draw from the seeded
    source, in that order; the choice between an item and a person on a
    secret note is `Math.random`, a separate unseeded source, given here
    as `coins`. */
module NotePlan {
  import opened Wrappers
  import opened Seqs
  import opened Draws
  import opened Cards
  import opened Notes

  /** The cards and the room names the notes are drawn from. */
  datatype Deck = Deck(items: seq<ItemOrPerson>, people: seq<ItemOrPerson>, roomNames: seq<string>)

  predicate DeckReady(d: Deck) {
    |d.items| > 0 && |d.people| > 0 && |d.roomNames| > 0
  }

  /** Notes handed out, and seeded draws they take after the pool shuffle. */
  const NoteCount := 26
  const NoteDraws := 18

  /** Pop 0: the money, guarded by an item and a person (two draws). */
  function MoneyNote(d: Deck, g: Rng): (n: NoteView)
    requires DeckReady(d)
    ensures n.money && n.ask && !n.trapdoor && n.clue == 0
    ensures n.item.Some? && n.item.value in d.items && n.person.Some? && n.person.value in d.people
    ensures n.secret.None? && n.notIn.None? && n.lookIn.None?
  {
    BlankNote.(money := true, ask := true,
               item := Some(Choice(d.items, g).0), person := Some(Choice(d.people, g.Skip(1)).0))
  }

  /** Pops 1-11: two clues each. */
  const ClueNote := BlankNote.(clue := 2)

  /** Pop 12. */
  const TrapdoorNote := BlankNote.(trapdoor := true)

  /** The text of a secret note naming a room. */
  function SecretText(roomName: string): string {
    "The money is not in the " + roomName + "."
  }

  /** Pops 13-14: asks for one item (when the coin says so) or one person,
      then names a room drawn from all rooms (two draws). */
  function SecretNote(d: Deck, itemCoin: bool, g: Rng): (n: NoteView)
    requires DeckReady(d)
    ensures n.ask && !n.money && !n.trapdoor && n.clue == 0
    ensures (n.item.Some? <==> itemCoin) && (n.person.Some? <==> !itemCoin)
    ensures n.item.Some? ==> n.item.value in d.items
    ensures n.person.Some? ==> n.person.value in d.people
    ensures n.secret.Some? && exists room :: room in d.roomNames && n.secret.value == SecretText(room)
  {
    BlankNote.(ask := true,
               item := if itemCoin then Some(Choice(d.items, g).0) else None,
               person := if itemCoin then None else Some(Choice(d.people, g).0),
               secret := Some(SecretText(Choice(d.roomNames, g.Skip(1)).0)))
  }

  /** Pop 15: an item and a person guard two clues (two draws). */
  function CombinedNote(d: Deck, g: Rng): (n: NoteView)
    requires DeckReady(d)
    ensures n.ask && !n.money && !n.trapdoor && n.clue == 2 && n.secret.None?
    ensures n.item.Some? && n.item.value in d.items && n.person.Some? && n.person.value in d.people
  {
    BlankNote.(ask := true, clue := 2,
               item := Some(Choice(d.items, g).0), person := Some(Choice(d.people, g.Skip(1)).0))
  }

  /** The furniture that received clue notes, in the order they were popped. */
  function ClueCodes(pool: seq<int>): (r: seq<int>)
    requires |pool| >= 12
    ensures |r| == 11
    ensures forall i :: 0 <= i < 11 ==> r[i] == pool[|pool| - 2 - i]
  {
    seq(11, i requires 0 <= i < 11 => pool[|pool| - 2 - i])
  }

  /** The pool `notIn` targets are drawn from.  It is copied after the money
      pop, and the `splice` at `indexOf(moneyFurniture)` (which is -1,
      the money piece being gone already) drops its last element, so the
      first clue piece is never a `notIn` target either. */
  function NotInPool(pool: seq<int>): seq<int>
    requires |pool| >= 2
  {
    pool[..|pool| - 2]
  }

  /** Pops 16-21: one draw each. */
  function NotInNotes(pool: seq<int>, g: Rng): (r: seq<NoteView>)
    requires |pool| >= 3
    ensures |r| == 6
    ensures forall i :: 0 <= i < 6 ==> r[i] == BlankNote.(notIn := Some(Choice(NotInPool(pool), g.Skip(i)).0))
  {
    seq(6, i requires 0 <= i < 6 => BlankNote.(notIn := Some(Choice(NotInPool(pool), g.Skip(i)).0)))
  }

  /** Pops 22-25: one draw each. */
  function LookInNotes(pool: seq<int>, g: Rng): (r: seq<NoteView>)
    requires |pool| >= 12
    ensures |r| == 4
    ensures forall i :: 0 <= i < 4 ==> r[i] == BlankNote.(lookIn := Some(Choice(ClueCodes(pool), g.Skip(i)).0))
  {
    seq(4, i requires 0 <= i < 4 => BlankNote.(lookIn := Some(Choice(ClueCodes(pool), g.Skip(i)).0)))
  }

  /** The notes in pop order: `PopNotes(...)[k]` goes to the furniture
      `pool[|pool| - 1 - k]`.  `g` is the seeded source after the pool
      shuffle. */
  function PopNotes(pool: seq<int>, d: Deck, g: Rng, coins: nat -> bool): (r: seq<NoteView>)
    requires |pool| >= NoteCount && DeckReady(d)
    ensures |r| == NoteCount
  {
    [MoneyNote(d, g)] + seq(11, _ => ClueNote) + [TrapdoorNote]
      + [SecretNote(d, coins(0), g.Skip(2)), SecretNote(d, coins(1), g.Skip(4))]
      + [CombinedNote(d, g.Skip(6))] + NotInNotes(pool, g.Skip(8)) + LookInNotes(pool, g.Skip(14))
  }

  predicate IsMoney(n: NoteView) {
    n.money
  }

  predicate IsTrapdoor(n: NoteView) {
    n.trapdoor
  }

  function Clues(n: NoteView): int {
    n.clue
  }

  /** Pop by pop, what each note is. */
  lemma PopNotesAt(pool: seq<int>, d: Deck, g: Rng, coins: nat -> bool)
    requires |pool| >= NoteCount && DeckReady(d)
    ensures var r := PopNotes(pool, d, g, coins);
      && r[0] == MoneyNote(d, g)
      && (forall k :: 1 <= k < 12 ==> r[k] == ClueNote)
      && r[12] == TrapdoorNote
      && r[13] == SecretNote(d, coins(0), g.Skip(2))
      && r[14] == SecretNote(d, coins(1), g.Skip(4))
      && r[15] == CombinedNote(d, g.Skip(6))
      && (forall k :: 16 <= k < 22 ==> r[k] == NotInNotes(pool, g.Skip(8))[k - 16])
      && (forall k :: 22 <= k < 26 ==> r[k] == LookInNotes(pool, g.Skip(14))[k - 22])
  {
  }

  /** A sequence in which no element satisfies `p` counts none. */
  lemma {:induction false} CountNone<T>(s: seq<T>, p: T -> bool)
    requires forall i :: 0 <= i < |s| ==> !p(s[i])
    ensures CountWhere(s, p) == 0
  {
    if s != [] {
      CountNone(s[1..], p);
    }
  }

  /** A sequence in which exactly the element at `k` satisfies `p` counts one. */
  lemma {:induction false} CountOne<T>(s: seq<T>, p: T -> bool, k: nat)
    requires k < |s| && p(s[k])
    requires forall i :: 0 <= i < |s| && i != k ==> !p(s[i])
    ensures CountWhere(s, p) == 1
  {
    if k == 0 {
      CountNone(s[1..], p);
    } else {
      CountOne(s[1..], p, k - 1);
    }
  }

  /** Exactly one note carries the money, and it is the first one handed
      out; it asks for an item and for a person. */
  lemma OneMoneyNote(pool: seq<int>, d: Deck, g: Rng, coins: nat -> bool)
    requires |pool| >= NoteCount && DeckReady(d)
    ensures var r := PopNotes(pool, d, g, coins);
      && CountWhere(r, IsMoney) == 1
      && r[0].money && r[0].ask && r[0].item.Some? && r[0].person.Some?
      && forall k :: 0 < k < NoteCount ==> !r[k].money
  {
    PopNotesAt(pool, d, g, coins);
    CountOne(PopNotes(pool, d, g, coins), IsMoney, 0);
  }

  /** Exactly one note is the trapdoor, handed out thirteenth. */
  lemma OneTrapdoor(pool: seq<int>, d: Deck, g: Rng, coins: nat -> bool)
    requires |pool| >= NoteCount && DeckReady(d)
    ensures var r := PopNotes(pool, d, g, coins);
      && CountWhere(r, IsTrapdoor) == 1
      && r[12].trapdoor
      && forall k :: 0 <= k < NoteCount && k != 12 ==> !r[k].trapdoor
  {
    PopNotesAt(pool, d, g, coins);
    CountOne(PopNotes(pool, d, g, coins), IsTrapdoor, 12);
  }

  /** The notes hold 24 clues: two on each of the eleven clue notes and two
      on the two-card note. */
  lemma CluesTotal(pool: seq<int>, d: Deck, g: Rng, coins: nat -> bool)
    requires |pool| >= NoteCount && DeckReady(d)
    ensures SumOf(PopNotes(pool, d, g, coins), Clues) == 24
  {
    var r := PopNotes(pool, d, g, coins);
    PopNotesAt(pool, d, g, coins);
    var a, b, c, e := r[..1], r[1..12], r[12..15], r[15..16];
    var rest := r[16..];
    assert r == a + b + c + e + rest;
    SumOfAppend(a + b + c + e, rest, Clues);
    SumOfAppend(a + b + c, e, Clues);
    SumOfAppend(a + b, c, Clues);
    SumOfAppend(a, b, Clues);
    SumOfConst(a, Clues, 0);
    SumOfConst(b, Clues, 2);
    SumOfConst(c, Clues, 0);
    SumOfConst(e, Clues, 2);
    SumOfConst(rest, Clues, 0);
  }

  /** The eleven clue pieces are popped right after the money piece, and
      each gets a clue note. */
  lemma ClueCodesGetClueNotes(pool: seq<int>, d: Deck, g: Rng, coins: nat -> bool)
    requires |pool| >= NoteCount && DeckReady(d)
    ensures forall i :: 0 <= i < 11 ==>
      ClueCodes(pool)[i] == pool[|pool| - 1 - (i + 1)] && PopNotes(pool, d, g, coins)[i + 1] == ClueNote
  {
    PopNotesAt(pool, d, g, coins);
  }

  /** Every `lookIn` hint points at one of the clue pieces. */
  lemma LookInTargetsClues(pool: seq<int>, d: Deck, g: Rng, coins: nat -> bool)
    requires |pool| >= NoteCount && DeckReady(d)
    ensures forall k :: 0 <= k < NoteCount && PopNotes(pool, d, g, coins)[k].lookIn.Some? ==>
      PopNotes(pool, d, g, coins)[k].lookIn.value in ClueCodes(pool)
  {
    PopNotesAt(pool, d, g, coins);
  }

  /** Every `notIn` hint points at a piece of the pool other than the money
      piece (and other than the first clue piece), so with distinct codes it
      never names the money's hiding place. */
  lemma NotInAvoidsMoney(pool: seq<int>, d: Deck, g: Rng, coins: nat -> bool)
    requires |pool| >= NoteCount && DeckReady(d)
    requires Distinct(pool)
    ensures forall k :: 0 <= k < NoteCount && PopNotes(pool, d, g, coins)[k].notIn.Some? ==>
      && PopNotes(pool, d, g, coins)[k].notIn.value in pool
      && PopNotes(pool, d, g, coins)[k].notIn.value != pool[|pool| - 1]
  {
    PopNotesAt(pool, d, g, coins);
    var r := PopNotes(pool, d, g, coins);
    forall k | 0 <= k < NoteCount && r[k].notIn.Some?
      ensures r[k].notIn.value in pool && r[k].notIn.value != pool[|pool| - 1]
    {
      var x := r[k].notIn.value;
      assert x in NotInPool(pool);
      var j :| 0 <= j < |pool| - 2 && pool[j] == x;
    }
  }

  /** The note the piece with `code` ends up with: the one handed out when
      the piece was popped, or none when it stayed in the pool. */
  function NoteFor(pool: seq<int>, notes: seq<NoteView>, code: int): Option<NoteView> {
    match FirstIndex(pool, (x: int) => x == code)
    case None => None
    case Some(p) => if |pool| - 1 - p < |notes| then Some(notes[|pool| - 1 - p]) else None
  }

  /** With distinct codes, the piece at pool position `i` gets the note
      handed out when it was popped, if it was. */
  lemma NoteForAt(pool: seq<int>, notes: seq<NoteView>, i: nat)
    requires Distinct(pool) && i < |pool|
    ensures NoteFor(pool, notes, pool[i]) ==
      if |pool| - 1 - i < |notes| then Some(notes[|pool| - 1 - i]) else None
  {
    var f := FirstIndex(pool, (x: int) => x == pool[i]);
    assert f.Some?;
    assert f.value == i;
  }

  /** With distinct codes, the `k`-th popped piece gets the `k`-th note. */
  lemma NoteForPopped(pool: seq<int>, notes: seq<NoteView>, k: nat)
    requires Distinct(pool) && k < |notes| <= |pool|
    ensures NoteFor(pool, notes, pool[|pool| - 1 - k]) == Some(notes[k])
  {
    NoteForAt(pool, notes, |pool| - 1 - k);
  }

  /** A piece still in the pool, or not in it at all, gets no note. */
  lemma NoteForUnpopped(pool: seq<int>, notes: seq<NoteView>, code: int)
    requires |notes| <= |pool|
    requires code !in pool[|pool| - |notes|..]
    ensures NoteFor(pool, notes, code) == None
  {
  }
}
