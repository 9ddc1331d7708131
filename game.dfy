/** The `Game` object (src/app/core/models/game.ts:14-543): the seeded
    source, the seed, the cards, the furniture and the rooms as fields,
    and the steps of the constructor, `lockRooms` and the two explore
    calls as methods that update them in place.  Each method is proved
    against the function that specifies it: `NewBoard` for the
    constructor, `FurnishRooms` and `Deal` for the furnishing loop,
    `LockPicks` and `Locked` for the locking, and the two machines for
    the explore calls. */
module Games {
  import opened Wrappers
  import opened Seqs
  import opened Draws
  import opened ProcessTypes
  import opened Results
  import opened Cards
  import opened Notes
  import opened Catalog
  import opened Boards
  import opened Furnish
  import opened Setup
  import opened NotePlan
  import opened Furnishings
  import opened Turns
  import opened NewGame
  import RoomMachine
  import FurnitureMachine

  function PieceCode(p: PieceState): int {
    p.code
  }

  /** `furnitureArr.map(x => x.code)`. */
  function Codes(pieces: seq<PieceState>): seq<int> {
    Map(pieces, PieceCode)
  }

  /** `buildFurniture`: one new piece per catalog line, in catalog order,
      each without a note. */
  function CatalogPieces(table: seq<Entry>): (r: seq<PieceState>)
    ensures |r| == |table|
    ensures forall i :: 0 <= i < |table| ==>
      && r[i].name == table[i].name && r[i].code == table[i].code
      && r[i].filename == FurnitureFilename(table[i].name) && r[i].note.None?
  {
    seq(|table|, i requires 0 <= i < |table| => PieceOf(table[i], None))
  }

  /** `findRoomByFurnitureCode`: the first room listing the code, if any. */
  function RoomWithPiece(rooms: seq<RoomState>, code: int): (r: Option<nat>)
    ensures r.Some? ==> r.value < |rooms| && code in rooms[r.value].furnitureCodes
    ensures r.Some? ==> forall j :: 0 <= j < r.value ==> code !in rooms[j].furnitureCodes
    ensures r.None? <==> forall j :: 0 <= j < |rooms| ==> code !in rooms[j].furnitureCodes
  {
    FirstIndex(rooms, (r: RoomState) => code in r.furnitureCodes)
  }

  /** The first loop of `buildRooms`: room `i` gets line `i` of the table
      and number `i`; a table and a number list of different lengths are
      refused with the mismatch error. */
  method PlaceRooms(table: seq<RoomSpec>, codes: seq<int>) returns (r: Outcome<seq<RoomState>>)
    ensures r == PlanRooms(table, codes)
  {
    if |table| != |codes| {
      return Fail(MismatchMessage);
    }
    var rooms: seq<RoomState> := [];
    for i := 0 to |table|
      invariant |rooms| == i
      invariant forall j :: 0 <= j < i ==> rooms[j] == NewRoom(table[j], codes[j])
    {
      rooms := rooms + [NewRoom(table[i], codes[i])];
    }
    assert rooms == PlanRooms(table, codes).value;
    return Ok(rooms);
  }

  /** The rooms up to `i + 1` hold those up to `i` and then room `i`'s codes. */
  lemma LayoutPush(rooms: seq<RoomState>, i: nat)
    requires i < |rooms|
    ensures Flatten(Layout(rooms[..i + 1])) == Flatten(Layout(rooms[..i])) + rooms[i].furnitureCodes
  {
    assert Layout(rooms[..i + 1]) == Layout(rooms[..i]) + [rooms[i].furnitureCodes];
    FlattenAppend(Layout(rooms[..i]), [rooms[i].furnitureCodes]);
    assert Flatten([rooms[i].furnitureCodes]) == rooms[i].furnitureCodes;
  }

  /** Removing `a` and then `b` is removing `a + b`. */
  lemma {:induction false} RemoveEachAppend(s: seq<int>, a: seq<int>, b: seq<int>)
    ensures RemoveEach(RemoveEach(s, a), b) == RemoveEach(s, a + b)
    decreases |b|
  {
    if b == [] {
      assert a + b == a;
    } else {
      var b', x := b[..|b| - 1], b[|b| - 1];
      RemoveEachAppend(s, a, b');
      assert (a + b)[..|a + b| - 1] == a + b';
      assert (a + b)[|a + b| - 1] == x;
      calc {
        RemoveEach(RemoveEach(s, a), b);
        RemoveFirst(RemoveEach(RemoveEach(s, a), b'), x);
        RemoveFirst(RemoveEach(s, a + b'), x);
        RemoveEach(s, a + b);
      }
    }
  }

  /** The inner loop over one room: the first copy of each of the room's
      codes is spliced out of the list, when there is one. */
  method RemoveRoomCodes(codes0: seq<int>, placed: seq<int>) returns (codes: seq<int>)
    ensures codes == RemoveEach(codes0, placed)
  {
    codes := codes0;
    for j := 0 to |placed|
      invariant codes == RemoveEach(codes0, placed[..j])
    {
      assert placed[..j + 1][..j] == placed[..j];
      codes := RemoveFirst(codes, placed[j]);
    }
    assert placed[..|placed|] == placed;
  }

  /** The first loops of `furnishRoomsSmart`: room by room, the codes the
      room already holds are removed from the catalog's codes. */
  method RemovePlaced(codes0: seq<int>, rooms: seq<RoomState>) returns (codes: seq<int>)
    ensures codes == Leftover(rooms, codes0)
  {
    codes := codes0;
    for i := 0 to |rooms|
      invariant codes == RemoveEach(codes0, Flatten(Layout(rooms[..i])))
    {
      RemoveEachAppend(codes0, Flatten(Layout(rooms[..i])), rooms[i].furnitureCodes);
      LayoutPush(rooms, i);
      codes := RemoveRoomCodes(codes, rooms[i].furnitureCodes);
    }
    assert rooms[..|rooms|] == rooms;
  }

  /** The `while` loop of `furnishRoomsSmart`: each pass over the rooms
      pushes the last leftover code onto every room holding fewer than four,
      until no code is left. */
  method DealLeftovers(layout0: seq<seq<int>>, codes0: seq<int>) returns (layout: seq<seq<int>>)
    requires FreeSpace(layout0) >= |codes0|
    ensures layout == Deal(layout0, codes0)
  {
    layout := layout0;
    var codes := codes0;
    while |codes| > 0
      invariant FreeSpace(layout) >= |codes|
      invariant Deal(layout, codes) == Deal(layout0, codes0)
      decreases |codes|
    {
      ghost var l0, c0 := layout, codes;
      PassConserves(l0, c0, 0);
      PassDeals(l0, c0);
      for i := 0 to |layout|
        invariant |layout| == |l0|
        invariant Pass(layout, codes, i) == Pass(l0, c0, 0)
      {
        if |layout[i]| < Capacity && |codes| > 0 {
          layout := layout[i := layout[i] + [codes[|codes| - 1]]];
          codes := codes[..|codes| - 1];
        }
      }
    }
  }

  /** The numbers `lockRooms` may pick from: every room's number but the
      first room's, in room order. */
  function LockCandidates(rooms: seq<RoomState>): (r: seq<int>)
    ensures forall x :: x in r ==> x != FirstRoom && x in Map(rooms, CodeOf)
  {
    if rooms == [] then []
    else
      var rest := LockCandidates(rooms[1..]);
      assert forall x :: x in Map(rooms[1..], CodeOf) ==> x in Map(rooms, CodeOf) by {
        assert Map(rooms[1..], CodeOf) == Map(rooms, CodeOf)[1..];
      }
      if rooms[0].code != FirstRoom then [rooms[0].code] + rest else rest
  }

  /** With distinct numbers, all rooms but at most one are candidates, and
      the candidates are distinct. */
  lemma {:induction false} CandidatesCount(rooms: seq<RoomState>)
    requires Distinct(Map(rooms, CodeOf))
    ensures |LockCandidates(rooms)| >= |rooms| - 1
    ensures (forall i :: 0 <= i < |rooms| ==> rooms[i].code != FirstRoom) ==> |LockCandidates(rooms)| == |rooms|
    ensures Distinct(LockCandidates(rooms))
  {
    if rooms != [] {
      assert Map(rooms[1..], CodeOf) == Map(rooms, CodeOf)[1..];
      CandidatesCount(rooms[1..]);
      var rest := LockCandidates(rooms[1..]);
      if rooms[0].code == FirstRoom {
        assert forall i :: 0 <= i < |rooms[1..]| ==> rooms[1..][i].code != FirstRoom by {
          forall i | 0 <= i < |rooms[1..]| ensures rooms[1..][i].code != FirstRoom {
            assert Map(rooms, CodeOf)[0] != Map(rooms, CodeOf)[i + 1];
          }
        }
      } else {
        DistinctAppend([rooms[0].code], rest);
      }
    }
  }

  /** `lockRooms`' draws: one for how many rooms (one or two), then the
      sample of that many candidate numbers. */
  function LockPicks(rooms: seq<RoomState>, g: Rng): (r: (seq<int>, Rng))
    requires |LockCandidates(rooms)| >= 2
    ensures 1 <= |r.0| <= 2
    ensures multiset(r.0) <= multiset(LockCandidates(rooms))
    ensures r.1 == g.Skip(1 + |r.0|)
  {
    Sample(LockCandidates(rooms), g.Draw() % 2 + 1, g.Skip(1))
  }

  /** What `lockRooms` as written does with the picked numbers: it uses
      each as a position in the room list, and setting `locked` on the
      `undefined` read past the end fails. */
  function LockByPositionAsWritten(rooms: seq<RoomState>, picks: seq<int>): (r: Outcome<seq<RoomState>>)
    ensures r.Ok? <==> forall x :: x in picks ==> 0 <= x < |rooms|
    decreases |picks|
  {
    if picks == [] then Ok(rooms)
    else if 0 <= picks[0] < |rooms| then
      var rest := LockByPositionAsWritten(rooms[picks[0] := rooms[picks[0]].(locked := true)], picks[1..]);
      assert |rooms[picks[0] := rooms[picks[0]].(locked := true)]| == |rooms|;
      assert forall x :: x in picks <==> x == picks[0] || x in picks[1..];
      rest
    else
      assert picks[0] in picks;
      Fail(LockOnUndefinedMessage)
  }

  /** The error setting a field of `undefined` raises. */
  const LockOnUndefinedMessage: string := "Cannot set properties of undefined (setting 'locked')"

  /** On every room list a new game builds (nine rooms numbered 11 to 31),
      `lockRooms` as written fails whatever it draws: every number it can
      pick lies past the last position. */
  lemma LockRoomsAsWrittenFails(rooms: seq<RoomState>, g: Rng)
    requires Distinct(Map(rooms, CodeOf)) && multiset(Map(rooms, CodeOf)) == multiset(RoomCodes)
    ensures |LockCandidates(rooms)| >= 2
    ensures LockByPositionAsWritten(rooms, LockPicks(rooms, g).0).Fail?
  {
    NumbersPastEnd(rooms);
    CandidatesCount(rooms);
    var picks := LockPicks(rooms, g).0;
    var x := picks[0];
    assert x in multiset(picks);
    assert x in LockCandidates(rooms);
    assert x in Map(rooms, CodeOf);
    assert !(0 <= x < |rooms|);
  }

  /** Every room number of such a list is at least its length. */
  lemma NumbersPastEnd(rooms: seq<RoomState>)
    requires multiset(Map(rooms, CodeOf)) == multiset(RoomCodes)
    ensures |rooms| == 9
    ensures forall x :: x in Map(rooms, CodeOf) ==> x >= |rooms|
  {
    SameMembers(Map(rooms, CodeOf), RoomCodes);
    RoomCodesDistinct();
    RoomCodesFromFirst();
  }

  /** The rooms with every room whose number was picked locked. */
  function Locked(rooms: seq<RoomState>, picks: seq<int>): (r: seq<RoomState>)
    ensures |r| == |rooms|
  {
    seq(|rooms|, i requires 0 <= i < |rooms| => rooms[i].(locked := rooms[i].locked || rooms[i].code in picks))
  }

  /** `lockRooms` picks one or two distinct numbers, never the first
      room's; each picked number is exactly one room's; and locking
      changes nothing but the picked rooms' lock, which it sets. */
  lemma LockPlan(rooms: seq<RoomState>, g: Rng)
    requires Distinct(Map(rooms, CodeOf)) && |LockCandidates(rooms)| >= 2
    ensures var picks := LockPicks(rooms, g).0;
      && 1 <= |picks| <= 2 && Distinct(picks) && FirstRoom !in picks
      && (forall x :: x in picks ==> exists i :: 0 <= i < |rooms| && rooms[i].code == x)
      && (forall x, i, j ::
            (x in picks && 0 <= i < |rooms| && 0 <= j < |rooms| && rooms[i].code == x && rooms[j].code == x)
            ==> i == j)
  {
    var picks := LockPicks(rooms, g).0;
    CandidatesCount(rooms);
    SampleDistinctMembers(LockCandidates(rooms), g.Draw() % 2 + 1, g.Skip(1));
    forall x | x in picks ensures exists i :: 0 <= i < |rooms| && rooms[i].code == x {
      var i :| 0 <= i < |rooms| && Map(rooms, CodeOf)[i] == x;
    }
    forall x, i, j | x in picks && 0 <= i < |rooms| && 0 <= j < |rooms| && rooms[i].code == x && rooms[j].code == x
      ensures i == j
    {
      assert Map(rooms, CodeOf)[i] == Map(rooms, CodeOf)[j];
    }
  }

  /** Locking leaves every room in place, never touches the first room,
      locks exactly the picked rooms that were open, and leaves everything
      but the lock as it was. */
  lemma LockedRooms(rooms: seq<RoomState>, picks: seq<int>)
    requires FirstRoom !in picks
    ensures var r := Locked(rooms, picks);
      && (forall i :: 0 <= i < |rooms| ==> r[i].(locked := rooms[i].locked) == rooms[i])
      && (forall i :: 0 <= i < |rooms| ==> (r[i].locked <==> rooms[i].locked || rooms[i].code in picks))
      && (forall i :: 0 <= i < |rooms| && rooms[i].code == FirstRoom ==> r[i] == rooms[i])
  {
  }

  /** Locking keeps a valid board valid: a valid board has at least two
      candidates, and locking changes no room number, no furniture list and
      no piece. */
  lemma LockKeepsValid(b: Board, g: Rng)
    requires ValidBoard(b)
    ensures |LockCandidates(b.rooms)| >= 2
    ensures ValidBoard(b.(rooms := Locked(b.rooms, LockPicks(b.rooms, g).0)))
  {
    CandidatesCount(b.rooms);
    var r := Locked(b.rooms, LockPicks(b.rooms, g).0);
    assert Map(r, CodeOf) == Map(b.rooms, CodeOf);
    assert forall i :: 0 <= i < |r| ==> r[i].furnitureCodes == b.rooms[i].furnitureCodes;
  }

  /** The prompts of the listing, appended to `result`: the message naming
      every piece, the three room sounds, then each piece's sound. */
  method AppendListing(result: Result, room: RoomState, pieces: seq<PieceState>)
    requires Known(pieces, room.furnitureCodes)
    modifies result
    ensures result.uiPrompts == old(result.uiPrompts) + RoomMachine.Listing(room, pieces)
    ensures result.process == old(result.process)
  {
    var names := ListNames(room.furnitureCodes, pieces);
    var message := "This is the " + room.name + ". You see the following:\n" + names;
    ghost var before := result.uiPrompts;
    result.AppendMessage(Some(message));
    result.AppendSound("room_explore_1");
    result.AppendSound(room.filename);
    result.AppendSound("room_explore_2");
    AppendPieceSounds(result, room.furnitureCodes, pieces);
    ghost var sounds := RoomMachine.PieceSounds(room.furnitureCodes, pieces);
    AppendFour(before, Msg(message), Snd("room_explore_1"), Snd(room.filename), Snd("room_explore_2"), sounds);
    ListingParts(room, pieces, message);
  }

  /** The listing is its four opening prompts followed by the piece sounds. */
  lemma ListingParts(room: RoomState, pieces: seq<PieceState>, message: string)
    requires Known(pieces, room.furnitureCodes)
    requires message == "This is the " + room.name + ". You see the following:\n" + RoomMachine.ListedNames(room.furnitureCodes, pieces)
    ensures RoomMachine.Listing(room, pieces) ==
      [Msg(message), Snd("room_explore_1"), Snd(room.filename), Snd("room_explore_2")]
      + RoomMachine.PieceSounds(room.furnitureCodes, pieces)
  {
  }

  lemma AppendFour(before: seq<Prompt>, a: Prompt, b: Prompt, c: Prompt, d: Prompt, rest: seq<Prompt>)
    ensures before + [a] + [b] + [c] + [d] + rest == before + ([a, b, c, d] + rest)
  {
  }

  /** The first listing loop: "- name" for each code, in order. */
  method ListNames(codes: seq<int>, pieces: seq<PieceState>) returns (names: string)
    requires Known(pieces, codes)
    ensures names == RoomMachine.ListedNames(codes, pieces)
  {
    names := "";
    for i := 0 to |codes|
      invariant Known(pieces, codes[..i])
      invariant names == RoomMachine.ListedNames(codes[..i], pieces)
    {
      assert codes[..i + 1][..i] == codes[..i];
      names := names + "- " + pieces[PieceIndex(pieces, codes[i]).value].name;
    }
    assert codes[..|codes|] == codes;
  }

  /** The second listing loop: one sound per piece, in order. */
  method AppendPieceSounds(result: Result, codes: seq<int>, pieces: seq<PieceState>)
    requires Known(pieces, codes)
    modifies result
    ensures result.uiPrompts == old(result.uiPrompts) + RoomMachine.PieceSounds(codes, pieces)
    ensures result.process == old(result.process)
  {
    for i := 0 to |codes|
      invariant Known(pieces, codes[..i])
      invariant result.uiPrompts == old(result.uiPrompts) + RoomMachine.PieceSounds(codes[..i], pieces)
      invariant result.process == old(result.process)
    {
      assert codes[..i + 1][..i] == codes[..i];
      result.AppendSound(pieces[PieceIndex(pieces, codes[i]).value].filename);
    }
    assert codes[..|codes|] == codes;
  }

  /** `buildRooms` on values: shuffle the nine numbers, then make the
      nine rooms, which cannot fail since both tables have nine lines. */
  method BuildRoomsStep(g: Rng) returns (rooms: seq<RoomState>, g': Rng)
    ensures Setup.BuildRooms(g) == (Ok(rooms), g')
  {
    var shuffled := Shuffle(RoomCodes, g);
    g' := shuffled.1;
    var built := PlaceRooms(RoomTable, shuffled.0);
    rooms := built.value;
  }

  /** `furnishRoomsSmart` on values: take the placed codes out of the
      catalog's, shuffle the leftovers and the rooms, and deal.  The
      dealing loop only ends when the rooms have space for every leftover. */
  method FurnishStep(rooms0: seq<RoomState>, codes: seq<int>, g: Rng) returns (rooms: seq<RoomState>, g': Rng)
    requires CanFurnish(rooms0, codes)
    ensures (rooms, g') == FurnishRooms(rooms0, codes, g)
  {
    var leftover := RemovePlaced(codes, rooms0);
    var sc := Shuffle(leftover, g);
    var sr := Shuffle(rooms0, sc.1);
    ShuffledSpace(rooms0, sc.1);
    var layout := DealLeftovers(Layout(sr.0), sc.0);
    rooms := WithLayout(sr.0, layout);
    g' := sr.1;
  }

  /** The pieces after `buildAndApplyNotes`: a popped code's piece carries
      the note `NoteFor` gives it, every other piece keeps its own. */
  ghost predicate NotesApplied(start: seq<PieceState>, pieces: seq<PieceState>, pool: seq<int>, notes: seq<NoteView>, k: nat)
    requires k <= |pool|
  {
    && |pieces| == |start|
    && forall i :: 0 <= i < |pieces| ==>
         pieces[i] == start[i].(note :=
           if start[i].code in pool[|pool| - k..] then NoteFor(pool, notes, start[i].code) else start[i].note)
  }

  /** `buildAndApplyNotes` on values: shuffle the codes into a pool, then
      hand out the notes. */
  method NotesStep(start: seq<PieceState>, rooms: seq<RoomState>, g: Rng, coins: nat -> bool)
    returns (pieces: seq<PieceState>, g': Rng)
    requires Distinct(Codes(start)) && |start| >= NoteCount && |rooms| > 0
    ensures var shuffled := Shuffle(Codes(start), g);
      && NotesApplied(start, pieces, shuffled.0, NotesFor(rooms, shuffled.0, shuffled.1, coins), NoteCount)
      && g' == shuffled.1.Skip(NoteDraws)
  {
    var shuffled := Shuffle(Codes(start), g);
    ShufflePermutes(Codes(start), g);
    ShufflePreservesDistinct(Codes(start), g);
    pieces := PopAndApply(start, shuffled.0, NotesFor(rooms, shuffled.0, shuffled.1, coins));
    g' := shuffled.1.Skip(NoteDraws);
  }

  /** The popping loop of `buildAndApplyNotes`: pop a code off the end of
      the pool and give its piece the next note, once per note. */
  method PopAndApply(start: seq<PieceState>, pool: seq<int>, notes: seq<NoteView>) returns (pieces: seq<PieceState>)
    requires Distinct(Codes(start)) && multiset(pool) == multiset(Codes(start))
    requires Distinct(pool) && |notes| <= |pool|
    ensures NotesApplied(start, pieces, pool, notes, |notes|)
  {
    pieces := start;
    var rest := pool;
    for k := 0 to |notes|
      invariant rest == pool[..|pool| - k]
      invariant NotesApplied(start, pieces, pool, notes, k)
    {
      var code := rest[|rest| - 1];
      rest := rest[..|rest| - 1];
      PoolPiece(start, pieces, pool, code);
      var p := PieceIndex(pieces, code).value;
      NoteForPopped(pool, notes, k);
      assert pool[|pool| - (k + 1)..] == [code] + pool[|pool| - k..];
      pieces := pieces[p := pieces[p].(note := Some(notes[k]))];
    }
  }

  /** `lockRooms` on values: one draw for how many rooms (one or two), a
      sample of that many numbers among all but the first room's, and each
      picked room locked, found by its number. */
  method LockStep(rooms0: seq<RoomState>, g: Rng) returns (rooms: seq<RoomState>, g': Rng)
    requires Distinct(Map(rooms0, CodeOf)) && |LockCandidates(rooms0)| >= 2
    ensures (rooms, g') == (Locked(rooms0, LockPicks(rooms0, g).0), LockPicks(rooms0, g).1)
  {
    var candidates := LockCandidates(rooms0);
    var count := g.Draw() % 2 + 1;
    var sampled := Sample(candidates, count, g.Skip(1));
    var picks := sampled.0;
    forall x | x in picks ensures x in Map(rooms0, CodeOf) {
      assert x in multiset(picks);
    }
    g' := sampled.1;
    rooms := rooms0;
    for j := 0 to |picks|
      invariant rooms == Locked(rooms0, picks[..j])
    {
      LockTarget(rooms0, rooms, picks, j);
      var k := RoomIndex(rooms, picks[j]).value;
      rooms := rooms[k := rooms[k].(locked := true)];
    }
    assert picks[..|picks|] == picks;
  }

  /** The constructor's steps after the seed, over the catalog `table`:
      build the rooms, furnish them and hand out the notes.  The board is
      the one `NewBoard` describes. */
  method Construct(table: seq<Entry>, codes: seq<int>, g: Rng, coins: nat -> bool) returns (board: Board, g': Rng)
    requires CatalogShape(table, codes)
    ensures (board, g') == NewBoard(table, codes, g, coins)
  {
    var bare := CatalogPieces(table);
    ConstructedCodes(table, codes, bare);
    BuildsFurnishable(codes, g);
    var built, g1 := BuildRoomsStep(g);
    var furnished, g2 := FurnishStep(built, Codes(bare), g1);
    var noted, g3 := NotesStep(bare, furnished, g2, coins);
    NotesLanded(table, codes, bare, noted, furnished, g2, coins);
    board, g' := Board(furnished, noted, 0), g3;
  }

  /** The constructor's steps over the game's own catalog. */
  method NewGameStep(g: Rng, coins: nat -> bool) returns (rooms: seq<RoomState>, pieces: seq<PieceState>, g': Rng)
    ensures (Board(rooms, pieces, 0), g') == GameBoard(g, coins)
  {
    CatalogShaped();
    var board;
    board, g' := Construct(FurnitureTable, CatalogCodes, g, coins);
    rooms, pieces := board.rooms, board.pieces;
  }

  /** The game.  The furniture and rooms are held as values: a room is
      changed by replacing it in the list, where the source changes the
      shared `Room` object.  The work of each step is done by a method
      over values above, which the class method calls and then stores. */
  class Game {
    var rng: Rng
    const seed: string
    const items: seq<ItemOrPerson> := Items
    const people: seq<ItemOrPerson> := People
    var pieces: seq<PieceState>
    var rooms: seq<RoomState>
    var cluesFound: int

    /** What the two explore calls read and change. */
    function View(): Board
      reads this
    {
      Board(rooms, pieces, cluesFound)
    }

    /** What a game keeps true between calls. */
    ghost predicate Valid()
      reads this
    {
      ValidBoard(View())
    }

    /** `new Game(seed)`: the seed is the one given, or a fresh one when it
        is absent or empty; the seeded source starts at its first draw; the
        board is the one `NewBoard` describes over the game's catalog, after
        its 88 draws. */
    constructor (seedArg: Option<string>, freshSeed: string, prng: string -> (nat -> nat), coins: nat -> bool)
      ensures seed == if seedArg.Some? && seedArg.value != "" then seedArg.value else freshSeed
      ensures (View(), rng) == GameBoard(Rng(prng(seed), 0), coins)
      ensures Valid()
    {
      var chosen := if seedArg.Some? && seedArg.value != "" then seedArg.value else freshSeed;
      seed := chosen;
      var built, noted, g := NewGameStep(Rng(prng(chosen), 0), coins);
      NewGameValid(Rng(prng(chosen), 0), coins);
      rooms, pieces, rng := built, noted, g;
      cluesFound := 0;
    }

    /** `getSeed`: the seed fixed when the game was made, which no method changes. */
    function GetSeed(): (s: string)
      ensures s == seed
    {
      seed
    }

    /** `getRng`: the next seeded draw. */
    method GetRng() returns (x: nat)
      modifies this
      ensures x == old(rng).Draw() && rng == old(rng).Skip(1)
      ensures View() == old(View())
    {
      x := rng.Draw();
      rng := rng.Skip(1);
    }

    /** `buildRooms`: the nine rooms, from the next nine draws. */
    method BuildRooms()
      modifies this
      ensures Setup.BuildRooms(old(rng)) == (Ok(rooms), rng)
      ensures pieces == old(pieces) && cluesFound == old(cluesFound)
    {
      rooms, rng := BuildRoomsStep(rng);
    }

    /** `furnishRoomsSmart`: every catalog piece not yet in a room is dealt
        into one. */
    method FurnishRoomsSmart()
      requires CanFurnish(rooms, Codes(pieces))
      modifies this
      ensures (rooms, rng) == FurnishRooms(old(rooms), Codes(old(pieces)), old(rng))
      ensures pieces == old(pieces) && cluesFound == old(cluesFound)
    {
      rooms, rng := FurnishStep(rooms, Codes(pieces), rng);
    }

    /** `buildAndApplyNotes`: the 26 notes land on the pieces whose codes are
        popped off the end of a shuffled pool; the pieces left in the pool
        keep theirs. */
    method BuildAndApplyNotes(coins: nat -> bool)
      requires Distinct(Codes(pieces)) && |pieces| >= NoteCount && |rooms| > 0
      modifies this
      ensures rooms == old(rooms) && cluesFound == old(cluesFound)
      ensures var shuffled := Shuffle(Codes(old(pieces)), old(rng));
        && NotesApplied(old(pieces), pieces, shuffled.0, NotesFor(old(rooms), shuffled.0, shuffled.1, coins), NoteCount)
        && rng == shuffled.1.Skip(NoteDraws)
    {
      pieces, rng := NotesStep(pieces, rooms, rng, coins);
    }

    /** `lockRooms`: one or two rooms other than the first one locked, as
        the next draws pick them. */
    method LockRooms()
      requires Valid()
      modifies this
      ensures |LockCandidates(old(rooms))| >= 2
      ensures rooms == Locked(old(rooms), LockPicks(old(rooms), old(rng)).0)
      ensures rng == LockPicks(old(rooms), old(rng)).1
      ensures pieces == old(pieces) && cluesFound == old(cluesFound)
      ensures Valid()
    {
      LockKeepsValid(View(), rng);
      rooms, rng := LockStep(rooms, rng);
    }

    /** `exploreRoom`: the prompts and token `RoomMachine.Explore` gives,
        and the board it leaves, which is again a valid one. */
    method ExploreRoom(process: Process, roomCode: Option<int>, userInput: Option<string>) returns (result: Result)
      requires Valid()
      modifies this
      ensures fresh(result)
      ensures var s := RoomMachine.Explore(old(View()), process, roomCode, userInput);
        View() == s.board && result.process == Some(s.process) && result.uiPrompts == s.prompts
      ensures Valid()
      ensures rng == old(rng)
    {
      RoomExploreValid(View(), process, roomCode, userInput);
      var after;
      result, after := ExploreRoomOn(View(), process, roomCode, userInput);
      rooms := after.rooms;
    }

    /** `exploreFurniture`: the prompts and token `FurnitureMachine.Explore`
        gives, and the board it leaves, which is again a valid one with
        the same rooms. */
    method ExploreFurniture(process: Process, code: Option<int>, userInput: Option<string>) returns (result: Result)
      requires Valid() && FurnitureMachine.Ready(View(), process, code, userInput)
      modifies this
      ensures fresh(result)
      ensures var s := FurnitureMachine.Explore(old(View()), process, code, userInput);
        View() == s.board && result.process == Some(s.process) && result.uiPrompts == s.prompts
      ensures Valid()
      ensures rng == old(rng)
    {
      FurnitureExploreValid(View(), process, code, userInput);
      var after;
      result, after := ExploreFurnitureOn(View(), process, code, userInput);
      pieces, cluesFound := after.pieces, after.cluesFound;
    }
  }

  /** `exploreRoom` on a board value: the result starts from the given
      token; the room is looked up by number; a 'y' unlocks it. */
  method ExploreRoomOn(b: Board, process: Process, roomCode: Option<int>, userInput: Option<string>)
    returns (result: Result, after: Board)
    requires Listable(b)
    ensures fresh(result)
    ensures var s := RoomMachine.Explore(b, process, roomCode, userInput);
      after == s.board && result.process == Some(s.process) && result.uiPrompts == s.prompts
  {
    after := b;
    result := new Result();
    result.SetProcess(process.action, process.pid);
    if MissingCode(roomCode) {
      result.AppendMessage(Some(MissingCodeMessage));
      result.UpdatePID(FurnitureBegin);
      return;
    }
    var found := RoomIndex(b.rooms, roomCode.value);
    if found.None? {
      result.AppendMessage(Some(UnknownCodeMessage));
      result.UpdatePID(FurnitureBegin);
      return;
    }
    after := VisitOn(result, b, found.value, userInput);
  }

  /** The states of a call whose room was found. */
  method VisitOn(result: Result, b: Board, k: nat, userInput: Option<string>) returns (after: Board)
    requires Listable(b) && k < |b.rooms| && result.process.Some? && result.process.value.pid.Some?
    requires result.uiPrompts == []
    modifies result
    ensures var s := RoomMachine.Visit(b, k, old(result.process.value), userInput);
      after == s.board && result.process == Some(s.process) && result.uiPrompts == s.prompts
  {
    after := b;
    var pid := result.process.value.pid.value;
    if pid == RoomBegin && b.rooms[k].locked {
      result.AppendMessage(Some("This room is locked. Do you have the key?"));
      result.AppendSound("room_locked.wav");
      result.AppendMessage(Some("y/n"));
      assert result.uiPrompts == [Msg("This room is locked. Do you have the key?"), Snd("room_locked.wav"), Msg("y/n")];
      result.UpdatePID(CheckLockedRoom);
      return;
    }
    if pid == CheckLockedRoom {
      if IsYes(userInput) {
        after := Unlock(b, k);
        result.UpdatePID(ListFurniture);
      } else {
        result.AppendMessage(Some("Sorry."));
        result.AppendSound("sorry.wav");
        result.UpdatePID(RoomFinish);
        return;
      }
    }
    if result.process.value.pid == Some(ListFurniture) {
      AppendListing(result, after.rooms[k], after.pieces);
    }
  }

  /** `exploreFurniture` on a board value: the result starts from the
      given token; the piece is looked up by code; the incoming pid picks
      the question to ask, and the clue step moves one clue from the piece
      to the counter. */
  method ExploreFurnitureOn(b: Board, process: Process, code: Option<int>, userInput: Option<string>)
    returns (result: Result, after: Board)
    requires FurnitureMachine.Ready(b, process, code, userInput)
    ensures fresh(result)
    ensures var s := FurnitureMachine.Explore(b, process, code, userInput);
      after == s.board && result.process == Some(s.process) && result.uiPrompts == s.prompts
  {
    after := b;
    result := new Result();
    result.SetProcess(process.action, process.pid);
    if MissingCode(code) {
      result.AppendMessage(Some(MissingCodeMessage));
      result.UpdatePID(FurnitureBegin);
      return;
    }
    var found := PieceIndex(b.pieces, code.value);
    if found.None? {
      result.AppendMessage(Some(UnknownCodeMessage));
      result.UpdatePID(FurnitureBegin);
      return;
    }
    after := SearchOn(result, b, process, found.value, userInput);
  }

  /** The states of a call whose piece was found. */
  method SearchOn(result: Result, b: Board, process: Process, k: nat, userInput: Option<string>) returns (after: Board)
    requires k < |b.pieces| && FurnitureMachine.NoteReady(b.pieces, b.pieces[k].note, process.pid, userInput)
    requires result.process == Some(Token(process.action, process.pid)) && result.uiPrompts == []
    modifies result
    ensures var s := FurnitureMachine.Search(b, k, process, userInput);
      after == s.board && result.process == Some(s.process) && result.uiPrompts == s.prompts
  {
    after := b;
    if process.pid == Some(FurnitureBegin) {
      BeginOn(result, b, k);
    } else if process.pid == Some(CheckNoteClue) {
      after := ClueOn(result, b, k);
    } else if process.pid.Some? && CheckNoteItem <= process.pid.value <= CheckNotePersonInput {
      AskOn(result, b, process, k, userInput);
    } else {
      HintOn(result, b, process, k);
    }
  }

  /** The Begin state: show the piece, then stop or ask. */
  method BeginOn(result: Result, b: Board, k: nat)
    requires k < |b.pieces| && result.process.Some?
    modifies result
    ensures var s := FurnitureMachine.Begin(b, k, old(result.process.value));
      result.process == Some(s.process) && result.uiPrompts == old(result.uiPrompts) + s.prompts
  {
    var piece := b.pieces[k];
    ghost var before := result.uiPrompts;
    ghost var shown := [Msg(FurnitureLabel(piece.code, piece.name)), Snd(piece.filename)];
    result.AppendMessage(Some(FurnitureLabel(piece.code, piece.name)));
    result.AppendSound(piece.filename);
    PushTwo(before, [], shown[0], shown[1]);
    assert [] + shown == shown;
    assert result.uiPrompts == before + shown;
    if piece.note.None? {
      result.AppendMessage(Some("Sorry. No clue here."));
      result.AppendSound("clue_none.wav");
      result.UpdatePID(FurnitureFinish);
      PushTwo(before, shown, Msg("Sorry. No clue here."), Snd("clue_none.wav"));
      return;
    }
    var note := piece.note.value;
    if note.trapdoor {
      result.AppendMessage(Some("Oops! A trapdoor! Go to the entrance."));
      result.AppendSound("trapdoor.wav");
      result.UpdatePID(FurnitureFinish);
      PushTwo(before, shown, Msg("Oops! A trapdoor! Go to the entrance."), Snd("trapdoor.wav"));
      return;
    }
    if note.ask {
      if note.item.Some? {
        result.UpdatePID(CheckNoteItem);
      } else if note.person.Some? {
        result.UpdatePID(CheckNotePerson);
      } else {
        result.UpdatePID(CheckNoteClue);
      }
    }
  }

  /** Two prompts pushed one at a time land after what was there. */
  lemma PushTwo(before: seq<Prompt>, mid: seq<Prompt>, a: Prompt, b: Prompt)
    ensures before + mid + [a] + [b] == before + (mid + [a, b])
  {
  }

  /** State `CheckNoteClue`: a clue is taken, or the secret is next. */
  method ClueOn(result: Result, b: Board, k: nat) returns (after: Board)
    requires k < |b.pieces| && b.pieces[k].note.Some? && result.process.Some?
    modifies result
    ensures var s := FurnitureMachine.Clue(b, k, old(result.process.value.action));
      after == s.board && result.process == Some(s.process) && result.uiPrompts == old(result.uiPrompts) + s.prompts
  {
    after := b;
    if b.pieces[k].note.value.clue > 0 {
      if b.cluesFound < 10 {
        result.AppendMessage(Some("You found a clue!"));
        result.AppendSound("clue_found.wav");
      } else {
        result.AppendMessage(Some("Take a clue from another player."));
        result.AppendSound("clue_take.wav");
      }
      var note := b.pieces[k].note.value;
      var piece := b.pieces[k].(note := Some(note.(clue := note.clue - 1)));
      after := Board(b.rooms, b.pieces[k := piece], b.cluesFound + 1);
      result.UpdatePID(FurnitureFinish);
    } else {
      result.UpdatePID(CheckNoteSecret);
    }
  }

  /** The card questions and their answers. */
  method AskOn(result: Result, b: Board, process: Process, k: nat, userInput: Option<string>)
    requires k < |b.pieces| && FurnitureMachine.NoteReady(b.pieces, b.pieces[k].note, process.pid, userInput)
    requires process.pid.Some? && CheckNoteItem <= process.pid.value <= CheckNotePersonInput
    requires result.process == Some(Token(process.action, process.pid)) && result.uiPrompts == []
    modifies result
    ensures var s := FurnitureMachine.Ask(b, k, process, userInput);
      result.process == Some(s.process) && result.uiPrompts == s.prompts
  {
    var note := b.pieces[k].note;
    if process.pid == Some(CheckNoteItem) {
      var item := note.value.item.value;
      result.AppendMessage(Some("Do you have the " + item.name + "?"));
      result.AppendSound("ask_item.wav");
      result.AppendSound(item.Filename());
      result.AppendMessage(Some("y/n: "));
      assert result.uiPrompts == [Msg("Do you have the " + item.name + "?"), Snd("ask_item.wav"), Snd(item.Filename()), Msg("y/n: ")];
      result.UpdatePID(CheckNoteItemInput);
    } else if process.pid == Some(CheckNoteItemInput) {
      if !IsYes(userInput) {
        result.AppendMessage(Some("Sorry."));
        result.AppendSound("sorry.wav");
        result.UpdatePID(FurnitureFinish);
      } else if note.value.person.Some? {
        result.UpdatePID(CheckNotePerson);
      } else {
        result.UpdatePID(CheckNoteClue);
      }
    } else if process.pid == Some(CheckNotePerson) {
      result.AppendMessage(Some("Is the [object Object] with you?"));
      result.AppendSound("ask_person_1.wav");
      result.AppendSound(note.value.person.value.Filename());
      result.AppendSound("ask_person_2.wav");
      result.AppendMessage(Some("y/n: "));
      assert result.uiPrompts == [Msg("Is the [object Object] with you?"), Snd("ask_person_1.wav"),
        Snd(note.value.person.value.Filename()), Snd("ask_person_2.wav"), Msg("y/n: ")];
      result.UpdatePID(CheckNotePersonInput);
    } else {
      if !IsYes(userInput) {
        result.AppendMessage(Some("Sorry."));
        result.AppendSound("sorry.wav");
        result.UpdatePID(FurnitureFinish);
      } else {
        result.UpdatePID(CheckNoteClue);
      }
    }
  }

  /** The secret, the hints, the win, and the states that match nothing. */
  method HintOn(result: Result, b: Board, process: Process, k: nat)
    requires k < |b.pieces| && FurnitureMachine.NoteReady(b.pieces, b.pieces[k].note, process.pid, None)
    requires result.process == Some(Token(process.action, process.pid)) && result.uiPrompts == []
    modifies result
    ensures var s := FurnitureMachine.Hint(b, k, process);
      result.process == Some(s.process) && result.uiPrompts == s.prompts
  {
    var note := b.pieces[k].note;
    if process.pid == Some(CheckNoteSecret) {
      if note.value.secret.Some? && note.value.secret.value != "" {
        result.AppendMessage(Some("***[SECRET MESSAGE]***"));
        result.AppendSound("secret.wav");
        result.AppendMessage(Some("Press Enter to view."));
        assert result.uiPrompts == [Msg("***[SECRET MESSAGE]***"), Snd("secret.wav"), Msg("Press Enter to view.")];
        result.UpdatePID(CheckNoteSecretInput);
      } else {
        result.UpdatePID(CheckNoteLookIn);
      }
    } else if process.pid == Some(CheckNoteSecretInput) {
      result.AppendMessage(note.value.secret);
      result.UpdatePID(FurnitureFinish);
    } else if process.pid == Some(CheckNoteLookIn) {
      var t := FurnitureMachine.Target(b.pieces, note.value.lookIn.value);
      result.AppendMessage(Some("Look in the " + t.name + " for a clue."));
      result.AppendSound("hint_look_1.wav");
      result.AppendSound(t.filename);
      result.AppendSound("hint_look_2.wav");
      assert result.uiPrompts == [Msg("Look in the " + t.name + " for a clue."), Snd("hint_look_1.wav"), Snd(t.filename), Snd("hint_look_2.wav")];
      result.UpdatePID(CheckNoteNotIn);
    } else if process.pid == Some(CheckNoteNotIn) {
      var t := FurnitureMachine.Target(b.pieces, note.value.notIn.value);
      result.AppendMessage(Some("The money is not in the " + t.name + "."));
      result.AppendSound("hint_not_in.wav");
      result.AppendSound(t.filename);
      assert result.uiPrompts == [Msg("The money is not in the " + t.name + "."), Snd("hint_not_in.wav"), Snd(t.filename)];
      result.UpdatePID(CheckNoteMoney);
    } else if process.pid == Some(CheckNoteMoney) {
      result.AppendMessage(Some("You found the money! You WIN!"));
      result.AppendSound("win.wav");
      result.UpdatePID(BaseCase);
    } else if process.pid == Some(BaseCase) {
      result.AppendMessage(Some("Sorry. No clue here."));
      result.AppendSound("clue_none");
      result.UpdatePID(FurnitureFinish);
    }
  }

  /** Exploring a piece keeps a valid board valid, leaves the rooms alone
      and conserves the clues. */
  lemma FurnitureExploreValid(b: Board, process: Process, code: Option<int>, userInput: Option<string>)
    requires ValidBoard(b) && FurnitureMachine.Ready(b, process, code, userInput)
    ensures var after := FurnitureMachine.Explore(b, process, code, userInput).board;
      ValidBoard(after) && after.rooms == b.rooms
  {
    FurnitureMachine.ExploreConservesClues(b, process, code, userInput);
  }

  /** Exploring a room keeps a valid board valid, and changes nothing but
      the rooms. */
  lemma RoomExploreValid(b: Board, process: Process, roomCode: Option<int>, userInput: Option<string>)
    requires ValidBoard(b)
    ensures var after := RoomMachine.Explore(b, process, roomCode, userInput).board;
      ValidBoard(after) && after == b.(rooms := after.rooms)
  {
    RoomMachine.ExploreOnlyUnlocks(b, process, roomCode, userInput);
    var after := RoomMachine.Explore(b, process, roomCode, userInput).board;
    assert Map(after.rooms, CodeOf) == Map(b.rooms, CodeOf);
  }

  /** The game's pieces carry the catalog's codes, distinct and enough for
      the notes, and the built rooms can be furnished from them. */
  lemma ConstructedCodes(table: seq<Entry>, codes: seq<int>, pieces: seq<PieceState>)
    requires CatalogOrder(table, codes) && Distinct(codes) && |codes| >= NoteCount && pieces == CatalogPieces(table)
    ensures Codes(pieces) == codes && Distinct(Codes(pieces)) && |pieces| >= NoteCount
  {
    var c := Codes(pieces);
    forall i | 0 <= i < |c| ensures c[i] == codes[i] {
      assert c[i] == table[i].code;
    }
    assert c == codes;
  }

  /** The popped code belongs to exactly one piece, which the lookup by
      code finds. */
  lemma PoolPiece(start: seq<PieceState>, pieces: seq<PieceState>, pool: seq<int>, code: int)
    requires Distinct(Codes(start)) && multiset(pool) == multiset(Codes(start)) && code in pool
    requires |pieces| == |start| && forall i :: 0 <= i < |start| ==> pieces[i].code == start[i].code
    ensures PieceIndex(pieces, code).Some?
    ensures forall i :: 0 <= i < |start| && i != PieceIndex(pieces, code).value ==> start[i].code != code
  {
    assert code in multiset(Codes(start));
    var i :| 0 <= i < |start| && Codes(start)[i] == code;
    assert pieces[i].code == code;
    var p := PieceIndex(pieces, code).value;
    forall j | 0 <= j < |start| && j != p ensures start[j].code != code {
      assert Codes(start)[j] != Codes(start)[p];
    }
  }

  /** A picked number is exactly one room's, which the lookup by number
      finds; locking that room adds the number to the locked ones. */
  lemma LockTarget(start: seq<RoomState>, rooms: seq<RoomState>, picks: seq<int>, j: nat)
    requires Distinct(Map(start, CodeOf)) && j < |picks|
    requires forall x :: x in picks ==> x in Map(start, CodeOf)
    requires rooms == Locked(start, picks[..j])
    ensures RoomIndex(rooms, picks[j]).Some?
    ensures var k := RoomIndex(rooms, picks[j]).value;
      rooms[k := rooms[k].(locked := true)] == Locked(start, picks[..j + 1])
  {
    var x := picks[j];
    assert x in picks;
    var i :| 0 <= i < |start| && Map(start, CodeOf)[i] == x;
    assert rooms[i].code == x;
    var k := RoomIndex(rooms, x).value;
    var after, want := rooms[k := rooms[k].(locked := true)], Locked(start, picks[..j + 1]);
    assert picks[..j + 1] == picks[..j] + [x];
    forall m | 0 <= m < |start| ensures after[m] == want[m] {
      if m != k {
        assert Map(start, CodeOf)[m] != Map(start, CodeOf)[k];
      }
    }
  }

  /** After the hand-out over bare catalog pieces, every piece carries the
      note `NoteFor` gives its code: the catalog with its notes. */
  lemma NotesLanded(table: seq<Entry>, codes: seq<int>, bare: seq<PieceState>, pieces: seq<PieceState>,
                    rooms: seq<RoomState>, g: Rng, coins: nat -> bool)
    requires CatalogShape(table, codes) && bare == CatalogPieces(table) && |rooms| > 0
    requires var shuffled := Shuffle(codes, g);
      NotesApplied(bare, pieces, shuffled.0, NotesFor(rooms, shuffled.0, shuffled.1, coins), NoteCount)
    ensures var shuffled := Shuffle(codes, g);
      pieces == NotedPieces(table, shuffled.0, NotesFor(rooms, shuffled.0, shuffled.1, coins))
  {
    var shuffled := Shuffle(codes, g);
    var pool := shuffled.0;
    var notes := NotesFor(rooms, pool, shuffled.1, coins);
    var r := NotedPieces(table, pool, notes);
    forall i | 0 <= i < |pieces| ensures pieces[i] == r[i] {
      if bare[i].code !in pool[|pool| - NoteCount..] {
        NoteForUnpopped(pool, notes, bare[i].code);
      }
    }
  }
}
