/** The seeded construction of the rooms, as functions of the draw source:
    `buildRooms` and `furnishRoomsSmart` (src/app/core/models/game.ts:199-279). */
module Setup {
  import opened Wrappers
  import opened Seqs
  import opened Draws
  import opened Catalog
  import opened Boards
  import opened Furnish
  import opened Rooms

  const MismatchMessage: string := "The number of room names and room numbers does not match."

  /** A fresh room from a table line and a room number: unlocked, holding its pre-placed pieces. */
  function NewRoom(spec: RoomSpec, code: int): RoomState {
    RoomState(spec.name, code, spec.furnitureCodes, false, RoomFilename(spec.name))
  }

  /** The rooms `buildRooms` makes once the numbers are shuffled: line `i`
      of the table gets number `i`, and tables of different lengths fail. */
  function PlanRooms(table: seq<RoomSpec>, codes: seq<int>): Outcome<seq<RoomState>> {
    if |table| != |codes| then Fail(MismatchMessage)
    else Ok(Paired(table, codes))
  }

  /** Line `i` of the table made into a room with number `i`. */
  function Paired(table: seq<RoomSpec>, codes: seq<int>): (r: seq<RoomState>)
    requires |table| == |codes|
    ensures |r| == |table|
    ensures forall i :: 0 <= i < |table| ==> r[i] == NewRoom(table[i], codes[i])
  {
    if table == [] then [] else [NewRoom(table[0], codes[0])] + Paired(table[1..], codes[1..])
  }

  /** The plan fails exactly on a length mismatch; otherwise room `i` carries
      line `i`'s name and pieces, number `i`, and no lock. */
  lemma PlanRoomsCases(table: seq<RoomSpec>, codes: seq<int>)
    ensures PlanRooms(table, codes).Fail? <==> |table| != |codes|
    ensures PlanRooms(table, codes).Ok? ==>
      var rooms := PlanRooms(table, codes).value;
      && |rooms| == |table|
      && forall i :: 0 <= i < |table| ==>
           && rooms[i].name == table[i].name && rooms[i].code == codes[i]
           && rooms[i].furnitureCodes == table[i].furnitureCodes && !rooms[i].locked
  {
  }

  /** `buildRooms`: shuffle the nine numbers, then plan the rooms. */
  function BuildRooms(g: Rng): (r: (Outcome<seq<RoomState>>, Rng))
    ensures r.1 == g.Skip(|RoomCodes|)
    ensures r.0.Ok? ==> |r.0.value| == |RoomTable|
  {
    var (codes, g') := Shuffle(RoomCodes, g);
    (PlanRooms(RoomTable, codes), g')
  }

  /** What `buildRooms` as written does, from the game's own room list
      (`None` while it is unset): after the shuffle and the length check it
      pushes each room onto that list instead of the one it returns.  The
      result is the returned list and the game's list afterwards. */
  function BuildRoomsAsWritten(current: Option<seq<RoomState>>, g: Rng): (r: (Outcome<(seq<RoomState>, seq<RoomState>)>, Rng))
    ensures current.None? ==> r.0.Fail?
    ensures r.0.Ok? ==> r.0.value.0 == [] && |r.0.value.1| == |current.value| + |RoomTable|
  {
    var (codes, g') := Shuffle(RoomCodes, g);
    match PlanRooms(RoomTable, codes)
    case Fail(e) => (Fail(e), g')
    case Ok(rooms) =>
      if current.None? then (Fail(PushOnUnsetMessage), g')
      else (Ok(([], current.value + rooms)), g')
  }

  /** The error a push onto the unset list raises. */
  const PushOnUnsetMessage: string := "Cannot read properties of undefined (reading 'push')"

  /** The constructor calls `buildRooms` before the game has a room list, so
      as written the call always fails; on an existing list the rooms are
      appended there and the list returned is empty. */
  lemma {:induction false} BuildRoomsAsWrittenLosesRooms(current: Option<seq<RoomState>>, g: Rng)
    ensures BuildRooms(g).0.Ok?
    ensures current.None? ==> BuildRoomsAsWritten(current, g).0 == Fail(PushOnUnsetMessage)
    ensures current.Some? ==> BuildRoomsAsWritten(current, g).0 == Ok(([], current.value + BuildRooms(g).0.value))
  {
    BuildRoomsPermutes(g);
  }

  function CodeOf(r: RoomState): int {
    r.code
  }

  function FurnitureOf(r: RoomState): seq<int> {
    r.furnitureCodes
  }

  /** The rooms' furniture lists, in room order. */
  function Layout(rooms: seq<RoomState>): seq<seq<int>> {
    Map(rooms, FurnitureOf)
  }

  /** A planned room list carries the numbers in order, the table's names
      and pieces, and no lock. */
  lemma PlannedRooms(table: seq<RoomSpec>, codes: seq<int>)
    requires |table| == |codes|
    ensures var rooms := PlanRooms(table, codes).value;
      && Map(rooms, CodeOf) == codes
      && Layout(rooms) == Map(table, SpecCodes)
      && forall i :: 0 <= i < |table| ==> rooms[i].name == table[i].name && !rooms[i].locked
  {
  }

  /** Shuffling distinct numbers and planning rooms with them gives rooms
      with those numbers, each once. */
  lemma ShuffledPlan(table: seq<RoomSpec>, codes: seq<int>, g: Rng)
    requires |table| == |codes| && Distinct(codes)
    ensures var (c, g') := Shuffle(codes, g);
      var r := PlanRooms(table, c);
      && r.Ok? && |r.value| == |table| && g' == g.Skip(|codes|)
      && multiset(Map(r.value, CodeOf)) == multiset(codes)
      && Distinct(Map(r.value, CodeOf))
      && Layout(r.value) == Map(table, SpecCodes)
      && forall i :: 0 <= i < |table| ==> r.value[i].name == table[i].name && !r.value[i].locked
  {
    var (c, g') := Shuffle(codes, g);
    PlannedRooms(table, c);
    ShufflePermutes(codes, g);
    ShufflePreservesDistinct(codes, g);
  }

  /** The built rooms carry the nine numbers, each once, in the order nine
      draws put them; their pieces are the pre-placed ones. */
  lemma BuildRoomsPermutes(g: Rng)
    ensures var (r, g') := BuildRooms(g);
      && r.Ok? && |r.value| == 9 && g' == g.Skip(9)
      && multiset(Map(r.value, CodeOf)) == multiset(RoomCodes)
      && Distinct(Map(r.value, CodeOf))
      && Layout(r.value) == Map(RoomTable, SpecCodes)
      && forall i :: 0 <= i < 9 ==> r.value[i].name == RoomTable[i].name && !r.value[i].locked
  {
    RoomCodesDistinct();
    ShuffledPlan(RoomTable, RoomCodes, g);
  }

  /** The catalog codes no room holds yet, in catalog order. */
  function Leftover(rooms: seq<RoomState>, codes: seq<int>): seq<int> {
    RemoveEach(codes, Flatten(Layout(rooms)))
  }

  /** The rooms have space for every leftover code, so the dealing loop ends. */
  predicate CanFurnish(rooms: seq<RoomState>, codes: seq<int>) {
    FreeSpace(Layout(rooms)) >= |Leftover(rooms, codes)|
  }

  /** Shuffling the rooms leaves their free space as it was. */
  lemma ShuffledSpace(rooms: seq<RoomState>, g: Rng)
    ensures FreeSpace(Layout(Shuffle(rooms, g).0)) == FreeSpace(Layout(rooms))
    ensures multiset(Layout(Shuffle(rooms, g).0)) == multiset(Layout(rooms))
  {
    ShufflePermutes(rooms, g);
    MapPermutation(Shuffle(rooms, g).0, rooms, FurnitureOf);
    SumOfPermutation(Layout(Shuffle(rooms, g).0), Layout(rooms), RoomFree);
  }

  /** The rooms with dealt lists put in. */
  function WithLayout(rooms: seq<RoomState>, layout: seq<seq<int>>): (r: seq<RoomState>)
    requires |layout| == |rooms|
    ensures |r| == |rooms| && Layout(r) == layout
    ensures forall i :: 0 <= i < |rooms| ==> r[i] == rooms[i].(furnitureCodes := layout[i])
  {
    seq(|rooms|, i requires 0 <= i < |rooms| => rooms[i].(furnitureCodes := layout[i]))
  }

  /** `furnishRoomsSmart`: drop the placed codes, shuffle the leftovers (one
      draw each), shuffle the rooms (one draw each), and deal. */
  function FurnishRooms(rooms: seq<RoomState>, codes: seq<int>, g: Rng): (r: (seq<RoomState>, Rng))
    requires CanFurnish(rooms, codes)
    ensures |r.0| == |rooms|
    ensures r.1 == g.Skip(|Leftover(rooms, codes)| + |rooms|)
  {
    var (sc, g1) := Shuffle(Leftover(rooms, codes), g);
    var (sr, g2) := Shuffle(rooms, g1);
    ShuffledSpace(rooms, g1);
    ShufflePermutes(rooms, g1);
    (WithLayout(sr, Deal(Layout(sr), sc)), g2)
  }

  /** Furnishing rooms that hold some of the codes leaves them holding all
      of the codes, each exactly as often as the list holds it. */
  lemma FurnishRoomsCovers(rooms: seq<RoomState>, codes: seq<int>, g: Rng)
    requires CanFurnish(rooms, codes)
    requires multiset(Flatten(Layout(rooms))) <= multiset(codes)
    ensures var (r, g') := FurnishRooms(rooms, codes, g);
      && |r| == |rooms|
      && g' == g.Skip(|Leftover(rooms, codes)| + |rooms|)
      && multiset(Flatten(Layout(r))) == multiset(codes)
  {
    var (sc, g1) := Shuffle(Leftover(rooms, codes), g);
    var (sr, g2) := Shuffle(rooms, g1);
    ShuffledSpace(rooms, g1);
    ShufflePermutes(rooms, g1);
    var dealt := Deal(Layout(sr), sc);
    assert FurnishRooms(rooms, codes, g) == (WithLayout(sr, dealt), g2);
    ShufflePermutes(Leftover(rooms, codes), g);
    DealtCover(rooms, sr, codes, sc, dealt);
  }

  /** The bookkeeping behind `FurnishRoomsCovers`: dealing a permutation of
      the leftovers over a permutation of the rooms covers the codes. */
  lemma DealtCover(rooms: seq<RoomState>, sr: seq<RoomState>, codes: seq<int>, sc: seq<int>, dealt: seq<seq<int>>)
    requires multiset(sr) == multiset(rooms)
    requires multiset(sc) == multiset(Leftover(rooms, codes))
    requires FreeSpace(Layout(sr)) >= |sc| && dealt == Deal(Layout(sr), sc)
    requires multiset(Flatten(Layout(rooms))) <= multiset(codes)
    ensures multiset(Flatten(dealt)) == multiset(codes)
  {
    var placed := multiset(Flatten(Layout(rooms)));
    assert multiset(sc) == multiset(codes) - placed by {
      RemoveEachMultiset(codes, Flatten(Layout(rooms)));
    }
    assert multiset(Flatten(Layout(sr))) == placed by {
      MapPermutation(sr, rooms, FurnitureOf);
      FlattenPermutation(Layout(sr), Layout(rooms));
    }
    DealtMultiset(Layout(sr), sc);
    MultisetRestore(multiset(codes), placed);
  }

  /** Dealing adds exactly the dealt codes to the layout. */
  lemma DealtMultiset(layout: seq<seq<int>>, codes: seq<int>)
    requires FreeSpace(layout) >= |codes|
    ensures multiset(Flatten(Deal(layout, codes))) == multiset(Flatten(layout)) + multiset(codes)
  {
    DealProperties(layout, codes);
  }

  lemma MultisetRestore(m: multiset<int>, p: multiset<int>)
    requires p <= m
    ensures (m - p) + p == m
  {
    assert forall y :: ((m - p) + p)[y] == m[y];
  }

  /** Dealing codes into rooms with space for them furnishes each room. */
  lemma DealtFurnished(rooms: seq<RoomState>, codes: seq<int>)
    requires FreeSpace(Layout(rooms)) >= |codes|
    ensures var r := WithLayout(rooms, Deal(Layout(rooms), codes));
      forall i :: 0 <= i < |rooms| ==> Furnished(rooms[i], r[i])
  {
    DealProperties(Layout(rooms), codes);
    var r := WithLayout(rooms, Deal(Layout(rooms), codes));
    forall i | 0 <= i < |rooms| ensures Furnished(rooms[i], r[i]) {
      assert Layout(rooms)[i] == rooms[i].furnitureCodes;
    }
  }

  /** Every furnished room is one of the rooms it started as, keeping its
      pieces as a prefix and dealt up to four at most. */
  lemma FurnishRoomsKeepsRooms(rooms: seq<RoomState>, codes: seq<int>, g: Rng)
    requires CanFurnish(rooms, codes)
    ensures var r := FurnishRooms(rooms, codes, g).0;
      forall i :: 0 <= i < |r| ==>
        exists j :: 0 <= j < |rooms| && Furnished(rooms[j], r[i])
  {
    var (sc, g1) := Shuffle(Leftover(rooms, codes), g);
    var (sr, g2) := Shuffle(rooms, g1);
    ShuffledSpace(rooms, g1);
    ShufflePermutes(rooms, g1);
    var r := FurnishRooms(rooms, codes, g).0;
    DealtFurnished(sr, sc);
    forall i | 0 <= i < |r| ensures exists j :: 0 <= j < |rooms| && Furnished(rooms[j], r[i]) {
      assert sr[i] in multiset(rooms);
      var j :| 0 <= j < |rooms| && rooms[j] == sr[i];
    }
  }

  /** Furnishing reorders the rooms but keeps their numbers. */
  lemma FurnishRoomsKeepsCodes(rooms: seq<RoomState>, codes: seq<int>, g: Rng)
    requires CanFurnish(rooms, codes)
    ensures multiset(Map(FurnishRooms(rooms, codes, g).0, CodeOf)) == multiset(Map(rooms, CodeOf))
  {
    var (sc, g1) := Shuffle(Leftover(rooms, codes), g);
    var (sr, g2) := Shuffle(rooms, g1);
    ShuffledSpace(rooms, g1);
    ShufflePermutes(rooms, g1);
    var r := FurnishRooms(rooms, codes, g).0;
    assert r == WithLayout(sr, Deal(Layout(sr), sc));
    assert Map(r, CodeOf) == Map(sr, CodeOf);
    MapPermutation(sr, rooms, CodeOf);
  }

  /** `after` is `before` with pieces dealt on top of its own, up to four
      unless it already held more. */
  ghost predicate Furnished(before: RoomState, after: RoomState) {
    && after == before.(furnitureCodes := after.furnitureCodes)
    && before.furnitureCodes <= after.furnitureCodes
    && (|after.furnitureCodes| <= Capacity || after.furnitureCodes == before.furnitureCodes)
  }

  /** Distinct codes spread over rooms so that each is held once lie each in
      exactly one room, and the rooms hold nothing else. */
  lemma EachCodeInOneRoom(rooms: seq<RoomState>, codes: seq<int>)
    requires Distinct(codes)
    requires multiset(Flatten(Layout(rooms))) == multiset(codes)
    ensures forall c :: c in codes ==> exists i :: 0 <= i < |rooms| && c in rooms[i].furnitureCodes
    ensures forall c, i, j ::
              0 <= i < |rooms| && 0 <= j < |rooms| && c in rooms[i].furnitureCodes && c in rooms[j].furnitureCodes
              ==> i == j
    ensures forall c, i :: 0 <= i < |rooms| && c in rooms[i].furnitureCodes ==> c in codes
  {
    var l := Layout(rooms);
    forall c | c in codes ensures exists i :: 0 <= i < |rooms| && c in rooms[i].furnitureCodes {
      assert c in multiset(Flatten(l));
      InFlatten(l, c);
      var i :| 0 <= i < |l| && c in l[i];
    }
    forall c, i, j | 0 <= i < |rooms| && 0 <= j < |rooms| &&
        c in rooms[i].furnitureCodes && c in rooms[j].furnitureCodes
      ensures i == j
    {
      DistinctCountsOne(codes, c);
      assert l[i] == rooms[i].furnitureCodes && l[j] == rooms[j].furnitureCodes;
      if i < j {
        FlattenTwice(l, c, i, j);
      } else if j < i {
        FlattenTwice(l, c, j, i);
      }
    }
    forall c, i | 0 <= i < |rooms| && c in rooms[i].furnitureCodes ensures c in codes {
      assert l[i] == rooms[i].furnitureCodes;
      InFlatten(l, c);
      assert c in multiset(codes);
    }
  }

  /** The pre-placed pieces, room by room, in table order. */
  const StartLayout: seq<seq<int>> := [[121, 122], [123, 124], [132, 133, 134, 141], [213], [142, 143], [131], [144],
                                       [111, 112, 113], [211, 212]]

  lemma StartLayoutFromTable()
    ensures Map(RoomTable, SpecCodes) == StartLayout
  {
  }

  /** The room table leaves 18 places free. */
  lemma StartLayoutSpace()
    ensures FreeSpace(StartLayout) == 18
  {
  }

  /** Taking out codes the list holds shortens it by their number. */
  lemma RemoveEachCount(codes: seq<int>, placed: seq<int>)
    requires multiset(placed) <= multiset(codes)
    ensures |RemoveEach(codes, placed)| == |codes| - |placed|
  {
    RemoveEachMultiset(codes, placed);
    var c := multiset(codes);
    var p := multiset(placed);
    assert (c - p) + p == c by {
      assert forall y :: ((c - p) + p)[y] == c[y];
    }
  }

  /** Rooms holding `placed` codes out of `codes`, with room for the rest,
      can be furnished from them. */
  lemma CanFurnishBySize(rooms: seq<RoomState>, codes: seq<int>)
    requires multiset(Flatten(Layout(rooms))) <= multiset(codes)
    requires FreeSpace(Layout(rooms)) >= |codes| - |Flatten(Layout(rooms))|
    ensures |Leftover(rooms, codes)| == |codes| - |Flatten(Layout(rooms))|
    ensures CanFurnish(rooms, codes)
  {
    RemoveEachCount(codes, Flatten(Layout(rooms)));
  }

  /** Rooms laid out as the table holds the pre-placed pieces, with 18 places
      free. */
  lemma TableLayout(rooms: seq<RoomState>)
    requires Layout(rooms) == Map(RoomTable, SpecCodes)
    ensures Flatten(Layout(rooms)) == PrePlaced
    ensures FreeSpace(Layout(rooms)) == 18
  {
    PrePlacedFromTable();
    StartLayoutFromTable();
    StartLayoutSpace();
  }

  /** The room table has 18 free places and leaves 17 catalog pieces to
      deal, so freshly built rooms can always be furnished. */
  lemma TableCanFurnish(rooms: seq<RoomState>)
    requires Layout(rooms) == Map(RoomTable, SpecCodes)
    ensures |Leftover(rooms, CatalogCodes)| == 17
    ensures CanFurnish(rooms, CatalogCodes)
    ensures multiset(Flatten(Layout(rooms))) <= multiset(CatalogCodes)
  {
    TableLayout(rooms);
    PrePlacedInCatalog();
    CatalogCodesAt();
    CanFurnishBySize(rooms, CatalogCodes);
  }
}
