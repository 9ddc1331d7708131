/** A new game as a function of the seeded draw source and the unseeded coin
    flips: what the `Game` constructor builds
    (src/app/core/models/game.ts:24-36).  The rooms are built, furnished,
    and the notes handed out; the constructor never calls `lockRooms`, so
    every room starts unlocked. */
module NewGame {
  import opened Wrappers
  import opened Seqs
  import opened Draws
  import opened Notes
  import opened Catalog
  import opened Boards
  import opened Furnish
  import opened Setup
  import opened NotePlan
  import opened Furnishings
  import opened FurnitureMachine

  function RoomName(r: RoomState): string {
    r.name
  }

  /** Catalog line `e` as a piece carrying `note`. */
  function PieceOf(e: Entry, note: Option<NoteView>): PieceState {
    PieceState(e.name, e.code, FurnitureFilename(e.name), note)
  }

  /** The note each code ends up with after the hand-out. */
  function NoteLookup(pool: seq<int>, notes: seq<NoteView>): int -> Option<NoteView> {
    (c: int) => NoteFor(pool, notes, c)
  }

  /** The catalog in catalog order, each piece with the note it received. */
  function NotedPieces(table: seq<Entry>, pool: seq<int>, notes: seq<NoteView>): (r: seq<PieceState>)
    ensures |r| == |table|
    ensures forall i :: 0 <= i < |table| ==> r[i] == PieceOf(table[i], NoteFor(pool, notes, table[i].code))
  {
    seq(|table|, i requires 0 <= i < |table| => PieceOf(table[i], NoteFor(pool, notes, table[i].code)))
  }
  /** `table` lists `codes` in order. */
  predicate CatalogOrder(table: seq<Entry>, codes: seq<int>) {
    |table| == |codes| && forall i :: 0 <= i < |table| ==> table[i].code == codes[i]
  }

  /** A catalog like the game's: its lines list 35 distinct codes, among
      them every pre-placed one. */
  ghost predicate CatalogShape(table: seq<Entry>, codes: seq<int>) {
    && CatalogOrder(table, codes) && Distinct(codes) && |codes| == 35
    && forall c :: c in PrePlaced ==> c in codes
  }

  /** The pre-placed codes differ, so a list holding each of them holds
      them all at once. */
  lemma PrePlacedIncluded(codes: seq<int>)
    requires forall c :: c in PrePlaced ==> c in codes
    ensures multiset(PrePlaced) <= multiset(codes)
  {
    PrePlacedDistinct();
    SubMultiset(PrePlaced, codes);
  }

  /** The game's own catalog has that shape. */
  lemma CatalogShaped()
    ensures CatalogShape(FurnitureTable, CatalogCodes)
  {
    CatalogCodesAt();
    CatalogCodesDistinct();
    forall c | c in PrePlaced ensures c in CatalogCodes {
      PrePlacedMember(c);
    }
  }

  /** The board a new game sets up over its own catalog. */
  function GameBoard(g: Rng, coins: nat -> bool): (r: (Board, Rng))
    ensures r.1 == g.Skip(SetupDraws)
    ensures |r.0.rooms| == |RoomTable| && |r.0.pieces| == |FurnitureTable| && r.0.cluesFound == 0
  {
    CatalogShaped();
    NewBoard(FurnitureTable, CatalogCodes, g, coins)
  }

  /** What a game keeps true between calls: nine rooms with distinct
      numbers, every listed code and every hint a known piece, and no
      negative clue count. */
  ghost predicate ValidBoard(b: Board) {
    && |b.rooms| == 9 && Distinct(Map(b.rooms, CodeOf))
    && References(b) && CluesNonNegative(b)
  }

  /** Seeded draws a new game takes: 9 room numbers, 17 leftover pieces,
      9 rooms, 35 pool pieces and 18 note choices. */
  const SetupDraws := 88

  /** The notes a new game hands out, once the rooms are furnished and the
      pool shuffled; secret notes name rooms of the furnished room list. */
  function NotesFor(rooms: seq<RoomState>, pool: seq<int>, g: Rng, coins: nat -> bool): (r: seq<NoteView>)
    requires |pool| >= NoteCount && |rooms| > 0
    ensures |r| == NoteCount
  {
    PopNotes(pool, Deck(Items, People, Map(rooms, RoomName)), g, coins)
  }

  /** The constructor once the rooms are built: furnish them from the
      catalog `table` (whose codes are `codes`), shuffle the codes into the
      note pool and hand out the notes. */
  function Assemble(table: seq<Entry>, codes: seq<int>, built: seq<RoomState>, g: Rng, coins: nat -> bool): (r: (Board, Rng))
    requires CanFurnish(built, codes) && |built| > 0 && |codes| >= NoteCount
    ensures |r.0.rooms| == |built| && |r.0.pieces| == |table| && r.0.cluesFound == 0
    ensures r.1 == g.Skip(|Leftover(built, codes)| + |built| + |codes| + NoteDraws)
  {
    var (rooms, g2) := FurnishRooms(built, codes, g);
    var (pool, g3) := Shuffle(codes, g2);
    (Board(rooms, NotedPieces(table, pool, NotesFor(rooms, pool, g3, coins)), 0), g3.Skip(NoteDraws))
  }

  /** The constructor after the seed, over the catalog `table`: build the
      rooms, then furnish them and hand out the notes; 88 seeded draws in
      all.  Building the rooms cannot fail on the room table (`BuiltOk`).
      The game itself uses `FurnitureTable` and `CatalogCodes`. */
  function NewBoard(table: seq<Entry>, codes: seq<int>, g: Rng, coins: nat -> bool): (r: (Board, Rng))
    requires CatalogShape(table, codes)
    ensures r.1 == g.Skip(SetupDraws)
  {
    BuildsFurnishable(codes, g);
    var (built, g1) := BuildRooms(g);
    Assemble(table, codes, built.value, g1, coins)
  }

  /** The rooms built for a catalog of 35 codes that holds the pre-placed
      ones have space for the 17 codes left over. */
  lemma BuildsFurnishable(codes: seq<int>, g: Rng)
    requires |codes| == 35 && forall c :: c in PrePlaced ==> c in codes
    ensures var (built, g1) := BuildRooms(g);
      && built.Ok? && g1 == g.Skip(9) && |built.value| == 9
      && CanFurnish(built.value, codes) && |Leftover(built.value, codes)| == 17
  {
    BuildRoomsPermutes(g);
    var built := BuildRooms(g).0.value;
    TableLayout(built);
    PrePlacedInCatalog();
    PrePlacedIncluded(codes);
    CanFurnishBySize(built, codes);
  }

  /** What the assembly relies on: the table lists distinct codes, enough
      for the notes, and the built rooms hold some of them with space for
      the rest. */
  ghost predicate Ready(table: seq<Entry>, codes: seq<int>, built: seq<RoomState>) {
    && CatalogOrder(table, codes) && Distinct(codes) && |codes| >= NoteCount
    && |built| > 0 && CanFurnish(built, codes)
    && multiset(Flatten(Layout(built))) <= multiset(codes)
  }

  /** The rooms as built by a new game: nine table rooms, unlocked, in a
      rearrangement of the room numbers, holding their pre-placed pieces. */
  ghost predicate BuiltFromTable(built: seq<RoomState>) {
    && |built| == 9
    && multiset(Map(built, CodeOf)) == multiset(RoomCodes)
    && Distinct(Map(built, CodeOf))
    && forall i :: 0 <= i < 9 ==>
         built[i].name == RoomTable[i].name && !built[i].locked && built[i].furnitureCodes == RoomTable[i].furnitureCodes
  }

  /** Building the rooms of a new game always succeeds, from the table,
      and takes nine draws. */
  lemma BuiltOk(g: Rng)
    ensures BuildRooms(g).0.Ok? && BuildRooms(g).1 == g.Skip(9)
    ensures BuiltFromTable(BuildRooms(g).0.value)
  {
    BuildRoomsPermutes(g);
    var built := BuildRooms(g).0.value;
    forall i | 0 <= i < 9 ensures built[i].furnitureCodes == RoomTable[i].furnitureCodes {
      assert built[i].furnitureCodes == Layout(built)[i];
    }
  }

  /** No table room holds more pre-placed pieces than a room can take. */
  lemma TableFits()
    ensures forall j :: 0 <= j < |RoomTable| ==> |RoomTable[j].furnitureCodes| <= Capacity
  {
    StartLayoutFromTable();
    assert forall j :: 0 <= j < 9 ==> |StartLayout[j]| <= Capacity;
    forall j | 0 <= j < |RoomTable| ensures |RoomTable[j].furnitureCodes| <= Capacity {
      assert RoomTable[j].furnitureCodes == Map(RoomTable, SpecCodes)[j];
    }
  }

  /** The built rooms are laid out as the table says. */
  lemma BuiltLayout(built: seq<RoomState>)
    requires BuiltFromTable(built)
    ensures Layout(built) == Map(RoomTable, SpecCodes)
  {
    forall i | 0 <= i < 9 ensures Layout(built)[i] == Map(RoomTable, SpecCodes)[i] {
      assert Layout(built)[i] == built[i].furnitureCodes;
    }
  }

  /** The table rooms hold pre-placed catalog pieces with space for the
      rest of the catalog, which leaves 17 pieces to deal. */
  lemma BuiltReady(table: seq<Entry>, codes: seq<int>, built: seq<RoomState>)
    requires CatalogShape(table, codes) && BuiltFromTable(built)
    ensures Ready(table, codes, built)
    ensures |Leftover(built, codes)| == 17
  {
    BuiltLayout(built);
    TableLayout(built);
    PrePlacedInCatalog();
    PrePlacedIncluded(codes);
    CanFurnishBySize(built, codes);
  }

  /** A new game is the assembly over the built table rooms. */
  lemma NewBoardOk(table: seq<Entry>, codes: seq<int>, g: Rng, coins: nat -> bool) returns (built: seq<RoomState>)
    requires CatalogShape(table, codes)
    ensures BuildRooms(g).0 == Ok(built) && BuiltFromTable(built) && Ready(table, codes, built)
    ensures NewBoard(table, codes, g, coins) == Assemble(table, codes, built, g.Skip(9), coins)
  {
    BuiltOk(g);
    built := BuildRooms(g).0.value;
    BuiltReady(table, codes, built);
  }

  /** Each room of `rooms` is one of `built` with pieces added behind its
      own, within capacity, and the room numbers are the same. */
  ghost predicate KeepsRooms(built: seq<RoomState>, rooms: seq<RoomState>) {
    && |rooms| == |built|
    && multiset(Map(rooms, CodeOf)) == multiset(Map(built, CodeOf))
    && forall i :: 0 <= i < |rooms| ==>
         exists j :: 0 <= j < |built| && Furnished(built[j], rooms[i])
  }

  /** Every code of `codes` lies in exactly one room, and the rooms hold
      nothing else. */
  ghost predicate PlacesEach(rooms: seq<RoomState>, codes: seq<int>) {
    && (forall c :: c in codes ==> exists i :: 0 <= i < |rooms| && c in rooms[i].furnitureCodes)
    && (forall c, i, j :: 0 <= i < |rooms| && 0 <= j < |rooms| && c in rooms[i].furnitureCodes && c in rooms[j].furnitureCodes
          ==> i == j)
    && (forall c, i :: 0 <= i < |rooms| && c in rooms[i].furnitureCodes ==> c in codes)
  }

  /** Furnishing only fills the built rooms. */
  lemma FurnishedKeepsRooms(built: seq<RoomState>, codes: seq<int>, g: Rng)
    requires CanFurnish(built, codes)
    ensures KeepsRooms(built, FurnishRooms(built, codes, g).0)
  {
    FurnishRoomsKeepsCodes(built, codes, g);
    FurnishRoomsKeepsRooms(built, codes, g);
  }

  /** Furnishing rooms that hold some of distinct codes places each code in
      exactly one room. */
  lemma FurnishedPlacesEach(built: seq<RoomState>, codes: seq<int>, g: Rng)
    requires CanFurnish(built, codes) && Distinct(codes)
    requires multiset(Flatten(Layout(built))) <= multiset(codes)
    ensures PlacesEach(FurnishRooms(built, codes, g).0, codes)
  {
    FurnishRoomsCovers(built, codes, g);
    EachCodeInOneRoom(FurnishRooms(built, codes, g).0, codes);
  }

  /** The assembled rooms are the built rooms, filled with every code once. */
  lemma AssembleRooms(table: seq<Entry>, codes: seq<int>, built: seq<RoomState>, g: Rng, coins: nat -> bool)
    requires Ready(table, codes, built)
    ensures KeepsRooms(built, Assemble(table, codes, built, g, coins).0.rooms)
    ensures PlacesEach(Assemble(table, codes, built, g, coins).0.rooms, codes)
  {
    assert Assemble(table, codes, built, g, coins).0.rooms == FurnishRooms(built, codes, g).0;
    FurnishedKeepsRooms(built, codes, g);
    FurnishedPlacesEach(built, codes, g);
  }

  /** Each room is a table room, unlocked and holding at most four pieces,
      with its pre-placed pieces first. */
  ghost predicate TableRooms(rooms: seq<RoomState>) {
    forall i :: 0 <= i < |rooms| ==>
      && !rooms[i].locked && |rooms[i].furnitureCodes| <= Capacity
      && exists j :: 0 <= j < 9 && rooms[i].name == RoomTable[j].name && RoomTable[j].furnitureCodes <= rooms[i].furnitureCodes
  }

  /** Filling the built table rooms leaves nine table rooms, numbered by a
      rearrangement of the room numbers. */
  lemma RoomsFromTable(built: seq<RoomState>, rooms: seq<RoomState>)
    requires BuiltFromTable(built) && KeepsRooms(built, rooms)
    ensures |rooms| == 9 && TableRooms(rooms)
    ensures multiset(Map(rooms, CodeOf)) == multiset(RoomCodes) && Distinct(Map(rooms, CodeOf))
  {
    TableFits();
    forall i | 0 <= i < |rooms|
      ensures !rooms[i].locked && |rooms[i].furnitureCodes| <= Capacity
      ensures exists j :: 0 <= j < 9 && rooms[i].name == RoomTable[j].name && RoomTable[j].furnitureCodes <= rooms[i].furnitureCodes
    {
      var j :| 0 <= j < |built| && Furnished(built[j], rooms[i]);
    }
    RoomCodesDistinct();
    DistinctPermutation(RoomCodes, Map(rooms, CodeOf));
  }

  /** The rooms of a new game: nine table rooms, unlocked, numbered by a
      rearrangement of the nine room numbers, none holding more than four
      pieces, each keeping its pre-placed pieces first; and every catalog
      piece stands in exactly one room. */
  lemma NewRooms(table: seq<Entry>, codes: seq<int>, g: Rng, coins: nat -> bool)
    requires CatalogShape(table, codes)
    ensures var b := NewBoard(table, codes, g, coins).0;
      && |b.rooms| == 9 && TableRooms(b.rooms)
      && multiset(Map(b.rooms, CodeOf)) == multiset(RoomCodes) && Distinct(Map(b.rooms, CodeOf))
      && PlacesEach(b.rooms, codes)
  {
    var built := NewBoardOk(table, codes, g, coins);
    AssembleRooms(table, codes, built, g.Skip(9), coins);
    RoomsFromTable(built, NewBoard(table, codes, g, coins).0.rooms);
  }

  predicate SomeNote(o: Option<NoteView>) {
    o.Some?
  }

  predicate SomeMoney(o: Option<NoteView>) {
    o.Some? && o.value.money
  }

  function SomeClues(o: Option<NoteView>): int {
    if o.Some? then o.value.clue else 0
  }

  predicate AnyNote(n: NoteView) {
    true
  }

  function Noted(n: NoteView): Option<NoteView> {
    Some(n)
  }

  function NoteOfPiece(p: PieceState): Option<NoteView> {
    p.note
  }

  predicate HasNote(p: PieceState) {
    p.note.Some?
  }

  predicate HoldsMoney(p: PieceState) {
    p.note.Some? && p.note.value.money
  }

  /** Laid out by pool position, the notes are the pieces left in the pool
      (none) followed by the handed-out notes, last one first. */
  lemma AlignedNotes(pool: seq<int>, notes: seq<NoteView>)
    requires Distinct(pool) && |notes| <= |pool|
    ensures Map(pool, NoteLookup(pool, notes)) == Blanks(|pool| - |notes|) + Map(Rev(notes), Noted)
  {
    var pre := |pool| - |notes|;
    var a := Map(pool, NoteLookup(pool, notes));
    var b := Blanks(pre) + Map(Rev(notes), Noted);
    AlignedEach(pool, notes);
    forall i | 0 <= i < |pool| ensures a[i] == b[i] {
      if i >= pre {
        assert b[i] == Map(Rev(notes), Noted)[i - pre];
      }
    }
  }

  /** No notes. */
  function Blanks(n: nat): (r: seq<Option<NoteView>>)
    ensures |r| == n && forall i :: 0 <= i < n ==> r[i].None?
  {
    if n == 0 then [] else Blanks(n - 1) + [None]
  }

  lemma AlignedEach(pool: seq<int>, notes: seq<NoteView>)
    requires Distinct(pool) && |notes| <= |pool|
    ensures forall i :: 0 <= i < |pool| ==>
      NoteLookup(pool, notes)(pool[i]) ==
        (if i < |pool| - |notes| then None else Noted(Rev(notes)[i - (|pool| - |notes|)]))
  {
    forall i | 0 <= i < |pool|
      ensures NoteLookup(pool, notes)(pool[i]) ==
        if i < |pool| - |notes| then None else Noted(Rev(notes)[i - (|pool| - |notes|)])
    {
      NoteForAt(pool, notes, i);
    }
  }

  /** Counting over the pool's notes counts over the handed-out notes. */
  lemma NotesSpreadCount(pool: seq<int>, notes: seq<NoteView>, p: Option<NoteView> -> bool, q: NoteView -> bool)
    requires Distinct(pool) && |notes| <= |pool|
    requires !p(None) && forall n :: q(n) == p(Noted(n))
    ensures CountWhere(Map(pool, NoteLookup(pool, notes)), p) == CountWhere(notes, q)
  {
    var pre := Blanks(|pool| - |notes|);
    AlignedNotes(pool, notes);
    CountWhereAppend(pre, Map(Rev(notes), Noted), p);
    CountNone(pre, p);
    RevMultiset(notes);
    MapPermutation(Rev(notes), notes, Noted);
    CountWherePermutation(Map(Rev(notes), Noted), Map(notes, Noted), p);
    CountWhereMap(notes, Noted, p, q);
  }

  /** Summing over the pool's notes sums over the handed-out notes. */
  lemma NotesSpreadSum(pool: seq<int>, notes: seq<NoteView>, f: Option<NoteView> -> int, h: NoteView -> int)
    requires Distinct(pool) && |notes| <= |pool|
    requires f(None) == 0 && forall n :: h(n) == f(Noted(n))
    ensures SumOf(Map(pool, NoteLookup(pool, notes)), f) == SumOf(notes, h)
  {
    var pre := Blanks(|pool| - |notes|);
    AlignedNotes(pool, notes);
    SumOfAppend(pre, Map(Rev(notes), Noted), f);
    SumOfConst(pre, f, 0);
    RevMultiset(notes);
    MapPermutation(Rev(notes), notes, Noted);
    SumOfPermutation(Map(Rev(notes), Noted), Map(notes, Noted), f);
    SumOfMap(notes, Noted, f, h);
  }

  /** The catalog pieces' notes are the pool's notes, rearranged. */
  lemma PieceNotes(table: seq<Entry>, codes: seq<int>, pool: seq<int>, notes: seq<NoteView>)
    requires CatalogOrder(table, codes) && multiset(pool) == multiset(codes)
    ensures multiset(Map(NotedPieces(table, pool, notes), NoteOfPiece)) == multiset(Map(pool, NoteLookup(pool, notes)))
  {
    assert Map(NotedPieces(table, pool, notes), NoteOfPiece) == Map(codes, NoteLookup(pool, notes));
    MapPermutation(codes, pool, NoteLookup(pool, notes));
  }

  /** Handing the notes out over a shuffle of distinct catalog codes puts
      every note on a catalog piece: as many pieces carry a note as there
      are notes, as many carry money as money notes, and the clues on the
      pieces are the clues on the notes. */
  lemma PiecesCarryNotes(table: seq<Entry>, codes: seq<int>, pool: seq<int>, notes: seq<NoteView>)
    requires CatalogOrder(table, codes) && Distinct(codes)
    requires multiset(pool) == multiset(codes) && |notes| <= |pool|
    ensures var pieces := NotedPieces(table, pool, notes);
      && CountWhere(pieces, HasNote) == |notes|
      && CountWhere(pieces, HoldsMoney) == CountWhere(notes, IsMoney)
      && SumOf(pieces, ClueOf) == SumOf(notes, Clues)
  {
    var pieces := NotedPieces(table, pool, notes);
    DistinctPermutation(codes, pool);
    var pn := Map(pieces, NoteOfPiece);
    var an := Map(pool, NoteLookup(pool, notes));
    PieceNotes(table, codes, pool, notes);
    assert CountWhere(pieces, HasNote) == |notes| by {
      CountWhereMap(pieces, NoteOfPiece, SomeNote, HasNote);
      CountWherePermutation(pn, an, SomeNote);
      NotesSpreadCount(pool, notes, SomeNote, AnyNote);
      CountAll(notes, AnyNote);
    }
    assert CountWhere(pieces, HoldsMoney) == CountWhere(notes, IsMoney) by {
      CountWhereMap(pieces, NoteOfPiece, SomeMoney, HoldsMoney);
      CountWherePermutation(pn, an, SomeMoney);
      NotesSpreadCount(pool, notes, SomeMoney, IsMoney);
    }
    assert SumOf(pieces, ClueOf) == SumOf(notes, Clues) by {
      SumOfMap(pieces, NoteOfPiece, SomeClues, ClueOf);
      SumOfPermutation(pn, an, SomeClues);
      NotesSpreadSum(pool, notes, SomeClues, Clues);
    }
  }

  /** The assembled pieces are the catalog in order; 26 of them carry a
      note, exactly one of them the money, and 24 clues lie on the board. */
  lemma AssemblePieces(table: seq<Entry>, codes: seq<int>, built: seq<RoomState>, g: Rng, coins: nat -> bool)
    requires Ready(table, codes, built)
    ensures var b := Assemble(table, codes, built, g, coins).0;
      && |b.pieces| == |table|
      && (forall i :: 0 <= i < |table| ==> b.pieces[i].code == codes[i] && b.pieces[i].name == table[i].name)
      && CountWhere(b.pieces, HasNote) == NoteCount
      && CountWhere(b.pieces, HoldsMoney) == 1
      && CluesLeft(b) == 24
  {
    var (rooms, g2) := FurnishRooms(built, codes, g);
    var (pool, g3) := Shuffle(codes, g2);
    var notes := NotesFor(rooms, pool, g3, coins);
    var deck := Deck(Items, People, Map(rooms, RoomName));
    assert Assemble(table, codes, built, g, coins).0.pieces == NotedPieces(table, pool, notes);
    ShufflePermutes(codes, g2);
    PiecesCarryNotes(table, codes, pool, notes);
    OneMoneyNote(pool, deck, g3, coins);
    CluesTotal(pool, deck, g3, coins);
  }

  /** The pieces of a new game: the catalog in order; 26 of them carry a
      note, exactly one of them the money; 24 clues lie on the board and
      none has been found. */
  lemma NewPieces(table: seq<Entry>, codes: seq<int>, g: Rng, coins: nat -> bool)
    requires CatalogShape(table, codes)
    ensures var b := NewBoard(table, codes, g, coins).0;
      && |b.pieces| == |table|
      && (forall i :: 0 <= i < |table| ==> b.pieces[i].code == codes[i] && b.pieces[i].name == table[i].name)
      && CountWhere(b.pieces, HasNote) == NoteCount
      && CountWhere(b.pieces, HoldsMoney) == 1
      && CluesLeft(b) == 24
      && b.cluesFound == 0
  {
    var built := NewBoardOk(table, codes, g, coins);
    AssemblePieces(table, codes, built, g.Skip(9), coins);
  }

  /** A listed code is a known piece. */
  lemma CatalogPieceKnown(table: seq<Entry>, codes: seq<int>, pool: seq<int>, notes: seq<NoteView>, c: int)
    requires CatalogOrder(table, codes) && c in codes
    ensures HasPiece(NotedPieces(table, pool, notes), c)
  {
    var j :| 0 <= j < |codes| && codes[j] == c;
    assert NotedPieces(table, pool, notes)[j].code == c;
  }

  /** Notes whose hints point into the pool, handed out over a shuffle of
      the catalog, leave every hint pointing at a known piece; clue counts
      are carried over unchanged. */
  lemma NotedPiecesRefer(table: seq<Entry>, codes: seq<int>, pool: seq<int>, notes: seq<NoteView>)
    requires CatalogOrder(table, codes) && multiset(pool) == multiset(codes)
    requires forall k :: 0 <= k < |notes| ==> notes[k].clue >= 0
    requires forall k :: 0 <= k < |notes| && notes[k].lookIn.Some? ==> notes[k].lookIn.value in pool
    requires forall k :: 0 <= k < |notes| && notes[k].notIn.Some? ==> notes[k].notIn.value in pool
    ensures var pieces := NotedPieces(table, pool, notes);
      forall j :: 0 <= j < |pieces| && pieces[j].note.Some? ==>
        && pieces[j].note.value.clue >= 0
        && (pieces[j].note.value.lookIn.Some? ==> HasPiece(pieces, pieces[j].note.value.lookIn.value))
        && (pieces[j].note.value.notIn.Some? ==> HasPiece(pieces, pieces[j].note.value.notIn.value))
  {
    var pieces := NotedPieces(table, pool, notes);
    forall j | 0 <= j < |pieces| && pieces[j].note.Some?
      ensures pieces[j].note.value.clue >= 0
      ensures pieces[j].note.value.lookIn.Some? ==> HasPiece(pieces, pieces[j].note.value.lookIn.value)
      ensures pieces[j].note.value.notIn.Some? ==> HasPiece(pieces, pieces[j].note.value.notIn.value)
    {
      var k := HandedOut(pool, notes, table[j].code);
      var n := notes[k];
      assert pieces[j].note == Some(n);
      if n.lookIn.Some? {
        assert n.lookIn.value in multiset(codes);
        CatalogPieceKnown(table, codes, pool, notes, n.lookIn.value);
      }
      if n.notIn.Some? {
        assert n.notIn.value in multiset(codes);
        CatalogPieceKnown(table, codes, pool, notes, n.notIn.value);
      }
    }
  }

  /** Every code the assembled rooms list is a known piece. */
  lemma AssembleListable(table: seq<Entry>, codes: seq<int>, built: seq<RoomState>, g: Rng, coins: nat -> bool)
    requires Ready(table, codes, built)
    ensures Listable(Assemble(table, codes, built, g, coins).0)
  {
    var (rooms, g2) := FurnishRooms(built, codes, g);
    var (pool, g3) := Shuffle(codes, g2);
    var notes := NotesFor(rooms, pool, g3, coins);
    var b := Assemble(table, codes, built, g, coins).0;
    assert b.pieces == NotedPieces(table, pool, notes) && b.rooms == rooms;
    FurnishedPlacesEach(built, codes, g);
    RoomsKnown(table, codes, pool, notes, rooms);
  }

  /** Rooms listing only catalog codes list known pieces. */
  lemma RoomsKnown(table: seq<Entry>, codes: seq<int>, pool: seq<int>, notes: seq<NoteView>, rooms: seq<RoomState>)
    requires CatalogOrder(table, codes)
    requires forall c, i :: 0 <= i < |rooms| && c in rooms[i].furnitureCodes ==> c in codes
    ensures forall i :: 0 <= i < |rooms| ==> Known(NotedPieces(table, pool, notes), rooms[i].furnitureCodes)
  {
    var pieces := NotedPieces(table, pool, notes);
    forall i | 0 <= i < |rooms| ensures Known(pieces, rooms[i].furnitureCodes) {
      forall k | 0 <= k < |rooms[i].furnitureCodes| ensures HasPiece(pieces, rooms[i].furnitureCodes[k]) {
        CatalogPieceKnown(table, codes, pool, notes, rooms[i].furnitureCodes[k]);
      }
    }
  }

  /** The notes handed out over a pool of distinct codes hint only at
      pool codes, and none holds a negative clue count. */
  lemma NotesHintIntoPool(rooms: seq<RoomState>, pool: seq<int>, g: Rng, coins: nat -> bool)
    requires |pool| >= NoteCount && |rooms| > 0 && Distinct(pool)
    ensures var notes := NotesFor(rooms, pool, g, coins);
      && (forall k :: 0 <= k < |notes| ==> notes[k].clue >= 0)
      && (forall k :: 0 <= k < |notes| && notes[k].lookIn.Some? ==> notes[k].lookIn.value in pool)
      && (forall k :: 0 <= k < |notes| && notes[k].notIn.Some? ==> notes[k].notIn.value in pool)
  {
    var notes := NotesFor(rooms, pool, g, coins);
    var deck := Deck(Items, People, Map(rooms, RoomName));
    PopNotesAt(pool, deck, g, coins);
    LookInTargetsClues(pool, deck, g, coins);
    NotInAvoidsMoney(pool, deck, g, coins);
    forall k | 0 <= k < |notes| && notes[k].lookIn.Some? ensures notes[k].lookIn.value in pool {
      var i :| 0 <= i < 11 && ClueCodes(pool)[i] == notes[k].lookIn.value;
    }
  }

  /** Every hint of an assembled note points at a known piece, and no note
      holds a negative clue count. */
  lemma AssembleHints(table: seq<Entry>, codes: seq<int>, built: seq<RoomState>, g: Rng, coins: nat -> bool)
    requires Ready(table, codes, built)
    ensures var pieces := Assemble(table, codes, built, g, coins).0.pieces;
      forall j :: 0 <= j < |pieces| && pieces[j].note.Some? ==>
        && pieces[j].note.value.clue >= 0
        && (pieces[j].note.value.lookIn.Some? ==> HasPiece(pieces, pieces[j].note.value.lookIn.value))
        && (pieces[j].note.value.notIn.Some? ==> HasPiece(pieces, pieces[j].note.value.notIn.value))
  {
    var (rooms, g2) := FurnishRooms(built, codes, g);
    var (pool, g3) := Shuffle(codes, g2);
    var notes := NotesFor(rooms, pool, g3, coins);
    assert Assemble(table, codes, built, g, coins).0.pieces == NotedPieces(table, pool, notes);
    ShufflePermutes(codes, g2);
    DistinctPermutation(codes, pool);
    NotesHintIntoPool(rooms, pool, g3, coins);
    NotedPiecesRefer(table, codes, pool, notes);
  }

  /** A new game's board satisfies what the two machines rely on: every
      listed code and every hint target is a known piece, and no clue
      count is negative. */
  lemma NewBoardReady(table: seq<Entry>, codes: seq<int>, g: Rng, coins: nat -> bool)
    requires CatalogShape(table, codes)
    ensures var b := NewBoard(table, codes, g, coins).0;
      References(b) && CluesNonNegative(b)
  {
    var built := NewBoardOk(table, codes, g, coins);
    AssembleListable(table, codes, built, g.Skip(9), coins);
    AssembleHints(table, codes, built, g.Skip(9), coins);
  }

  /** Every board `NewBoard` builds over a catalog of that shape is valid. */
  lemma NewBoardValid(table: seq<Entry>, codes: seq<int>, g: Rng, coins: nat -> bool)
    requires CatalogShape(table, codes)
    ensures ValidBoard(NewBoard(table, codes, g, coins).0)
  {
    NewRooms(table, codes, g, coins);
    NewBoardReady(table, codes, g, coins);
  }

  /** A new game's board is valid, whatever the seed and the coin flips. */
  lemma NewGameValid(g: Rng, coins: nat -> bool)
    ensures ValidBoard(GameBoard(g, coins).0)
  {
    CatalogShaped();
    NewBoardValid(FurnitureTable, CatalogCodes, g, coins);
  }

  /** A code that received a note received one of the handed-out notes. */
  lemma HandedOut(pool: seq<int>, notes: seq<NoteView>, c: int) returns (k: nat)
    requires NoteFor(pool, notes, c).Some?
    ensures k < |notes| && NoteFor(pool, notes, c) == Some(notes[k])
  {
    var p := FirstIndex(pool, (x: int) => x == c).value;
    k := |pool| - 1 - p;
  }
}
