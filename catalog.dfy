/** The game's fixed tables: the furniture catalog, the item and people
    cards, the room table with its pre-placed furniture, and the room codes
    (src/app/core/models/game.ts:52-112, 200-212). */
module Catalog {
  import opened Seqs
  import opened Cards

  /** A catalog line: the name a piece is built with, and its code. */
  datatype Entry = Entry(name: string, code: int)

  /** A room-table line: the room's name and the codes placed in it up front. */
  datatype RoomSpec = RoomSpec(name: string, furnitureCodes: seq<int>)

  /** `buildFurniture`: 35 pieces, in this order. */
  const FurnitureTable: seq<Entry> := [
    Entry("Dining Room Chair #1 [111]", 111),
    Entry("Dining Room Chair #2 [112]", 112),
    Entry("Dining Room Table", 113),
    Entry("China Cabinet", 114),
    Entry("Sofa", 121),
    Entry("Coffee Table", 122),
    Entry("Bed", 123),
    Entry("Dresser", 124),
    Entry("Small Bookcase", 131),
    Entry("Refrigerator", 132),
    Entry("Sink", 133),
    Entry("Oven", 134),
    Entry("Kitchen Table", 141),
    Entry("Pool Table", 142),
    Entry("Pinball Machines", 143),
    Entry("Large Bookcase", 144),
    Entry("Whirlpool", 211),
    Entry("Treadmill", 212),
    Entry("Piano", 213),
    Entry("Telescope", 214),
    Entry("Clock", 221),
    Entry("Computer", 222),
    Entry("Juke Box", 223),
    Entry("Rug", 224),
    Entry("Fireplace", 231),
    Entry("Knight", 232),
    Entry("Television", 233),
    Entry("Fish Tank", 234),
    Entry("Lamp", 241),
    Entry("Planter", 242),
    Entry("Easel", 243),
    Entry("Black Armchair #1 [244]", 244),
    Entry("Black Armchair #2 [311]", 311),
    Entry("White Armchair #1 [312]", 312),
    Entry("White Armchair #2 [313]", 313)
  ]

  /** `buildItemCards`. */
  const Items: seq<ItemOrPerson> := [ItemOrPerson("Tape"), ItemOrPerson("Letter"), ItemOrPerson("Photos"), ItemOrPerson("Map")]

  /** `buildPeopleCards`. */
  const People: seq<ItemOrPerson> := [ItemOrPerson("Cook"), ItemOrPerson("Chauffeur"), ItemOrPerson("Maid"), ItemOrPerson("Butler")]

  /** The room table of `buildRooms`, each room with the pieces it starts with. */
  const RoomTable: seq<RoomSpec> := [
    RoomSpec("Living Room", [121, 122]),
    RoomSpec("Bed Room", [123, 124]),
    RoomSpec("Kitchen", [132, 133, 134, 141]),
    RoomSpec("Music Room", [213]),
    RoomSpec("Game Room", [142, 143]),
    RoomSpec("Study", [131]),
    RoomSpec("Library", [144]),
    RoomSpec("Dining Room", [111, 112, 113]),
    RoomSpec("Gym", [211, 212])
  ]

  /** The room numbers `buildRooms` shuffles. */
  const RoomCodes: seq<int> := [11, 12, 13, 14, 21, 22, 23, 24, 31]

  /** The room `lockRooms` never locks. */
  const FirstRoom: int := 11

  /** The catalog's codes, in catalog order. */
  const CatalogCodes: seq<int> := [
    111, 112, 113, 114, 121, 122, 123, 124, 131, 132, 133, 134, 141, 142, 143, 144,
    211, 212, 213, 214, 221, 222, 223, 224, 231, 232, 233, 234, 241, 242, 243, 244,
    311, 312, 313]

  /** The codes the room table places up front, room by room. */
  const PrePlaced: seq<int> := [121, 122, 123, 124, 132, 133, 134, 141, 213, 142, 143, 131, 144, 111, 112, 113, 211, 212]

  /** Line `i` of the catalog carries code `i` of the code list. */
  lemma CatalogCodesAt()
    ensures |FurnitureTable| == |CatalogCodes| == 35
    ensures forall i :: 0 <= i < |FurnitureTable| ==> FurnitureTable[i].code == CatalogCodes[i]
  {
  }

  /** The codes some room-table lines place, room by room. */
  function TableCodes(t: seq<RoomSpec>): seq<int> {
    if t == [] then [] else t[0].furnitureCodes + TableCodes(t[1..])
  }

  function SpecCodes(r: RoomSpec): seq<int> {
    r.furnitureCodes
  }

  /** Placing the table's codes room by room is flattening its layout. */
  lemma {:induction false} TableCodesFlatten(t: seq<RoomSpec>)
    ensures TableCodes(t) == Flatten(Map(t, SpecCodes))
  {
    if t != [] {
      TableCodesFlatten(t[1..]);
      assert Map(t, SpecCodes)[1..] == Map(t[1..], SpecCodes);
    }
  }

  /** The room table places exactly the pre-placed codes. */
  lemma PrePlacedFromTable()
    ensures Flatten(Map(RoomTable, SpecCodes)) == PrePlaced
  {
    TableCodesNine(RoomTable);
    TableCodesFlatten(RoomTable);
  }

  lemma TableCodesStep(t: seq<RoomSpec>, k: nat)
    requires k < |t|
    ensures TableCodes(t[k..]) == t[k].furnitureCodes + TableCodes(t[k + 1..])
  {
    assert t[k..][1..] == t[k + 1..];
  }

  /** Any nine rooms holding the table's codes place the pre-placed codes. */
  lemma TableCodesNine(t: seq<RoomSpec>)
    requires |t| == 9
    requires t[0].furnitureCodes == [121, 122] && t[1].furnitureCodes == [123, 124]
    requires t[2].furnitureCodes == [132, 133, 134, 141] && t[3].furnitureCodes == [213]
    requires t[4].furnitureCodes == [142, 143] && t[5].furnitureCodes == [131]
    requires t[6].furnitureCodes == [144] && t[7].furnitureCodes == [111, 112, 113]
    requires t[8].furnitureCodes == [211, 212]
    ensures TableCodes(t) == PrePlaced
  {
    var rest := [142, 143, 131, 144, 111, 112, 113, 211, 212];
    TableCodesTail(t[4..]);
    TableCodesStep(t, 3);
    assert TableCodes(t[3..]) == [213] + rest;
    TableCodesStep(t, 2);
    assert TableCodes(t[2..]) == [132, 133, 134, 141, 213] + rest;
    TableCodesStep(t, 1);
    assert TableCodes(t[1..]) == [123, 124, 132, 133, 134, 141, 213] + rest;
    TableCodesStep(t, 0);
    assert t[0..] == t;
    assert PrePlaced == [121, 122, 123, 124, 132, 133, 134, 141, 213] + rest;
  }

  /** The last five rooms of the table. */
  lemma TableCodesTail(u: seq<RoomSpec>)
    requires |u| == 5
    requires u[0].furnitureCodes == [142, 143] && u[1].furnitureCodes == [131]
    requires u[2].furnitureCodes == [144] && u[3].furnitureCodes == [111, 112, 113]
    requires u[4].furnitureCodes == [211, 212]
    ensures TableCodes(u) == [142, 143, 131, 144, 111, 112, 113, 211, 212]
  {
    assert u[5..] == [];
    TableCodesStep(u, 4);
    TableCodesStep(u, 3);
    assert TableCodes(u[3..]) == [111, 112, 113, 211, 212];
    TableCodesStep(u, 2);
    TableCodesStep(u, 1);
    assert TableCodes(u[1..]) == [131, 144, 111, 112, 113, 211, 212];
    TableCodesStep(u, 0);
    assert u[0..] == u;
  }

  /** The catalog has 35 pieces with pairwise different codes. */
  lemma CatalogCodesDistinct()
    ensures |CatalogCodes| == 35
    ensures Distinct(CatalogCodes)
  {
    IncreasingDistinct(CatalogCodes);
  }

  /** The nine room numbers differ, and the first room is among them. */
  lemma RoomCodesDistinct()
    ensures |RoomCodes| == |RoomTable| == 9
    ensures Distinct(RoomCodes)
    ensures FirstRoom in RoomCodes
  {
    IncreasingDistinct(RoomCodes);
  }

  /** No room number is below the first room's. */
  lemma RoomCodesFromFirst()
    ensures forall x :: x in RoomCodes ==> x >= FirstRoom
  {
    IncreasingDistinct(RoomCodes);
    forall x | x in RoomCodes ensures x >= FirstRoom {
      var i :| 0 <= i < |RoomCodes| && RoomCodes[i] == x;
      assert RoomCodes[0] <= RoomCodes[i];
    }
  }

  lemma PrePlacedDistinct()
    ensures Distinct(PrePlaced)
  {
    var a, b := PrePlaced[..9], PrePlaced[9..];
    assert Distinct(a) by {
      assert a == [121, 122, 123, 124, 132, 133, 134, 141, 213];
      IncreasingDistinct(a);
    }
    assert b == [142, 143, 131, 144, 111, 112, 113, 211, 212];
    DistinctAppend(a, b);
    assert a + b == PrePlaced;
  }

  lemma PrePlacedMember(x: int)
    requires x in PrePlaced
    ensures x in CatalogCodes
  {
  }

  /** The 18 pre-placed codes differ and are catalog codes, so they are a
      part of the catalog taken once each. */
  lemma PrePlacedInCatalog()
    ensures |PrePlaced| == 18
    ensures Distinct(PrePlaced)
    ensures multiset(PrePlaced) <= multiset(CatalogCodes)
  {
    PrePlacedDistinct();
    forall i | 0 <= i < |PrePlaced| ensures PrePlaced[i] in CatalogCodes {
      PrePlacedMember(PrePlaced[i]);
    }
    SubMultiset(PrePlaced, CatalogCodes);
  }
}
