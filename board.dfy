/** A snapshot of everything the two state machines read and change: the
    rooms, the furniture with their notes, and the clue counter.  The game
    object's fields map onto it one to one. */
module Boards {
  import opened Wrappers
  import opened Seqs
  import opened Notes

  datatype RoomState = RoomState(
    name: string, code: int, furnitureCodes: seq<int>, locked: bool, filename: string)

  datatype PieceState = PieceState(name: string, code: int, filename: string, note: Option<NoteView>)

  datatype Board = Board(rooms: seq<RoomState>, pieces: seq<PieceState>, cluesFound: int)

  /** `getRoomByCode`: the first room with the code, if any. */
  function RoomIndex(rooms: seq<RoomState>, code: int): (r: Option<nat>)
    ensures r.Some? ==> r.value < |rooms| && rooms[r.value].code == code
    ensures r.Some? ==> forall j :: 0 <= j < r.value ==> rooms[j].code != code
    ensures r.None? <==> forall j :: 0 <= j < |rooms| ==> rooms[j].code != code
  {
    FirstIndex(rooms, (r: RoomState) => r.code == code)
  }

  /** `getFurnitureByCode`: the first piece with the code, if any. */
  function PieceIndex(pieces: seq<PieceState>, code: int): (r: Option<nat>)
    ensures r.Some? ==> r.value < |pieces| && pieces[r.value].code == code
    ensures r.Some? ==> forall j :: 0 <= j < r.value ==> pieces[j].code != code
    ensures r.None? <==> forall j :: 0 <= j < |pieces| ==> pieces[j].code != code
  {
    FirstIndex(pieces, (p: PieceState) => p.code == code)
  }

  predicate HasPiece(pieces: seq<PieceState>, code: int) {
    PieceIndex(pieces, code).Some?
  }

  /** Every code in `codes` names a known piece. */
  predicate Known(pieces: seq<PieceState>, codes: seq<int>) {
    forall i :: 0 <= i < |codes| ==> HasPiece(pieces, codes[i])
  }

  /** Every room lists known pieces only, so the listing can look each one up. */
  predicate Listable(b: Board) {
    forall i :: 0 <= i < |b.rooms| ==> Known(b.pieces, b.rooms[i].furnitureCodes)
  }

  /** Every code a room lists, and every piece a note points at, is a known
      piece: the lookups the machines make without a guard then succeed. */
  ghost predicate References(b: Board) {
    && Listable(b)
    && (forall j :: 0 <= j < |b.pieces| && b.pieces[j].note.Some? && b.pieces[j].note.value.lookIn.Some? ==>
          HasPiece(b.pieces, b.pieces[j].note.value.lookIn.value))
    && (forall j :: 0 <= j < |b.pieces| && b.pieces[j].note.Some? && b.pieces[j].note.value.notIn.Some? ==>
          HasPiece(b.pieces, b.pieces[j].note.value.notIn.value))
  }

  /** No note holds a negative clue count, and the counter is not negative. */
  ghost predicate CluesNonNegative(b: Board) {
    && b.cluesFound >= 0
    && forall j :: 0 <= j < |b.pieces| && b.pieces[j].note.Some? ==> b.pieces[j].note.value.clue >= 0
  }

  /** The board with the clue count of piece `k` lowered by one and the counter raised by one. */
  function TakeClue(b: Board, k: nat): (r: Board)
    requires k < |b.pieces| && b.pieces[k].note.Some?
    ensures r.rooms == b.rooms && |r.pieces| == |b.pieces|
    ensures r.cluesFound == b.cluesFound + 1
    ensures r.pieces[k].note.Some? && r.pieces[k].note.value.clue == b.pieces[k].note.value.clue - 1
    ensures r.pieces[k] == b.pieces[k].(note := r.pieces[k].note)
    ensures r.pieces[k].note.value == b.pieces[k].note.value.(clue := b.pieces[k].note.value.clue - 1)
    ensures forall j :: 0 <= j < |b.pieces| && j != k ==> r.pieces[j] == b.pieces[j]
  {
    var note := b.pieces[k].note.value;
    b.(pieces := b.pieces[k := b.pieces[k].(note := Some(note.(clue := note.clue - 1)))],
       cluesFound := b.cluesFound + 1)
  }

  /** The board with room `k` unlocked. */
  function Unlock(b: Board, k: nat): (r: Board)
    requires k < |b.rooms|
    ensures r.pieces == b.pieces && r.cluesFound == b.cluesFound && |r.rooms| == |b.rooms|
    ensures !r.rooms[k].locked && r.rooms[k] == b.rooms[k].(locked := false)
    ensures forall j :: 0 <= j < |b.rooms| && j != k ==> r.rooms[j] == b.rooms[j]
  {
    b.(rooms := b.rooms[k := b.rooms[k].(locked := false)])
  }
}
