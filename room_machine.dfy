/** The explore-room state machine as a function of the board, the token, the
    room code and the user's answer (src/app/core/models/game.ts:281-346). */
module RoomMachine {
  import opened Wrappers
  import opened Seqs
  import opened ProcessTypes
  import opened Results
  import opened Boards
  import opened Turns

  /** The furniture list of the listing message: "- name" for each code, in order, unseparated. */
  function ListedNames(codes: seq<int>, pieces: seq<PieceState>): string
    requires Known(pieces, codes)
  {
    if codes == [] then ""
    else ListedNames(codes[..|codes| - 1], pieces) + "- " + pieces[PieceIndex(pieces, codes[|codes| - 1]).value].name
  }

  /** One sound per piece, in the room's order. */
  function PieceSounds(codes: seq<int>, pieces: seq<PieceState>): (r: seq<Prompt>)
    requires Known(pieces, codes)
    ensures |r| == |codes|
    ensures forall i :: 0 <= i < |codes| ==> r[i] == Snd(pieces[PieceIndex(pieces, codes[i]).value].filename)
  {
    if codes == [] then []
    else PieceSounds(codes[..|codes| - 1], pieces) + [Snd(pieces[PieceIndex(pieces, codes[|codes| - 1]).value].filename)]
  }

  /** The prompts of the ListFurniture state: the description, the room's
      three sounds, then one sound per piece. */
  function Listing(room: RoomState, pieces: seq<PieceState>): seq<Prompt>
    requires Known(pieces, room.furnitureCodes)
  {
    [Msg("This is the " + room.name + ". You see the following:\n" + ListedNames(room.furnitureCodes, pieces)),
     Snd("room_explore_1"), Snd(room.filename), Snd("room_explore_2")]
      + PieceSounds(room.furnitureCodes, pieces)
  }

  /** One call of `exploreRoom`.  The state tests read the token after it has
      been resolved (a missing pid reads as Begin), so an unlock with 'y'
      falls through to the listing in the same call, while Begin on an
      unlocked room matches no state and returns the token unchanged. */
  function Explore(b: Board, token: Process, code: Option<int>, input: Option<string>): (r: Step)
    requires Listable(b)
    ensures r.process.action == token.action
    ensures r.board == b || (!MissingCode(code) && RoomIndex(b.rooms, code.value).Some?
                             && r.board == Unlock(b, RoomIndex(b.rooms, code.value).value))
  {
    var start := Token(token.action, token.pid);
    var action := start.action;
    if MissingCode(code) then
      Step(b, Token(action, Some(FurnitureBegin)), [Msg(MissingCodeMessage)])
    else match RoomIndex(b.rooms, code.value)
      case None =>
        Step(b, Token(action, Some(FurnitureBegin)), [Msg(UnknownCodeMessage)])
      case Some(k) => Visit(b, k, start, input)
  }

  /** The states of a call whose room was found, `start` being the resolved
      token. */
  function Visit(b: Board, k: nat, start: Process, input: Option<string>): (r: Step)
    requires Listable(b) && k < |b.rooms| && start.pid.Some?
    ensures r.process.action == start.action
    ensures r.board == b || (IsYes(input) && r.board == Unlock(b, k))
  {
    var action := start.action;
    var pid := start.pid.value;
    var room := b.rooms[k];
    if pid == RoomBegin && room.locked then
      Step(b, Token(action, Some(CheckLockedRoom)),
           [Msg("This room is locked. Do you have the key?"), Snd("room_locked.wav"), Msg("y/n")])
    else if pid == CheckLockedRoom && !IsYes(input) then
      Step(b, Token(action, Some(RoomFinish)), [Msg("Sorry."), Snd("sorry.wav")])
    else if pid == CheckLockedRoom then
      var b' := Unlock(b, k);
      Step(b', Token(action, Some(ListFurniture)), Listing(b'.rooms[k], b'.pieces))
    else if pid == ListFurniture then
      Step(b, start, Listing(room, b.pieces))
    else
      // Finish, and the fallback for Begin on an open room or an unknown state
      Step(b, start, [])
  }

  /** A missing or unknown room code emits exactly one message, resets the
      pid to Begin and changes nothing. */
  lemma InvalidCodeResets(b: Board, token: Process, code: Option<int>, input: Option<string>)
    requires Listable(b)
    requires MissingCode(code) || RoomIndex(b.rooms, code.value).None?
    ensures var r := Explore(b, token, code, input);
      && r.board == b
      && r.process == Process(Some(RoomBegin), token.action, StatusBegin)
      && |r.prompts| == 1 && r.prompts[0].kind == Message
  {
  }

  /** At Begin a locked room asks for the key and moves to CheckLockedRoom. */
  lemma LockedRoomAsks(b: Board, token: Process, code: int, input: Option<string>)
    requires Listable(b)
    requires ResolvePid(token.pid) == RoomBegin && code != 0
    requires RoomIndex(b.rooms, code).Some? && b.rooms[RoomIndex(b.rooms, code).value].locked
    ensures var r := Explore(b, token, Some(code), input);
      && r.board == b
      && r.process.pid == Some(CheckLockedRoom) && r.process.status == StatusContinue
      && |r.prompts| == 3 && r.prompts[1] == Snd("room_locked.wav")
  {
  }

  /** At Begin an unlocked room does not advance: the token comes back at
      Begin with no prompts, and nothing changes. */
  lemma OpenRoomAtBeginStalls(b: Board, token: Process, code: int, input: Option<string>)
    requires Listable(b)
    requires ResolvePid(token.pid) == RoomBegin && code != 0
    requires RoomIndex(b.rooms, code).Some? && !b.rooms[RoomIndex(b.rooms, code).value].locked
    ensures var r := Explore(b, token, Some(code), input);
      r.board == b && r.process == Process(Some(RoomBegin), token.action, StatusBegin) && r.prompts == []
  {
  }

  /** At CheckLockedRoom any answer but 'y'/'Y' says sorry, finishes and
      leaves the room locked. */
  lemma RefusedKeyFinishes(b: Board, token: Process, code: int, input: Option<string>)
    requires Listable(b)
    requires token.pid == Some(CheckLockedRoom) && token.action == ExploreRoom && code != 0
    requires RoomIndex(b.rooms, code).Some? && !IsYes(input)
    ensures var r := Explore(b, token, Some(code), input);
      && r.board == b
      && r.process == Process(Some(RoomFinish), ExploreRoom, StatusFinish)
      && r.prompts == [Msg("Sorry."), Snd("sorry.wav")]
  {
  }

  /** At CheckLockedRoom 'y'/'Y' unlocks exactly that room and lists it in
      the same call: one message, then 3 + n sounds, the last n being the
      pieces' sounds in the room's order. */
  lemma KeyUnlocksAndLists(b: Board, token: Process, code: int, input: Option<string>)
    requires Listable(b)
    requires token.pid == Some(CheckLockedRoom) && token.action == ExploreRoom && code != 0
    requires RoomIndex(b.rooms, code).Some? && IsYes(input)
    ensures var k := RoomIndex(b.rooms, code).value;
      var r := Explore(b, token, Some(code), input);
      var n := |b.rooms[k].furnitureCodes|;
      && r.board == Unlock(b, k)
      && !r.board.rooms[k].locked
      && r.process == Process(Some(ListFurniture), ExploreRoom, StatusContinue)
      && |r.prompts| == 4 + n
      && r.prompts[0].kind == Message
      && (forall i :: 1 <= i < 4 + n ==> r.prompts[i].kind == Sound)
      && (forall i :: 0 <= i < n ==>
            r.prompts[4 + i] == Snd(b.pieces[PieceIndex(b.pieces, b.rooms[k].furnitureCodes[i]).value].filename))
  {
    var k := RoomIndex(b.rooms, code).value;
    assert Explore(b, token, Some(code), input) == Visit(b, k, Token(token.action, token.pid), input);
    assert Known(b.pieces, b.rooms[k].furnitureCodes);
  }

  /** ListFurniture lists again and never moves on to Finish. */
  lemma ListingNeverFinishes(b: Board, token: Process, code: int, input: Option<string>)
    requires Listable(b)
    requires token.pid == Some(ListFurniture) && code != 0
    requires RoomIndex(b.rooms, code).Some?
    ensures var r := Explore(b, token, Some(code), input);
      && r.board == b
      && r.process.pid == Some(ListFurniture) && r.process.status != StatusFinish
      && |r.prompts| == 4 + |b.rooms[RoomIndex(b.rooms, code).value].furnitureCodes|
  {
  }

  /** The only change a call can make is to unlock the room it was asked
      about: no room is ever locked, renamed, refurnished or moved, and the
      board stays listable. */
  lemma ExploreOnlyUnlocks(b: Board, token: Process, code: Option<int>, input: Option<string>)
    requires Listable(b)
    ensures var r := Explore(b, token, code, input);
      && (r.board == b || (code.Some? && RoomIndex(b.rooms, code.value).Some? &&
                           r.board == Unlock(b, RoomIndex(b.rooms, code.value).value)))
      && Listable(r.board)
      && |r.board.rooms| == |b.rooms|
      && (forall i :: 0 <= i < |b.rooms| ==> r.board.rooms[i] == b.rooms[i].(locked := r.board.rooms[i].locked))
      && (forall i :: 0 <= i < |b.rooms| && r.board.rooms[i].locked ==> b.rooms[i].locked)
  {
  }
}
