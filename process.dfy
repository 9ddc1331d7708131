/** The continuation token the two state machines hand back and forth
    (src/app/core/types/process.ts).  The state enums are TypeScript numeric
    enums, so a token's `pid` is a plain number and the two enums share values. */
module ProcessTypes {
  import opened Wrappers

  datatype Action = ExploreRoom | ExploreFurniture

  datatype Status = StatusBegin | StatusContinue | StatusFinish

  /** `pid` is optional; `action` and `status` are required. */
  datatype Process = Process(pid: Option<nat>, action: Action, status: Status)

  // ExploreRoomStates
  const RoomBegin: nat := 0
  const CheckLockedRoom: nat := 1
  const ListFurniture: nat := 2
  const RoomFinish: nat := 3

  // ExploreFurnitureStates
  const FurnitureBegin: nat := 0
  const CheckNoteItem: nat := 1
  const CheckNoteItemInput: nat := 2
  const CheckNotePerson: nat := 3
  const CheckNotePersonInput: nat := 4
  const CheckNoteClue: nat := 5
  const CheckNoteSecret: nat := 6
  const CheckNoteSecretInput: nat := 7
  const CheckNoteLookIn: nat := 8
  const CheckNoteNotIn: nat := 9
  const CheckNoteMoney: nat := 10
  const BaseCase: nat := 11
  const FurnitureFinish: nat := 12

  /** The state ids the room machine declares. */
  predicate IsRoomState(pid: nat) {
    pid <= RoomFinish
  }

  /** The state ids the furniture machine declares. */
  predicate IsFurnitureState(pid: nat) {
    pid <= FurnitureFinish
  }
}
