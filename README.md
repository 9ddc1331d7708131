# Mystery Mansion game engine in Dafny

A model of the engine behind a talking companion for the *Mystery Mansion*
board game: the `Game` object, which deals a seeded board (rooms, furniture,
notes, locks), and the two turn-based state machines the UI drives,
*explore a room* and *explore a piece of furniture*.  The small records
(`Room`, `Furniture`, `Note`, `ItemOrPerson`), the `Result` object the
machines fill in and the `Process` continuation token are modelled with them.

Layout of the project, one module per file:

- `wrappers`, `text`, `seqs`: `Option`/`Outcome`, lower-casing, number
  printing, padding and joining, and sequence facts (flatten, map, sums and
  counts, multisets).
- `draws`: the seeded source (`Rng`, a draw stream and a position) and
  `shuffle`, `sample` and `randomChoice`, specified by contract only.  A
  shuffle is a permutation, a choice is a member, and a sample is k members
  drawn without replacement.
- `process`, `result`: the `Process` token, the two state enums as numbers,
  and the `Result` class with `setProcess`, `updatePID`, `appendMessage` and
  `appendSound`.
- `cards`, `furniture`, `note`, `room`: the records, their file names and
  their `toString`/`toJSON` strings.
- `catalog`: the fixed tables.  There are 4 item cards, 4 people cards, the 35
  pieces of furniture, the nine rooms with their pre-placed furniture, and the
  nine room numbers.
- `setup`, `furnish`, `noteplan`, `new_game`: what the constructor builds,
  stated as functions of the draw stream:
  - `buildRooms` gives each room one of the shuffled room numbers;
  - `furnishRoomsSmart` deals the leftover furniture;
  - `buildAndApplyNotes` lays out the 26 notes;
  - the board comes out of these three steps.
- `board`, `turns`, `room_machine`, `furniture_machine`: one turn of each
  machine, as a function from the board, the token, the code and the input
  to a new board, a new token and the prompts.
- `game`: the `Game` class.  Its constructor, `getRng`, `buildRooms`,
  `furnishRoomsSmart`, `buildAndApplyNotes`, `lockRooms`, `exploreRoom` and
  `exploreFurniture` are methods that update the fields in place.  Each is
  proved against the functions above.

Randomness is a parameter: `prng` stands for the seeded generator, and
`freshSeed` for the seed made when none is given.  The model takes every
draw of the setup (`shuffle`, `sample`, `randomChoice` and `lockRooms`'
count) from one draw stream that starts at the seeded generator's first
value.  The source calls those helpers without passing them the game's
generator, and their code is not part of this model; a single stream is
the design's intent, not what `game.ts` shows (see "## Left out").
The secret notes' coin flips, which use the unseeded `Math.random`, come in
as `coins`.  In the model a new game therefore depends only on the seed and
the coins, and a method that draws states exactly how many draws it took.

## Model

| member | source | states |
|---|---|---|
| Results.ResolvePid | src/app/core/models/result.ts:16-18 | an absent pid becomes `Begin`, which is 0 for both machines; a non-zero pid is kept |
| Results.StatusOfCases | src/app/core/models/result.ts:20-30 | the status is `begin` exactly at `Begin` and `finish` exactly at the action's own `Finish` (3 for rooms, 12 for furniture); otherwise it is `continue` |
| Results.Token | src/app/core/models/result.ts:33-38 | the stored token carries the action passed in, the resolved pid, and the status derived from both |
| Results.Result.constructor | src/app/core/models/result.ts:8-11 | a new result has no token and an empty prompt list |
| Results.Result.SetProcess | src/app/core/models/result.ts:13-42 | the token becomes the one for this action and pid; the prompts are unchanged |
| Results.Result.UpdatePID | src/app/core/models/result.ts:44-46 | keeps the current action, replaces the pid and recomputes the status; the prompts are unchanged |
| Results.Result.AppendMessage | src/app/core/models/result.ts:48-50 | appends exactly one message prompt with the given text, which may be null; earlier prompts and the token are unchanged |
| Results.Result.AppendSound | src/app/core/models/result.ts:52-54 | appends exactly one sound prompt with the given path; earlier prompts and the token are unchanged |
| Cards.ItemOrPerson.Filename | src/app/core/models/item-or-person.ts:8-11 | `items/` followed by the name lower-cased letter by letter, with no extension: length 6 + the name's length |
| Cards.FilenameInjective | src/app/core/models/item-or-person.ts:10 | cards whose lower-cased names differ get different file names |
| Rooms.RoomFilename | src/app/core/models/room.ts:18 | `rooms/`, then the lower-cased name, then `.wav` |
| Rooms.Room.constructor | src/app/core/models/room.ts:13-19 | stores the name, code and furniture codes unchanged; the room starts unlocked and the file name is derived from the name |
| Rooms.RoomLabel | src/app/core/models/room.ts:21-26 | the `toString` text starts with the `toJSON` text followed by ` - Contains: ` |
| Rooms.Room.ToString | src/app/core/models/room.ts:21-26 | the label ends with ` [LOCKED]` exactly when the room is locked |
| Rooms.RoomLabelLockMarker | src/app/core/models/room.ts:22-25 | the marker appears at the end exactly when the room is locked, whatever its furniture list |
| Rooms.RoomJSON | src/app/core/models/room.ts:28-30 | the text ends with `: ` and the name; the full layout is `Rooms.RoomJSONAligned` |
| Rooms.RoomJSONAligned | src/app/core/models/room.ts:29 | the text is the code right-aligned with spaces in two columns (wider when the number needs it), then `: `, then the name |
| Rooms.RoomJSONOneDigit | src/app/core/models/room.ts:29 | a one-digit room number is printed after one space |
| Rooms.RoomJSONTwoDigits | src/app/core/models/room.ts:29 | a two-digit room number is printed without padding, in front of `: ` and the name |
| Rooms.RoomJSONInjective | src/app/core/models/room.ts:28-30 | two rooms with non-negative numbers and the same text have the same number and name: the text can be read back |
| Rooms.Room.ToJSON | src/app/core/models/room.ts:28-30 | the room's code right-aligned in two columns, then `: `, then its name |
| Furnishings.FurnitureFilename | src/app/core/models/furniture.ts:17-20 | without `#`, the name is `furniture/` + lower-cased name + `.wav`.  With `#`, it is a prefix of that string whose length is the position of `#` in the name minus one |
| Furnishings.FilenameBeforeHash | src/app/core/models/furniture.ts:18-20 | when `#` sits at position 11 or later, the cut keeps `furniture/` and the first position-minus-11 lower-cased letters of the name |
| Furnishings.DiningChairFilename | src/app/core/models/furniture.ts:18-20 | every `Dining Room Chair #…` piece gets the file name `furniture/dining ` |
| Furnishings.FurnitureLabel | src/app/core/models/furniture.ts:23-25 | the label ends with `: ` and the name; the full layout is `Furnishings.FurnitureLabelAligned` |
| Furnishings.FurnitureLabelAligned | src/app/core/models/furniture.ts:24 | the label is the code right-aligned with spaces in three columns (wider when the number needs it), then `: `, then the name |
| Furnishings.FurnitureLabelShortCodes | src/app/core/models/furniture.ts:24 | a one-digit code is printed after two spaces, a two-digit code after one |
| Furnishings.FurnitureLabelThreeDigits | src/app/core/models/furniture.ts:24 | a three-digit code is printed without padding, in front of `: ` and the name |
| Furnishings.FurnitureLabelInjective | src/app/core/models/furniture.ts:23-25 | two pieces with non-negative codes and the same label have the same code and name |
| Furnishings.Furniture.constructor | src/app/core/models/furniture.ts:12-21 | stores the name and code unchanged; the note starts null; the file name is the derived one |
| Furnishings.Furniture.ToString | src/app/core/models/furniture.ts:23-25 | the piece's code right-aligned in three columns, then `: `, then its name |
| Furnishings.Furniture.ToJSON | src/app/core/models/furniture.ts:27-29 | equals `toString` |
| Notes.Note.constructor | src/app/core/models/note.ts:18-28 | `money`, `ask` and `trapdoor` are false and `clue` is 0.  `item`, `person`, `secret`, `notIn` and `lookIn` are absent |
| Draws.Choice | src/app/core/models/game.ts:125-126 | the chosen value is a member of the list, and one draw is used |
| Draws.Shuffle | src/app/core/models/game.ts:212-213 | keeps the length and uses one draw per element |
| Draws.ShufflePermutes | src/app/core/models/game.ts:212-213 | the shuffled list is a permutation of the input (equal multisets) |
| Draws.Sample | src/app/core/models/game.ts:233-234 | takes k elements of the list, without replacement, and uses k draws |
| Draws.SampleDistinctMembers | src/app/core/models/game.ts:233-234 | a sample of a list without repeats has no repeats, and each element comes from the list |
| Catalog.CatalogCodesAt | src/app/core/models/game.ts:72-112 | the catalog has 35 pieces; piece i has the i-th catalog code |
| Catalog.CatalogCodesDistinct | src/app/core/models/game.ts:72-112 | the 35 catalog codes differ from one another |
| Catalog.RoomCodesDistinct | src/app/core/models/game.ts:199-211 | nine room names and nine distinct room numbers, 11 among them |
| Catalog.RoomCodesFromFirst | src/app/core/models/game.ts:211 | no room number is below 11 |
| Catalog.PrePlacedFromTable | src/app/core/models/game.ts:199-210 | the room table's pre-placed codes, read in order, are the 18 pre-placed codes |
| Catalog.PrePlacedInCatalog | src/app/core/models/game.ts:72-210 | the 18 pre-placed codes differ from one another and are all catalog codes |
| Boards.RoomIndex | src/app/core/models/game.ts:520-530 | `getRoomByCode`: the first room with the code, or none exactly when no room has it |
| Boards.PieceIndex | src/app/core/models/game.ts:532-542 | `getFurnitureByCode`: the first piece with the code, or none exactly when no piece has it |
| Boards.TakeClue | src/app/core/models/game.ts:452-453 | `cluesFound` rises by 1 and that piece's `clue` drops by 1; nothing else changes |
| Boards.Unlock | src/app/core/models/game.ts:309 | that room becomes unlocked and nothing else changes |
| Games.RoomWithPiece | src/app/core/models/game.ts:190-197 | `findRoomByFurnitureCode`: the first room holding the code, or none exactly when no room holds it |
| Games.CatalogPieces | src/app/core/models/game.ts:72-112 | each catalog line becomes a piece with that name and code, the derived file name and no note |
| Setup.Paired | src/app/core/models/game.ts:220-224 | room i is built from table line i and the i-th code |
| Setup.PlanRoomsCases | src/app/core/models/game.ts:215-224 | fails exactly when the name table and the code list differ in length.  Otherwise room i has the i-th name, furniture and code, and is unlocked |
| Setup.PlannedRooms | src/app/core/models/game.ts:220-224 | the planned rooms carry exactly the given codes, in order, and the table's furniture lists |
| Setup.ShuffledPlan | src/app/core/models/game.ts:212-224 | after shuffling distinct codes the plan succeeds, and the rooms' codes are a permutation of them without repeats |
| Setup.BuildRooms | src/app/core/models/game.ts:199-226 | the corrected `buildRooms` uses one draw per room number and, when it succeeds, yields one room per table line |
| Setup.BuildRoomsAsWritten | src/app/core/models/game.ts:220-225 | as written, the call fails while the game's list is unset; otherwise it returns an empty list and the game's list grows by the nine rooms |
| Setup.BuildRoomsPermutes | src/app/core/models/game.ts:199-226 | `buildRooms` yields nine unlocked rooms, with the table's names and furniture.  Their numbers are a permutation of {11,…,31}, and it uses nine draws |
| Setup.BuildRoomsAsWrittenLosesRooms | src/app/core/models/game.ts:220-225 | as written, the constructor's call fails on the unset list; on a set list it returns an empty list |
| Setup.FurnishRooms | src/app/core/models/game.ts:255-279 | keeps the number of rooms and uses one draw per leftover code and one per room |
| Setup.ShuffledSpace | src/app/core/models/game.ts:270 | shuffling the rooms keeps their furniture lists and their free space |
| Setup.FurnishRoomsCovers | src/app/core/models/game.ts:255-279 | after furnishing, the rooms together hold exactly the catalog codes |
| Setup.FurnishRoomsKeepsRooms | src/app/core/models/game.ts:268-278 | every furnished room is an input room whose pre-placed list is a prefix of its new list, and it has at most 4 pieces unless it started with more |
| Setup.FurnishRoomsKeepsCodes | src/app/core/models/game.ts:270 | the furnished rooms carry the same room numbers |
| Setup.EachCodeInOneRoom | src/app/core/models/game.ts:255-279 | when the rooms hold exactly the distinct catalog codes, each code is in exactly one room and no room holds anything else |
| Setup.CanFurnishBySize | src/app/core/models/game.ts:258-278 | if the pre-placed codes are all in the catalog and the free space covers what is left, the loop can deal everything |
| Setup.TableCanFurnish | src/app/core/models/game.ts:199-266 | with the table's furniture, 17 codes are left over and they fit the free space |
| Furnish.Pass | src/app/core/models/game.ts:273-277 | one pass of the `for` loop.  Each room below 4 gets at most one code at its end, rooms at 4 or more are untouched, and codes are popped from the end |
| Furnish.PassProgress | src/app/core/models/game.ts:272-278 | a pass that reaches a room below 4 with codes left places at least one code |
| Furnish.PassConserves | src/app/core/models/game.ts:273-277 | a pass moves codes from the leftover list into rooms without losing or adding any, and uses up that much free space |
| Furnish.PassDeals | src/app/core/models/game.ts:272-278 | while the free space covers the leftover codes, each pass places at least one, so the `while` loop ends |
| Furnish.Deal | src/app/core/models/game.ts:272-278 | the `while` loop keeps the number of rooms |
| Furnish.DealProperties | src/app/core/models/game.ts:272-278 | each room's list is a prefix of its new list.  No room below 4 goes past 4, and rooms at 4 or more are untouched.  The rooms gain exactly the leftover codes |
| Games.PlaceRooms | src/app/core/models/game.ts:215-224 | the room-building loop yields the plan of the table and the shuffled codes |
| Games.RemoveRoomCodes | src/app/core/models/game.ts:261-265 | the removal loop removes one occurrence of each placed code |
| Games.RemovePlaced | src/app/core/models/game.ts:258-266 | the nested loop leaves the catalog codes minus every pre-placed code |
| Games.DealLeftovers | src/app/core/models/game.ts:272-278 | the dealing loop computes the same rooms as the `while` loop's specification |
| Games.LockCandidates | src/app/core/models/game.ts:229-231 | the candidates are room numbers on the board, and 11 is never one of them |
| Games.CandidatesCount | src/app/core/models/game.ts:229-231 | with distinct numbers, at most one room is filtered out, and none when no room is 11 |
| Games.LockPicks | src/app/core/models/game.ts:233-234 | picks 1 or 2 candidates, using one draw for the count and one per pick |
| Games.LockPlan | src/app/core/models/game.ts:228-234 | the picks are 1 or 2 distinct room numbers, never 11, and each names exactly one room |
| Games.Locked | src/app/core/models/game.ts:236-238 | the corrected locking keeps the number of rooms |
| Games.LockedRooms | src/app/core/models/game.ts:236-238 | a room ends up locked exactly when it was locked or its number was picked.  Nothing else about any room changes, and room 11 is untouched |
| Games.LockKeepsValid | src/app/core/models/game.ts:228-239 | a valid board has at least two candidates, and locking the drawn picks leaves it valid |
| Games.LockByPositionAsWritten | src/app/core/models/game.ts:236-238 | as written, locking succeeds exactly when every pick is a valid position in the room list |
| Games.LockRoomsAsWrittenFails | src/app/core/models/game.ts:228-239 | on any board a new game builds, `lockRooms` as written fails whatever it draws |
| Games.NumbersPastEnd | src/app/core/models/game.ts:236-237 | every room number of a built board lies past the last list position |
| Games.LockTarget | src/app/core/models/game.ts:236-238 | each step of the locking loop finds the picked room by its number; locking it extends the locked prefix by one pick |
| Games.ListNames | src/app/core/models/game.ts:320-325 | the message loop builds the `- name` list of the room's furniture |
| Games.AppendPieceSounds | src/app/core/models/game.ts:332-335 | the sound loop appends the file of each of the room's pieces, in room order |
| Games.AppendListing | src/app/core/models/game.ts:319-337 | appends the whole listing (one message, three sounds, one sound per piece); the token is unchanged |
| Games.ListingParts | src/app/core/models/game.ts:327-335 | the listing is the message, `room_explore_1`, the room's file and `room_explore_2`, then the pieces' sounds |
| Games.BuildRoomsStep | src/app/core/models/game.ts:199-226 | the method builds the rooms `buildRooms` specifies |
| Games.FurnishStep | src/app/core/models/game.ts:255-279 | the method furnishes the rooms as `furnishRoomsSmart` specifies |
| Games.PopAndApply | src/app/core/models/game.ts:121-187 | popping the pool and attaching one note per pop puts note k on the k-th piece from the end.  Every other piece keeps the note it had |
| Games.NotesStep | src/app/core/models/game.ts:116-188 | shuffles the pool and hands the notes out in order, using the pool's draws plus 18 |
| Games.LockStep | src/app/core/models/game.ts:228-239 | locks the picked rooms and advances the source past the picks |
| Games.Construct | src/app/core/models/game.ts:30-35 | builds, furnishes and notes exactly the board the specification of a new game gives |
| Games.NewGameStep | src/app/core/models/game.ts:24-36 | the constructor's work yields the board and source of a new game |
| Games.ConstructedCodes | src/app/core/models/game.ts:72-112 | the built pieces carry the catalog codes, distinct, and at least 26 of them |
| Games.PoolPiece | src/app/core/models/game.ts:121-187 | every code popped from the pool names exactly one piece |
| Games.NotesLanded | src/app/core/models/game.ts:116-188 | the pieces after the note loop are the catalog pieces carrying the handed-out notes |
| Games.Game.constructor | src/app/core/models/game.ts:24-36 | the seed is the given one, or the fresh one when none or an empty one is given.  The fields are the board of a new game from that seed, and that board is valid |
| Games.Game.GetSeed | src/app/core/models/game.ts:38-40 | returns the game's seed, the one the constructor fixed; it is a constant that no method changes |
| Games.Game.GetRng | src/app/core/models/game.ts:42-44 | returns the next draw and advances the source by one; the board is unchanged |
| Games.Game.BuildRooms | src/app/core/models/game.ts:199-226 | the rooms become those `buildRooms` specifies, and the source advances by its draws; nothing else changes |
| Games.Game.FurnishRoomsSmart | src/app/core/models/game.ts:255-279 | the rooms and source become those furnishing specifies; the pieces and clue count are unchanged |
| Games.Game.BuildAndApplyNotes | src/app/core/models/game.ts:116-188 | the pieces carry the notes handed out from the shuffled pool, and the source advances by one draw per piece plus 18.  The rooms and clue count are unchanged |
| Games.Game.LockRooms | src/app/core/models/game.ts:228-239 | on a valid game there are at least two candidates; the rooms become the locked rooms of the drawn picks, and the source advances past them; the pieces and clue count are unchanged, and the game stays valid |
| Games.Game.ExploreRoom | src/app/core/models/game.ts:281-346 | the board, token and prompts are one turn of the room machine; the game stays valid and the source is untouched |
| Games.Game.ExploreFurniture | src/app/core/models/game.ts:348-518 | the board, token and prompts are one turn of the furniture machine; the game stays valid and the source is untouched |
| Games.ExploreRoomOn | src/app/core/models/game.ts:281-295 | the method's token, prompts and board are the room machine's turn |
| Games.VisitOn | src/app/core/models/game.ts:297-346 | from a known room on, the method's token, prompts and board are the room machine's turn |
| Games.ExploreFurnitureOn | src/app/core/models/game.ts:348-362 | the method's token, prompts and board are the furniture machine's turn |
| Games.SearchOn | src/app/core/models/game.ts:363-518 | from a known piece on, the method's token, prompts and board are the furniture machine's turn |
| Games.BeginOn | src/app/core/models/game.ts:365-395 | the `Begin` branch appends the piece's label and sound, and the outcome for no note, a trapdoor or an `ask` note |
| Games.ClueOn | src/app/core/models/game.ts:443-460 | the clue branch takes a clue when one is left and otherwise moves on to the secret |
| Games.AskOn | src/app/core/models/game.ts:397-441 | the item and person questions and the answers to them |
| Games.HintOn | src/app/core/models/game.ts:462-518 | the secret, `lookIn`, `notIn`, money and base-case branches and the fallback |
| Games.RoomExploreValid | src/app/core/models/game.ts:281-346 | a room turn keeps the board valid, and changes only the rooms' lock flags |
| Games.FurnitureExploreValid | src/app/core/models/game.ts:348-518 | a furniture turn keeps the board valid and leaves the rooms alone |
| RoomMachine.Explore | src/app/core/models/game.ts:281-346 | one room turn keeps the action, and leaves the board as it was or unlocks the room with the given number |
| RoomMachine.Visit | src/app/core/models/game.ts:297-346 | from a found room on, the turn keeps the action, and changes the board only by unlocking that room on a `y`/`Y` answer |
| RoomMachine.PieceSounds | src/app/core/models/game.ts:332-335 | one sound per furniture code, the file of the piece with that code, in room order |
| RoomMachine.InvalidCodeResets | src/app/core/models/game.ts:285-295 | a missing or unknown room number yields one message and resets the token to `Begin`; the board is unchanged |
| RoomMachine.LockedRoomAsks | src/app/core/models/game.ts:297-305 | at `Begin`, a locked room asks for the key (message, `room_locked.wav`, `y/n`) and moves to `CheckLockedRoom` |
| RoomMachine.OpenRoomAtBeginStalls | src/app/core/models/game.ts:297-345 | at `Begin`, an unlocked room does not advance: the token stays at `Begin` with no prompts |
| RoomMachine.RefusedKeyFinishes | src/app/core/models/game.ts:307-317 | at `CheckLockedRoom`, any answer but `y`/`Y` yields `Sorry.` and `sorry.wav` and finishes; the room stays locked |
| RoomMachine.KeyUnlocksAndLists | src/app/core/models/game.ts:307-337 | `y`/`Y` unlocks the room and lists it in the same call.  That gives one message, then 3 + n sounds, ending with the pieces' files in room order |
| RoomMachine.ListingNeverFinishes | src/app/core/models/game.ts:319-337 | at `ListFurniture` the room is listed again and the token never reaches `Finish` |
| RoomMachine.ExploreOnlyUnlocks | src/app/core/models/game.ts:281-346 | a room turn changes at most one room, and only by unlocking it; no room is ever locked by it |
| FurnitureMachine.Explore | src/app/core/models/game.ts:348-518 | one furniture turn keeps the action and never changes the rooms |
| FurnitureMachine.Search | src/app/core/models/game.ts:363-518 | from a found piece on, the turn keeps the action and never changes the rooms |
| FurnitureMachine.Begin | src/app/core/models/game.ts:365-395 | at `Begin` the board is unchanged and the first two prompts are the piece's label and sound file |
| FurnitureMachine.Clue | src/app/core/models/game.ts:443-460 | the clue step changes the board exactly when the piece has a clue left, and then only by taking one |
| FurnitureMachine.Ask | src/app/core/models/game.ts:397-441 | the question states leave the board unchanged and never go back to `Begin` |
| FurnitureMachine.Hint | src/app/core/models/game.ts:462-518 | the secret, hint, money and base-case states leave the board unchanged and keep the action |
| FurnitureMachine.InvalidCodeResets | src/app/core/models/game.ts:352-362 | a missing or unknown furniture code yields one message and resets the token to `Begin`; the board is unchanged |
| FurnitureMachine.BarePieceFinishes | src/app/core/models/game.ts:365-374 | at `Begin`, a piece without a note gives its label, its sound, `Sorry. No clue here.` and `clue_none.wav`, then finishes |
| FurnitureMachine.TrapdoorFinishes | src/app/core/models/game.ts:365-381 | at `Begin`, a trapdoor note announces the trapdoor and finishes |
| FurnitureMachine.ItemAskedBeforePerson | src/app/core/models/game.ts:383-394 | an `ask` note moves to the item question if it has an item.  Otherwise it moves to the person question if it has a person, and otherwise to the clue |
| FurnitureMachine.PersonAskedAfterItem | src/app/core/models/game.ts:406-419 | after `y` to the item, the person is asked next if there is one, otherwise the clue |
| FurnitureMachine.SilentNoteStaysAtBegin | src/app/core/models/game.ts:365-395 | a note with neither `ask` nor `trapdoor` leaves the token at `Begin` after the label and sound |
| FurnitureMachine.RefusalFinishes | src/app/core/models/game.ts:406-436 | any answer but `y`/`Y` to a question yields `Sorry.` and `sorry.wav` and finishes |
| FurnitureMachine.ClueStep | src/app/core/models/game.ts:443-460 | with clues left, the note's `clue` drops by 1 and `cluesFound` rises by 1.  The message is `You found a clue!` exactly when fewer than 10 had been found, and the turn finishes.  With none left, nothing changes and the token moves to the secret |
| FurnitureMachine.MoneyStepAlwaysWins | src/app/core/models/game.ts:498-503 | at `CheckNoteMoney` the player wins, whatever the note says |
| FurnitureMachine.SecretShownOrNull | src/app/core/models/game.ts:475-479 | after `Press Enter to view.` the note's secret is the one message and the turn finishes; a note without a secret shows a null message |
| FurnitureMachine.MoneyOnlyAfterHints | src/app/core/models/game.ts:481-503 | the turn hands back `CheckNoteMoney` only from `CheckNoteNotIn`, and `CheckNoteNotIn` only from `CheckNoteLookIn`, each on a note that has that hint |
| FurnitureMachine.HintlessNoteStopsAtLookIn | src/app/core/models/game.ts:443-486 | a note with no clue left, no secret and no `lookIn` (the money note is one) goes from the clue state to the secret state to `CheckNoteLookIn`, where the call is undefined |
| FurnitureMachine.OtherStatesFallBack | src/app/core/models/game.ts:512-517 | at `Finish` or an undeclared state, the token is returned as given with no prompts |
| FurnitureMachine.ExploreConservesClues | src/app/core/models/game.ts:443-459 | a turn changes only clue counts.  `cluesFound` never decreases and rises by at most 1, clues left plus clues found stay constant, no `clue` goes negative, and hints keep pointing at pieces |
| FurnitureMachine.ExploreTakesAtMostOne | src/app/core/models/game.ts:443-459 | a turn either leaves the board alone or takes one clue from one piece that had one |
| FurnitureMachine.TakeClueConserves | src/app/core/models/game.ts:452-453 | taking a clue keeps clues left plus clues found constant and keeps every count non-negative |
| NotePlan.MoneyNote | src/app/core/models/game.ts:121-128 | the money note holds the money, asks, and names an item and a person drawn from the cards; it has no clue, trapdoor, secret or hint |
| NotePlan.SecretNote | src/app/core/models/game.ts:150-163 | a secret note asks about an item exactly when the coin says so and about a person otherwise, and its secret names one of the rooms |
| NotePlan.CombinedNote | src/app/core/models/game.ts:165-173 | the two-card note asks about a drawn item and a drawn person and holds two clues |
| NotePlan.PopNotes | src/app/core/models/game.ts:116-188 | exactly 26 notes are handed out |
| NotePlan.ClueCodes | src/app/core/models/game.ts:136-143 | the 11 clue pieces are the pool's 2nd to 12th codes from the end, in pop order |
| NotePlan.NotInNotes | src/app/core/models/game.ts:130-180 | six notes, each a blank note pointing at a choice from the pool minus its last two codes: the money pop and the `splice(-1, 1)` |
| NotePlan.LookInNotes | src/app/core/models/game.ts:183-187 | four notes, each a blank note pointing at a choice among the clue pieces |
| NotePlan.PopNotesAt | src/app/core/models/game.ts:116-188 | the notes in pop order: 1 money, 11 clue, 1 trapdoor, 2 secret, 1 combined, 6 `notIn`, 4 `lookIn` |
| NotePlan.OneMoneyNote | src/app/core/models/game.ts:121-128 | exactly one note holds the money, and it also asks about an item and a person |
| NotePlan.OneTrapdoor | src/app/core/models/game.ts:146-148 | exactly one note is a trapdoor |
| NotePlan.CluesTotal | src/app/core/models/game.ts:136-173 | the notes' clue counts add up to 24 |
| NotePlan.ClueCodesGetClueNotes | src/app/core/models/game.ts:136-143 | the clue pieces are the ones that get the clue notes |
| NotePlan.LookInTargetsClues | src/app/core/models/game.ts:183-187 | every `lookIn` target is one of the 11 clue pieces |
| NotePlan.NotInAvoidsMoney | src/app/core/models/game.ts:121-180 | every `notIn` target is in the pool and is never the money piece |
| NotePlan.NoteForAt | src/app/core/models/game.ts:117-187 | the code at pool position i gets the note popped at step `size - 1 - i`, or none if the pops stop first |
| NotePlan.NoteForPopped | src/app/core/models/game.ts:121-187 | the k-th code from the end of the pool gets the k-th note |
| NotePlan.NoteForUnpopped | src/app/core/models/game.ts:121-187 | a code never popped gets no note |
| NewGame.NotedPieces | src/app/core/models/game.ts:116-188 | the notes land on the catalog pieces by code, one per popped code |
| NewGame.NotesFor | src/app/core/models/game.ts:116-188 | exactly 26 notes are handed out |
| NewGame.HandedOut | src/app/core/models/game.ts:121-187 | a piece's note is one of the handed-out notes |
| NewGame.PiecesCarryNotes | src/app/core/models/game.ts:117-187 | the pieces carry as many notes as were handed out and as many money notes, with the same clue total: no piece gets two notes |
| NewGame.NotesHintIntoPool | src/app/core/models/game.ts:176-187 | every note's clue count is non-negative, and its `lookIn` and `notIn` targets are pool codes |
| NewGame.NotedPiecesRefer | src/app/core/models/game.ts:176-187 | every hint on a piece points at a piece that exists |
| NewGame.BuildsFurnishable | src/app/core/models/game.ts:199-266 | built rooms use nine draws and leave 17 of the 35 codes to deal, which fit their free space |
| NewGame.GameBoard | src/app/core/models/game.ts:24-36 | a new game over the real tables has nine rooms, 35 pieces and no clue found, and uses 88 draws |
| NewGame.NewBoard | src/app/core/models/game.ts:24-36 | building a new game uses exactly 88 draws of the draw stream |
| NewGame.NewBoardOk | src/app/core/models/game.ts:24-36 | the constructor's room building succeeds, and the rest of the board is built from those rooms |
| NewGame.FurnishedKeepsRooms | src/app/core/models/game.ts:268-278 | furnishing keeps every room's name, number and lock, and extends its pre-placed list |
| NewGame.FurnishedPlacesEach | src/app/core/models/game.ts:255-279 | after furnishing, every catalog code is in exactly one room |
| NewGame.NewRooms | src/app/core/models/game.ts:199-279 | a new game has the nine table rooms with a permutation of the nine numbers, and every catalog code is in exactly one room |
| NewGame.NewPieces | src/app/core/models/game.ts:72-188 | a new game has the 35 catalog pieces in order.  26 of them carry notes, exactly one holds the money, 24 clues are left, and none has been found |
| NewGame.AssembleHints | src/app/core/models/game.ts:176-187 | on a built board every hint points at an existing piece and no clue count is negative |
| NewGame.NewBoardReady | src/app/core/models/game.ts:24-36 | a new board's hints point at existing pieces and its clue counts are non-negative |
| NewGame.NewBoardValid | src/app/core/models/game.ts:24-36 | a new board satisfies the invariant both machines keep |
| NewGame.NewGameValid | src/app/core/models/game.ts:24-36 | the board of the real catalog and tables is valid, whatever the draws |

## Left out

- Seeded generator and seed: `seedrandom` is the `prng` parameter, and `crypto.randomBytes` is the `freshSeed` parameter.  Which numbers they produce is not modelled; only how many draws each step takes is.
- `shuffle`, `sample` and `randomChoice` are not part of this model.  They are specified by contract only (permutation, membership, sampling without replacement).  The order a shuffle produces is a parameter of the draw stream.
- Floating point is not modelled.  `Math.floor(rng() * 2) + 1` is read as `draw % 2 + 1`, and `Math.random() < 0.5` is read as the boolean `coins(i)`.
- Games.Game.GetRng: returns the raw draw (a natural number), not a float in [0, 1).  Because the model takes the setup's draws from the same stream, on a new game it returns draw 88, where the source returns the seeded generator's first value.
- Games.Game.constructor: assumes that the setup's `shuffle`, `sample` and `randomChoice` draw from the game's seeded generator.  The source calls them without it (game.ts lines 118, 126, 213, 234, 268-269), and their code is not part of this model.
- NewGame.NewBoard: the 88 draws are counted on the model's single draw stream, under the same assumption as the constructor.
- Cards.ItemOrPerson.Filename: lower-cases ASCII letters only.  `toLowerCase` also lower-cases other scripts, and can change the length (`İ` becomes two code units), so the per-letter and length facts hold for ASCII names only.  The game's own card names are ASCII.
- Rooms.RoomFilename: lower-cases ASCII letters only, as for the card file names; the game's room names are ASCII.
- Furnishings.FurnitureFilename: lower-cases ASCII letters only, as for the card file names; the game's furniture names are ASCII.
- Rooms.RoomJSON: its own contract states the `: name` ending; the full layout is proved in `Rooms.RoomJSONAligned`, kept apart so that the label does not slow the machine proofs.
- Furnishings.FurnitureLabel: its own contract states the `: name` ending; the full layout is proved in `Furnishings.FurnitureLabelAligned`, for the same reason.
- Console logging and the `console.error`/`console.warn` fallbacks are not modelled: they print and change nothing.
- `structuredClone` and object identity are not modelled.  Rooms, pieces and notes are values held by the game, so aliasing between copies is not modelled.  The notes land on the catalog pieces by code, and the `nonMoneyRooms` filter removes nothing.
- `furnishRoomsRandom` is not modelled: the constructor never calls it.
- `generateRandomSeed` is folded into the `freshSeed` parameter of Games.Game.constructor.
- The item and people cards are constant tables (`Catalog`), not fields of the game.
- `Room.containsFurniture` is the plain membership test `Rooms.Room.ContainsFurniture` and carries no separate contract.
- Rooms.Room.ToString: states the lock marker at the end, not the exact text of the joined furniture codes.
- Furnishings.Furniture: the `note` field is modelled for construction only; the game holds the notes in `NoteView` values on its pieces.
- Results.Token: for explore-furniture, the status is derived from the pid argument.  The source reads a global `process` there instead, which does not exist in the browser.
- Games.Game.ExploreFurniture: requires `FurnitureMachine.Ready`.  In the states that read the note's item, person, `lookIn` or `notIn`, the note must have that facet, and every state that reads the note needs one.  The source reads these without a guard, and reading a field of a missing one throws.  A missing secret does not throw: the model shows it as a null message.  As written, the money note's own path runs into such a throw at `CheckNoteLookIn` (`FurnitureMachine.HintlessNoteStopsAtLookIn`), so no note reaches the win through the tokens the machine hands back.
- The session service, audio playback, routes and the `IResult` interface are not part of this model.

## Findings

| source | as written | input that shows it | evidently intended | confidence | as-written member | corrected member |
|---|---|---|---|---|---|---|
| src/app/core/models/game.ts:236-237 | `this.rooms[num]` uses the picked room number as a position in the room list | any new game: the picks are numbers from 12 to 31, and the list has positions 0 to 8, so `undefined.locked = true` throws | lock the room whose number is `num` | high, not executed | Games.LockByPositionAsWritten, Games.LockRoomsAsWrittenFails | Games.Locked, Games.LockedRooms |
| src/app/core/models/game.ts:220-225 | pushes the rooms onto `this.rooms`, which the constructor (line 32) has not set yet, and returns the empty `result` | the constructor's call, made while `this.rooms` is still unset | return the nine rooms | high, not executed | Setup.BuildRoomsAsWritten, Setup.BuildRoomsAsWrittenLosesRooms | Setup.BuildRooms, Setup.BuildRoomsPermutes |
