/** The explore-furniture state machine as a function of the board, the
    token, the furniture code and the user's answer
    (src/app/core/models/game.ts:348-518). */
module FurnitureMachine {
  import opened Wrappers
  import opened Seqs
  import opened ProcessTypes
  import opened Results
  import opened Cards
  import opened Notes
  import opened Furnishings
  import opened Boards
  import opened Turns

  /** The furniture a note points at, looked up on the board. */
  function Target(pieces: seq<PieceState>, code: int): PieceState
    requires HasPiece(pieces, code)
  {
    pieces[PieceIndex(pieces, code).value]
  }

  /** The source dereferences the note and its facets without a guard in
      several states; a call is only defined when the facet the incoming
      state reads is there. */
  predicate NoteReady(pieces: seq<PieceState>, note: Option<NoteView>, pid: Option<nat>, input: Option<string>) {
    match pid
    case None => true
    case Some(p) =>
      if p == CheckNoteItem then note.Some? && note.value.item.Some?
      else if p == CheckNoteItemInput then IsYes(input) ==> note.Some?
      else if p == CheckNotePerson then note.Some? && note.value.person.Some?
      else if p == CheckNoteClue || p == CheckNoteSecret || p == CheckNoteSecretInput then note.Some?
            else if p == CheckNoteLookIn then
        note.Some? && note.value.lookIn.Some? && HasPiece(pieces, note.value.lookIn.value)
      else if p == CheckNoteNotIn then
        note.Some? && note.value.notIn.Some? && HasPiece(pieces, note.value.notIn.value)
      else true
  }

  /** The call is defined: either the code is rejected up front, or the
      piece's note has what the incoming state reads. */
  predicate Ready(b: Board, token: Process, code: Option<int>, input: Option<string>) {
    !MissingCode(code) && PieceIndex(b.pieces, code.value).Some? ==>
      NoteReady(b.pieces, b.pieces[PieceIndex(b.pieces, code.value).value].note, token.pid, input)
  }

  /** The clues still lying in a piece (none without a note). */
  function ClueOf(p: PieceState): int {
    if p.note.Some? then p.note.value.clue else 0
  }

  /** The clues still lying on the board. */
  function CluesLeft(b: Board): int {
    SumOf(b.pieces, ClueOf)
  }

  /** Begin: show the piece, then stop at a bare piece or a trapdoor, or
      move to the first question an asking note poses. */
  function Begin(b: Board, k: nat, start: Process): (r: Step)
    requires k < |b.pieces|
    ensures r.board == b && r.process.action == start.action
    ensures |r.prompts| >= 2
    ensures r.prompts[0] == Msg(FurnitureLabel(b.pieces[k].code, b.pieces[k].name))
    ensures r.prompts[1] == Snd(b.pieces[k].filename)
  {
    var piece := b.pieces[k];
    var note := piece.note;
    var action := start.action;
    var shown := [Msg(FurnitureLabel(piece.code, piece.name)), Snd(piece.filename)];
    if note.None? then
      Step(b, Token(action, Some(FurnitureFinish)), shown + [Msg("Sorry. No clue here."), Snd("clue_none.wav")])
    else if note.value.trapdoor then
      Step(b, Token(action, Some(FurnitureFinish)),
           shown + [Msg("Oops! A trapdoor! Go to the entrance."), Snd("trapdoor.wav")])
    else if note.value.ask then
      var next := if note.value.item.Some? then CheckNoteItem
                  else if note.value.person.Some? then CheckNotePerson
                  else CheckNoteClue;
      Step(b, Token(action, Some(next)), shown)
    else
      Step(b, start, shown)
  }

  /** CheckNoteClue: take one clue if any is left, else go on to the secret. */
  function Clue(b: Board, k: nat, action: Action): (r: Step)
    requires k < |b.pieces| && b.pieces[k].note.Some?
    ensures r.process.action == action
    ensures r.board == b || r.board == TakeClue(b, k)
    ensures r.board != b <==> b.pieces[k].note.value.clue > 0
  {
    if b.pieces[k].note.value.clue > 0 then
      var found := if b.cluesFound < 10 then [Msg("You found a clue!"), Snd("clue_found.wav")]
                   else [Msg("Take a clue from another player."), Snd("clue_take.wav")];
      Step(TakeClue(b, k), Token(action, Some(FurnitureFinish)), found)
    else
      Step(b, Token(action, Some(CheckNoteSecret)), [])
  }

  /** One call of `exploreFurniture`.  Unlike the room machine, the states
      are matched against the incoming pid, so a missing pid, Finish, or a
      Begin note with neither `ask` nor `trapdoor` matches nothing further
      and the resolved token comes back unchanged. */
  function Explore(b: Board, token: Process, code: Option<int>, input: Option<string>): (r: Step)
    requires Ready(b, token, code, input)
    ensures r.process.action == token.action && r.board.rooms == b.rooms
  {
    var start := Token(token.action, token.pid);
    var action := start.action;
    if MissingCode(code) then
      Step(b, Token(action, Some(FurnitureBegin)), [Msg(MissingCodeMessage)])
    else match PieceIndex(b.pieces, code.value)
      case None =>
        Step(b, Token(action, Some(FurnitureBegin)), [Msg(UnknownCodeMessage)])
      case Some(k) => Search(b, k, token, input)
  }

  /** The states of a call whose piece was found: Begin, the clue step,
      and the states that only ask or show. */
  function Search(b: Board, k: nat, token: Process, input: Option<string>): (r: Step)
    requires k < |b.pieces| && NoteReady(b.pieces, b.pieces[k].note, token.pid, input)
    ensures r.process.action == token.action && r.board.rooms == b.rooms
  {
    if token.pid == Some(FurnitureBegin) then Begin(b, k, Token(token.action, token.pid))
    else if token.pid == Some(CheckNoteClue) then Clue(b, k, token.action)
    else if token.pid.Some? && CheckNoteItem <= token.pid.value <= CheckNotePersonInput then Ask(b, k, token, input)
    else Hint(b, k, token)
  }

  /** The card questions: the item, then the person, each with its y/n. */
  function Ask(b: Board, k: nat, token: Process, input: Option<string>): (r: Step)
    requires k < |b.pieces| && NoteReady(b.pieces, b.pieces[k].note, token.pid, input)
    requires token.pid.Some? && CheckNoteItem <= token.pid.value <= CheckNotePersonInput
    ensures r.board == b && r.process.action == token.action
    ensures r.process.pid.Some? && CheckNoteItem <= r.process.pid.value
  {
    var action := token.action;
    var note := b.pieces[k].note;
    if token.pid == Some(CheckNoteItem) then
      var item := note.value.item.value;
      Step(b, Token(action, Some(CheckNoteItemInput)),
           [Msg("Do you have the " + item.name + "?"), Snd("ask_item.wav"), Snd(item.Filename()), Msg("y/n: ")])
    else if token.pid == Some(CheckNoteItemInput) then
      if !IsYes(input) then
        Step(b, Token(action, Some(FurnitureFinish)), [Msg("Sorry."), Snd("sorry.wav")])
      else if note.value.person.Some? then
        Step(b, Token(action, Some(CheckNotePerson)), [])
      else
        Step(b, Token(action, Some(CheckNoteClue)), [])
    else if token.pid == Some(CheckNotePerson) then
      // the person card has no string form of its own, so the template shows "[object Object]"
      Step(b, Token(action, Some(CheckNotePersonInput)),
           [Msg("Is the [object Object] with you?"), Snd("ask_person_1.wav"),
            Snd(note.value.person.value.Filename()), Snd("ask_person_2.wav"), Msg("y/n: ")])
    else
      if !IsYes(input) then
        Step(b, Token(action, Some(FurnitureFinish)), [Msg("Sorry."), Snd("sorry.wav")])
      else
        Step(b, Token(action, Some(CheckNoteClue)), [])
  }

  /** The secret and the two hints, the win, and the states that match
      nothing. */
  function Hint(b: Board, k: nat, token: Process): (r: Step)
    requires k < |b.pieces| && NoteReady(b.pieces, b.pieces[k].note, token.pid, None)
    ensures r.board == b && r.process.action == token.action
  {
    var start := Token(token.action, token.pid);
    var action := start.action;
    var note := b.pieces[k].note;
    if token.pid == Some(CheckNoteSecret) then
      // an empty secret is falsy, like an absent one
      if note.value.secret.Some? && note.value.secret.value != "" then
        Step(b, Token(action, Some(CheckNoteSecretInput)),
             [Msg("***[SECRET MESSAGE]***"), Snd("secret.wav"), Msg("Press Enter to view.")])
      else
        Step(b, Token(action, Some(CheckNoteLookIn)), [])
    else if token.pid == Some(CheckNoteSecretInput) then
      // a note without a secret shows a null message
      Step(b, Token(action, Some(FurnitureFinish)), [Prompt(Message, note.value.secret)])
    else if token.pid == Some(CheckNoteLookIn) then
      var t := Target(b.pieces, note.value.lookIn.value);
      Step(b, Token(action, Some(CheckNoteNotIn)),
           [Msg("Look in the " + t.name + " for a clue."), Snd("hint_look_1.wav"), Snd(t.filename), Snd("hint_look_2.wav")])
    else if token.pid == Some(CheckNoteNotIn) then
      var t := Target(b.pieces, note.value.notIn.value);
      Step(b, Token(action, Some(CheckNoteMoney)),
           [Msg("The money is not in the " + t.name + "."), Snd("hint_not_in.wav"), Snd(t.filename)])
    else if token.pid == Some(CheckNoteMoney) then
      // the win is declared without looking at the note
      Step(b, Token(action, Some(BaseCase)), [Msg("You found the money! You WIN!"), Snd("win.wav")])
    else if token.pid == Some(BaseCase) then
      // this sound path has no ".wav", unlike every other one
      Step(b, Token(action, Some(FurnitureFinish)), [Msg("Sorry. No clue here."), Snd("clue_none")])
    else
      // Finish, a missing pid, and any id the enum does not declare
      Step(b, start, [])
  }

  /** A missing or unknown furniture code emits exactly one message, resets
      the pid to Begin and changes nothing. */
  lemma InvalidCodeResets(b: Board, token: Process, code: Option<int>, input: Option<string>)
    requires MissingCode(code) || PieceIndex(b.pieces, code.value).None?
    ensures Ready(b, token, code, input)
    ensures var r := Explore(b, token, code, input);
      && r.board == b
      && r.process == Process(Some(FurnitureBegin), token.action, StatusBegin)
      && |r.prompts| == 1 && r.prompts[0].kind == Message
  {
  }

  /** At Begin a piece without a note shows itself, says there is no clue
      and finishes. */
  lemma BarePieceFinishes(b: Board, token: Process, code: int, input: Option<string>)
    requires token.pid == Some(FurnitureBegin) && token.action == ExploreFurniture && code != 0
    requires PieceIndex(b.pieces, code).Some? && b.pieces[PieceIndex(b.pieces, code).value].note.None?
    ensures Ready(b, token, Some(code), input)
    ensures var r := Explore(b, token, Some(code), input);
      var p := b.pieces[PieceIndex(b.pieces, code).value];
      && r.board == b
      && r.process == Process(Some(FurnitureFinish), ExploreFurniture, StatusFinish)
      && r.prompts == [Msg(FurnitureLabel(code, p.name)), Snd(p.filename),
                       Msg("Sorry. No clue here."), Snd("clue_none.wav")]
  {
    var k := PieceIndex(b.pieces, code).value;
    assert Explore(b, token, Some(code), input) == Begin(b, k, Token(token.action, token.pid));
  }

  /** At Begin a trapdoor note sends the player back and finishes. */
  lemma TrapdoorFinishes(b: Board, token: Process, code: int, input: Option<string>)
    requires token.pid == Some(FurnitureBegin) && token.action == ExploreFurniture && code != 0
    requires PieceIndex(b.pieces, code).Some?
    requires var note := b.pieces[PieceIndex(b.pieces, code).value].note; note.Some? && note.value.trapdoor
    ensures Ready(b, token, Some(code), input)
    ensures var r := Explore(b, token, Some(code), input);
      && r.board == b
      && r.process == Process(Some(FurnitureFinish), ExploreFurniture, StatusFinish)
      && |r.prompts| == 4 && r.prompts[2] == Msg("Oops! A trapdoor! Go to the entrance.")
  {
    var k := PieceIndex(b.pieces, code).value;
    assert Explore(b, token, Some(code), input) == Begin(b, k, Token(token.action, token.pid));
    BeginTrapdoor(b, k, Token(token.action, token.pid));
  }

  lemma BeginTrapdoor(b: Board, k: nat, start: Process)
    requires k < |b.pieces| && b.pieces[k].note.Some? && b.pieces[k].note.value.trapdoor
    ensures var r := Begin(b, k, start);
      && r.board == b
      && r.process == Token(start.action, Some(FurnitureFinish))
      && |r.prompts| == 4 && r.prompts[2] == Msg("Oops! A trapdoor! Go to the entrance.")
  {
  }

  /** At Begin an asking note goes to the item question when it names an
      item, and to the person question only when it names no item. */
  lemma ItemAskedBeforePerson(b: Board, token: Process, code: int, input: Option<string>)
    requires token.pid == Some(FurnitureBegin) && code != 0
    requires PieceIndex(b.pieces, code).Some?
    requires var note := b.pieces[PieceIndex(b.pieces, code).value].note;
      note.Some? && !note.value.trapdoor && note.value.ask
    ensures Ready(b, token, Some(code), input)
    ensures var r := Explore(b, token, Some(code), input);
      var note := b.pieces[PieceIndex(b.pieces, code).value].note.value;
      && r.board == b
      && |r.prompts| == 2
      && (r.process.pid == Some(CheckNoteItem) <==> note.item.Some?)
      && (r.process.pid == Some(CheckNotePerson) <==> note.item.None? && note.person.Some?)
      && (r.process.pid == Some(CheckNoteClue) <==> note.item.None? && note.person.None?)
  {
    var k := PieceIndex(b.pieces, code).value;
    assert Explore(b, token, Some(code), input) == Begin(b, k, Token(token.action, token.pid));
  }

  /** After a yes to the item, the person is asked when the note names one,
      otherwise the clue is checked. */
  lemma PersonAskedAfterItem(b: Board, token: Process, code: int, input: Option<string>)
    requires token.pid == Some(CheckNoteItemInput) && code != 0 && IsYes(input)
    requires PieceIndex(b.pieces, code).Some?
    requires b.pieces[PieceIndex(b.pieces, code).value].note.Some?
    ensures Ready(b, token, Some(code), input)
    ensures var r := Explore(b, token, Some(code), input);
      var note := b.pieces[PieceIndex(b.pieces, code).value].note.value;
      && r.board == b && r.prompts == []
      && r.process.pid == Some(if note.person.Some? then CheckNotePerson else CheckNoteClue)
  {
  }

  /** A note with neither `ask` nor `trapdoor` shows the piece but leaves the
      token at Begin. */
  lemma SilentNoteStaysAtBegin(b: Board, token: Process, code: int, input: Option<string>)
    requires token.pid == Some(FurnitureBegin) && code != 0
    requires PieceIndex(b.pieces, code).Some?
    requires var note := b.pieces[PieceIndex(b.pieces, code).value].note;
      note.Some? && !note.value.trapdoor && !note.value.ask
    ensures Ready(b, token, Some(code), input)
    ensures var r := Explore(b, token, Some(code), input);
      && r.board == b && |r.prompts| == 2
      && r.process == Process(Some(FurnitureBegin), token.action, StatusBegin)
  {
    var k := PieceIndex(b.pieces, code).value;
    assert Explore(b, token, Some(code), input) == Begin(b, k, Token(token.action, token.pid));
  }

  /** Any answer but 'y'/'Y' to either question says sorry and finishes. */
  lemma RefusalFinishes(b: Board, token: Process, code: int, input: Option<string>)
    requires token.pid == Some(CheckNoteItemInput) || token.pid == Some(CheckNotePersonInput)
    requires token.action == ExploreFurniture && code != 0 && !IsYes(input)
    requires PieceIndex(b.pieces, code).Some?
    ensures Ready(b, token, Some(code), input)
    ensures var r := Explore(b, token, Some(code), input);
      && r.board == b
      && r.process == Process(Some(FurnitureFinish), ExploreFurniture, StatusFinish)
      && r.prompts == [Msg("Sorry."), Snd("sorry.wav")]
  {
  }

  /** With clues left, one is taken: the piece's count drops by one, the
      counter rises by one, the first ten finds say "You found a clue!", and
      the machine finishes.  With none left, nothing changes and the secret
      is checked next. */
  lemma ClueStep(b: Board, token: Process, code: int, input: Option<string>)
    requires token.pid == Some(CheckNoteClue) && token.action == ExploreFurniture && code != 0
    requires PieceIndex(b.pieces, code).Some?
    requires b.pieces[PieceIndex(b.pieces, code).value].note.Some?
    ensures Ready(b, token, Some(code), input)
    ensures var k := PieceIndex(b.pieces, code).value;
      var r := Explore(b, token, Some(code), input);
      var clue := b.pieces[k].note.value.clue;
      && (clue > 0 ==>
            && r.board == TakeClue(b, k)
            && r.board.cluesFound == b.cluesFound + 1
            && r.board.pieces[k].note.value.clue == clue - 1
            && r.process == Process(Some(FurnitureFinish), ExploreFurniture, StatusFinish)
            && |r.prompts| == 2
            && (r.prompts[0] == Msg("You found a clue!") <==> b.cluesFound < 10))
      && (clue <= 0 ==>
            && r.board == b
            && r.process == Process(Some(CheckNoteSecret), ExploreFurniture, StatusContinue)
            && r.prompts == [])
  {
  }

  /** The money step declares a win whatever the note says. */
  lemma MoneyStepAlwaysWins(b: Board, token: Process, code: int, input: Option<string>)
    requires token.pid == Some(CheckNoteMoney) && code != 0
    requires PieceIndex(b.pieces, code).Some?
    ensures Ready(b, token, Some(code), input)
    ensures var r := Explore(b, token, Some(code), input);
      && r.board == b
      && r.process.pid == Some(BaseCase)
      && r.prompts == [Msg("You found the money! You WIN!"), Snd("win.wav")]
  {
  }

  /** After "Press Enter to view." the note's secret is shown as one
      message and the machine finishes; a note without a secret shows a
      null message rather than failing. */
  lemma SecretShownOrNull(b: Board, token: Process, code: int, input: Option<string>)
    requires token.pid == Some(CheckNoteSecretInput) && token.action == ExploreFurniture && code != 0
    requires PieceIndex(b.pieces, code).Some?
    requires b.pieces[PieceIndex(b.pieces, code).value].note.Some?
    ensures Ready(b, token, Some(code), input)
    ensures var r := Explore(b, token, Some(code), input);
      var secret := b.pieces[PieceIndex(b.pieces, code).value].note.value.secret;
      && r.board == b
      && r.process == Process(Some(FurnitureFinish), ExploreFurniture, StatusFinish)
      && r.prompts == [Prompt(Message, secret)]
      && (secret.None? <==> r.prompts[0].value.None?)
  {
  }

  /** The machine reaches the win only through the two hints: it hands back
      CheckNoteMoney only from CheckNoteNotIn, and CheckNoteNotIn only from
      CheckNoteLookIn, each on a note that has that hint. */
  lemma MoneyOnlyAfterHints(b: Board, token: Process, code: Option<int>, input: Option<string>)
    requires Ready(b, token, code, input)
    ensures var r := Explore(b, token, code, input);
      && (r.process.pid == Some(CheckNoteMoney) ==>
            token.pid == Some(CheckNoteNotIn) && !MissingCode(code)
            && PieceIndex(b.pieces, code.value).Some?
            && b.pieces[PieceIndex(b.pieces, code.value).value].note.value.notIn.Some?)
      && (r.process.pid == Some(CheckNoteNotIn) ==>
            token.pid == Some(CheckNoteLookIn) && !MissingCode(code)
            && PieceIndex(b.pieces, code.value).Some?
            && b.pieces[PieceIndex(b.pieces, code.value).value].note.value.lookIn.Some?)
  {
    if !MissingCode(code) && PieceIndex(b.pieces, code.value).Some? {
      var k := PieceIndex(b.pieces, code.value).value;
      SearchHintOrder(b, k, token, input);
    }
  }

  lemma SearchHintOrder(b: Board, k: nat, token: Process, input: Option<string>)
    requires k < |b.pieces| && NoteReady(b.pieces, b.pieces[k].note, token.pid, input)
    ensures var r := Search(b, k, token, input);
      && (r.process.pid == Some(CheckNoteMoney) ==>
            token.pid == Some(CheckNoteNotIn) && b.pieces[k].note.value.notIn.Some?)
      && (r.process.pid == Some(CheckNoteNotIn) ==>
            token.pid == Some(CheckNoteLookIn) && b.pieces[k].note.value.lookIn.Some?)
  {
    var r := Search(b, k, token, input);
    if token.pid == Some(FurnitureBegin) {
      BeginNoHint(b, k, Token(token.action, token.pid));
    } else if token.pid == Some(CheckNoteClue) {
      assert r == Clue(b, k, token.action);
    } else if token.pid.Some? && CheckNoteItem <= token.pid.value <= CheckNotePersonInput {
      AskNoHint(b, k, token, input);
    } else {
      assert r == Hint(b, k, token);
      HintOrder(b, k, token);
    }
  }

  lemma BeginNoHint(b: Board, k: nat, start: Process)
    requires k < |b.pieces| && start.pid == Some(FurnitureBegin)
    ensures var r := Begin(b, k, start);
      r.process.pid != Some(CheckNoteMoney) && r.process.pid != Some(CheckNoteNotIn)
  {
  }

  lemma AskNoHint(b: Board, k: nat, token: Process, input: Option<string>)
    requires k < |b.pieces| && NoteReady(b.pieces, b.pieces[k].note, token.pid, input)
    requires token.pid.Some? && CheckNoteItem <= token.pid.value <= CheckNotePersonInput
    ensures var r := Ask(b, k, token, input);
      r.process.pid != Some(CheckNoteMoney) && r.process.pid != Some(CheckNoteNotIn)
  {
  }

  lemma HintOrder(b: Board, k: nat, token: Process)
    requires k < |b.pieces| && NoteReady(b.pieces, b.pieces[k].note, token.pid, None)
    ensures var r := Hint(b, k, token);
      && (r.process.pid == Some(CheckNoteMoney) ==>
            token.pid == Some(CheckNoteNotIn) && b.pieces[k].note.value.notIn.Some?)
      && (r.process.pid == Some(CheckNoteNotIn) ==>
            token.pid == Some(CheckNoteLookIn) && b.pieces[k].note.value.lookIn.Some?)
  {
  }

  /** A note with no clue left, no secret and no lookIn hint (the money
      note is one) walks from CheckNoteClue to CheckNoteSecret and on to
      CheckNoteLookIn, where the call is undefined: the source reads
      `lookIn.name` of a missing hint there.  By `MoneyOnlyAfterHints` such a
      note never reaches the win. */
  lemma HintlessNoteStopsAtLookIn(b: Board, code: int, input: Option<string>)
    requires code != 0 && PieceIndex(b.pieces, code).Some?
    requires var note := b.pieces[PieceIndex(b.pieces, code).value].note;
      note.Some? && note.value.clue <= 0 && note.value.secret.None? && note.value.lookIn.None?
    ensures var first := Token(ExploreFurniture, Some(CheckNoteClue));
      && Ready(b, first, Some(code), input)
      && var r1 := Explore(b, first, Some(code), input);
      && r1.board == b && r1.process.pid == Some(CheckNoteSecret)
      && Ready(b, r1.process, Some(code), input)
      && var r2 := Explore(b, r1.process, Some(code), input);
      && r2.board == b && r2.process.pid == Some(CheckNoteLookIn)
      && !Ready(b, r2.process, Some(code), input)
  {
  }

  /** A finished token, a missing pid, or an id no state declares comes
      back resolved, with no prompts and no change. */
  lemma OtherStatesFallBack(b: Board, token: Process, code: int, input: Option<string>)
    requires token.pid.None? || token.pid.value >= FurnitureFinish
    requires code != 0 && PieceIndex(b.pieces, code).Some?
    ensures Ready(b, token, Some(code), input)
    ensures var r := Explore(b, token, Some(code), input);
      r.board == b && r.prompts == [] && r.process == Token(token.action, token.pid)
  {
  }

  /** A call never touches the rooms, changes at most the clue count of the
      piece asked about, and moves clues from the furniture to the counter
      one at a time: the counter never falls, rises by at most one, every
      clue taken is one fewer on the board, and no count goes negative. */
  lemma {:induction false} ExploreConservesClues(b: Board, token: Process, code: Option<int>, input: Option<string>)
    requires Ready(b, token, code, input)
    ensures var r := Explore(b, token, code, input);
      && r.board.rooms == b.rooms
      && |r.board.pieces| == |b.pieces|
      && (forall j :: 0 <= j < |b.pieces| ==>
            r.board.pieces[j].(note := b.pieces[j].note) == b.pieces[j])
      && b.cluesFound <= r.board.cluesFound <= b.cluesFound + 1
      && CluesLeft(r.board) + r.board.cluesFound == CluesLeft(b) + b.cluesFound
      && (CluesNonNegative(b) ==> CluesNonNegative(r.board))
      && (References(b) ==> References(r.board))
  {
    var r := Explore(b, token, code, input);
    var k := ExploreTakesAtMostOne(b, token, code, input);
    if r.board != b {
      TakeClueConserves(b, k);
    }
  }

  /** A call leaves the board as it was or takes one clue from a piece
      that has some. */
  lemma ExploreTakesAtMostOne(b: Board, token: Process, code: Option<int>, input: Option<string>) returns (k: nat)
    requires Ready(b, token, code, input)
    ensures var r := Explore(b, token, code, input);
      r.board == b ||
      (k < |b.pieces| && b.pieces[k].note.Some? && b.pieces[k].note.value.clue > 0 && r.board == TakeClue(b, k))
  {
    var r := Explore(b, token, code, input);
    if r.board != b {
      k := PieceIndex(b.pieces, code.value).value;
    } else {
      k := 0;
    }
  }

  /** Taking a clue moves it from the piece to the counter: the rooms and
      every other field stay, the clue total is conserved, and neither the
      hints nor non-negative counts are disturbed. */
  lemma TakeClueConserves(b: Board, k: nat)
    requires k < |b.pieces| && b.pieces[k].note.Some? && b.pieces[k].note.value.clue > 0
    ensures var r := TakeClue(b, k);
      && (forall j :: 0 <= j < |b.pieces| ==> r.pieces[j].(note := b.pieces[j].note) == b.pieces[j])
      && CluesLeft(r) + r.cluesFound == CluesLeft(b) + b.cluesFound
      && (CluesNonNegative(b) ==> CluesNonNegative(r))
      && (References(b) ==> References(r))
  {
    var r := TakeClue(b, k);
    SumOfUpdate(b.pieces, k, r.pieces[k], ClueOf);
    assert r.pieces == b.pieces[k := r.pieces[k]];
  }
}
