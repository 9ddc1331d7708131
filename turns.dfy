/** What one call of either state machine hands back, and the input tests
    both machines share (src/app/core/models/game.ts:281-518). */
module Turns {
  import opened Wrappers
  import opened ProcessTypes
  import opened Results
  import opened Boards

  /** The board after the call, the token in the returned result, and its prompts. */
  datatype Step = Step(board: Board, process: Process, prompts: seq<Prompt>)

  function Msg(text: string): Prompt {
    Prompt(Message, Some(text))
  }

  function Snd(path: string): Prompt {
    Prompt(Sound, Some(path))
  }

  /** The answer counts as yes only when it is exactly "y" or "Y". */
  predicate IsYes(input: Option<string>) {
    input == Some("y") || input == Some("Y")
  }

  /** `!code`: no code at all, or the code 0. */
  predicate MissingCode(code: Option<int>) {
    code.None? || code.value == 0
  }

  const MissingCodeMessage: string := "Invalid request. A room number is required."
  const UnknownCodeMessage: string := "Invalid request. Room number not found."
}
