/** The reply a state-machine step builds (src/app/core/models/result.ts):
    the next token and an ordered list of prompts to show or play. */
module Results {
  import opened Wrappers
  import opened ProcessTypes

  datatype PromptType = Message | Sound

  /** A prompt's value; `None` is the null a message carries when the
      source passes an absent string. */
  datatype Prompt = Prompt(kind: PromptType, value: Option<string>)

  /** A missing pid (or 0, which `!pid` also catches) starts the machine at Begin. */
  function ResolvePid(pid: Option<nat>): (p: nat)
    ensures pid.Some? && pid.value != 0 ==> p == pid.value
    ensures pid.None? ==> p == RoomBegin && p == FurnitureBegin
  {
    match pid
    case None => RoomBegin
    case Some(p) => if p == 0 then RoomBegin else p
  }

  /** The status a token carries.  For `explore-furniture` the source reads
      the global `process` here; the model derives it from the pid being
      stored, as the `explore-room` branch does. */
  function StatusOf(action: Action, pid: nat): Status {
    var finish := if action == ExploreRoom then RoomFinish else FurnitureFinish;
    if pid == 0 then StatusBegin
    else if pid == finish then StatusFinish
    else StatusContinue
  }

  /** The status is `begin` exactly at Begin, `finish` exactly at the action's
      Finish state, and `continue` at every other state. */
  lemma StatusOfCases(action: Action, pid: nat)
    ensures StatusOf(action, pid) == StatusBegin <==> pid == RoomBegin
    ensures action == ExploreRoom ==> (StatusOf(action, pid) == StatusFinish <==> pid == RoomFinish)
    ensures action == ExploreFurniture ==> (StatusOf(action, pid) == StatusFinish <==> pid == FurnitureFinish)
    ensures StatusOf(action, pid) == StatusContinue <==>
              pid != 0 && pid != (if action == ExploreRoom then RoomFinish else FurnitureFinish)
  {
  }

  /** The token `setProcess(action, pid)` stores. */
  function Token(action: Action, pid: Option<nat>): (t: Process)
    ensures t.action == action && t.pid == Some(ResolvePid(pid))
    ensures t.status == StatusOf(action, ResolvePid(pid))
  {
    Process(Some(ResolvePid(pid)), action, StatusOf(action, ResolvePid(pid)))
  }

  class Result {
    var process: Option<Process>
    var uiPrompts: seq<Prompt>

    /** A new result has no token yet and no prompts. */
    constructor ()
      ensures process == None && uiPrompts == []
    {
      process := None;
      uiPrompts := [];
    }

    method SetProcess(action: Action, pid: Option<nat>)
      modifies this
      ensures process == Some(Token(action, pid))
      ensures uiPrompts == old(uiPrompts)
    {
      var p := ResolvePid(pid);
      process := Some(Process(Some(p), action, StatusOf(action, p)));
    }

    /** Keeps the action, replaces the pid and recomputes the status. */
    method UpdatePID(pid: nat)
      requires process.Some?
      modifies this
      ensures process == Some(Token(old(process).value.action, Some(pid)))
      ensures uiPrompts == old(uiPrompts)
    {
      SetProcess(process.value.action, Some(pid));
    }

    /** The text may be null, which the source passes along unchecked. */
    method AppendMessage(text: Option<string>)
      modifies this
      ensures uiPrompts == old(uiPrompts) + [Prompt(Message, text)]
      ensures process == old(process)
    {
      uiPrompts := uiPrompts + [Prompt(Message, text)];
    }

    method AppendSound(relativeFilePath: string)
      modifies this
      ensures uiPrompts == old(uiPrompts) + [Prompt(Sound, Some(relativeFilePath))]
      ensures process == old(process)
    {
      uiPrompts := uiPrompts + [Prompt(Sound, Some(relativeFilePath))];
    }
  }
}
