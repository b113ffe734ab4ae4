/**
 * The shapes of the payloads the game server pushes over the socket, as the
 * stores read them. JavaScript truthiness is made explicit: a string field
 * holding "" stands for a field that is absent, `null`, `undefined` or the
 * empty string (all falsy); an object-valued field is an Option, because an
 * object, even an empty one, is truthy.
 */
module Events {
  import opened Wrappers

  /** A task object (`task` / `cur_task` / the store's `currentTask`). */
  datatype Task = Task(taskId: string, havingSubTasks: bool, subTasks: seq<string>)

  /**
   * A value held under `completedMechanisms[task]`: either the flag `true`
   * (a mechanism recorded for the whole task) or an object of flags (the
   * mechanisms recorded for one sub-task).
   */
  datatype Mark = Flag | Flags(names: set<string>)

  /** task id -> (mechanism tag or sub-task id) -> mark. */
  type MechanismMap = map<string, map<string, Mark>>

  /** task id -> the sub-task ids completed so far, in arrival order. */
  type SubtaskMap = map<string, seq<string>>

  /**
   * One event body. `playerState` is the nested authoritative snapshot
   * (`player_state`), itself a body of the same shape.
   */
  datatype Payload = Payload(
    teamId: string,
    gameId: string,
    task: Option<Task>,
    curTask: Option<Task>,
    taskId: string,
    curTaskId: string,
    subTaskId: string,
    completedMechanism: string,
    completedMechanisms: Option<MechanismMap>,
    completedSubtasks: Option<SubtaskMap>,
    membersCount: Option<int>,
    taskMsg: string,
    playerState: Option<Payload>)

  /** The empty object `{}`: every field absent. */
  function Blank(): Payload
  {
    Payload("", "", None, None, "", "", "", "", None, None, None, "", None)
  }
}
