/**
 * The game store of src/store/game.js as values: the view state, the
 * identity map from team to game, and one function per store action giving
 * the state after it. The class in game_store.dfy performs the same actions
 * in place and is proved to agree with these functions.
 */
module GameState {
  import opened Wrappers
  import opened Events

  /** An entry of `roomStates` (the online member count of a team's room). */
  datatype Room = Room(memberCount: Option<int>)

  /** The store's state (src/store/game.js:4-20). */
  datatype View = View(
    gameId: string,
    currentTeamId: string,
    currentTask: Option<Task>,
    currentTaskId: string,
    isCurrentTaskComplete: bool,
    teamGameMap: map<string, string>,
    roomStates: map<string, Room>,
    completedMechanisms: MechanismMap,
    completedSubtasks: SubtaskMap)

  /** The game id bound to `teamId`, or "" when it has none. */
  function Bound(m: map<string, string>, teamId: string): string
  {
    if teamId in m then m[teamId] else ""
  }

  /**
   * The store's invariant: the identity map binds only non-empty team ids to
   * non-empty game ids, and the view's `gameId` is always the binding of the
   * focused team.
   */
  ghost predicate Valid(v: View)
  {
    && "" !in v.teamGameMap
    && (forall t :: t in v.teamGameMap ==> v.teamGameMap[t] != "")
    && v.gameId == Bound(v.teamGameMap, v.currentTeamId)
  }

  /** The initial state: nothing focused, nothing bound. */
  function Init(): (v: View)
    ensures Valid(v)
    ensures v.teamGameMap == map[] && v.currentTeamId == "" && v.currentTask.None?
    ensures v.currentTaskId == "" && !v.isCurrentTaskComplete
    ensures v.roomStates == map[] && v.completedMechanisms == map[] && v.completedSubtasks == map[]
  {
    View("", "", None, "", false, map[], map[], map[], map[])
  }

  // ---------------------------------------------------------------------------
  // Identity map
  // ---------------------------------------------------------------------------

  /** `setTeamGameMapping(teamId, gameId)`. */
  function SetTeamGameMapping(v: View, teamId: string, gameId: string): (r: View)
    ensures teamId == "" || gameId == "" ==> r == v
    ensures teamId != "" && gameId != "" ==>
      && teamId in r.teamGameMap && r.teamGameMap[teamId] == gameId
      && r.teamGameMap.Keys == v.teamGameMap.Keys + {teamId}
      && (forall t :: t in v.teamGameMap && t != teamId ==> r.teamGameMap[t] == v.teamGameMap[t])
      && r.gameId == (if teamId == v.currentTeamId then gameId else v.gameId)
    ensures r.(teamGameMap := v.teamGameMap, gameId := v.gameId) == v
    ensures Valid(v) ==> Valid(r)
  {
    if teamId == "" || gameId == "" then v
    else
      v.(teamGameMap := v.teamGameMap[teamId := gameId],
         gameId := if v.currentTeamId == teamId then gameId else v.gameId)
  }

  /**
   * `getGameIdByTeam(teamId)`: the bound game id if it is truthy, else the
   * view's game id for the focused team, else `null` (None).
   */
  function GameIdByTeam(v: View, teamId: string): (r: Option<string>)
    ensures teamId in v.teamGameMap && v.teamGameMap[teamId] != "" ==> r == Some(v.teamGameMap[teamId])
    ensures teamId !in v.teamGameMap && teamId != v.currentTeamId ==> r == None
    ensures teamId !in v.teamGameMap && teamId == v.currentTeamId ==> r == Some(v.gameId)
    ensures Valid(v) ==> ((r.Some? && r.value != "") <==> teamId in v.teamGameMap)
  {
    if teamId in v.teamGameMap && v.teamGameMap[teamId] != "" then Some(v.teamGameMap[teamId])
    else if teamId == v.currentTeamId then Some(v.gameId)
    else None
  }

  // ---------------------------------------------------------------------------
  // View selector
  // ---------------------------------------------------------------------------

  /** `switchTeam(teamId)`. */
  function SwitchTeam(v: View, teamId: string): (r: View)
    ensures r.currentTeamId == teamId
    ensures teamId == v.currentTeamId ==> r == v
    ensures teamId != v.currentTeamId ==>
      && r.gameId == Bound(v.teamGameMap, teamId)
      && r.currentTaskId == "" && r.currentTask.None? && !r.isCurrentTaskComplete
      && r.completedMechanisms == map[]
      && r.teamGameMap == v.teamGameMap && r.roomStates == v.roomStates
      && r.completedSubtasks == v.completedSubtasks
    ensures Valid(v) ==> Valid(r)
  {
    if v.currentTeamId == teamId then v
    else
      var cached := Bound(v.teamGameMap, teamId);
      v.(currentTeamId := teamId,
         gameId := if cached != "" then cached else "",
         currentTaskId := "",
         currentTask := None,
         isCurrentTaskComplete := false,
         completedMechanisms := map[])
  }

  // ---------------------------------------------------------------------------
  // updateGameState
  // ---------------------------------------------------------------------------

  /** `data.player_state || data`: the body the update reads its fields from. */
  function Body(d: Payload): (b: Payload)
    ensures d.playerState.Some? ==> b == d.playerState.value
    ensures d.playerState.None? ==> b == d
  {
    if d.playerState.Some? then d.playerState.value else d
  }

  /** The team an update is attributed to: outer `team_id`, inner `team_id`, then the focus. */
  function ResolveTeam(v: View, d: Payload): (t: string)
    ensures d.teamId != "" ==> t == d.teamId
    ensures t == "" <==> d.teamId == "" && Body(d).teamId == "" && v.currentTeamId == ""
    ensures d.teamId == "" ==>
              t == (if Body(d).teamId != "" then Body(d).teamId else v.currentTeamId)
    ensures t == d.teamId || t == Body(d).teamId || t == v.currentTeamId
  {
    var incoming := if d.teamId != "" then d.teamId else Body(d).teamId;
    if incoming == "" && v.currentTeamId != "" then v.currentTeamId else incoming
  }

  /** The game id the update carries: outer `game_id`, then inner `game_id`. */
  function IncomingGame(d: Payload): (g: string)
    ensures d.gameId != "" ==> g == d.gameId
    ensures d.gameId == "" ==> g == Body(d).gameId
    ensures g == "" <==> d.gameId == "" && Body(d).gameId == ""
  {
    if d.gameId != "" then d.gameId else Body(d).gameId
  }

  /** `rawData.task || rawData.cur_task`. */
  function TaskObject(b: Payload): (t: Option<Task>)
    ensures b.task.Some? ==> t == b.task
    ensures b.task.None? ==> t == b.curTask
    ensures t.None? <==> b.task.None? && b.curTask.None?
  {
    if b.task.Some? then b.task else b.curTask
  }

  /** `taskObj?.task_id || rawData.task_id || rawData.cur_task_id`. */
  function TaskIdOf(b: Payload): (id: string)
    ensures TaskObject(b).Some? && TaskObject(b).value.taskId != "" ==> id == TaskObject(b).value.taskId
    ensures (TaskObject(b).None? || TaskObject(b).value.taskId == "") ==>
              id == (if b.taskId != "" then b.taskId else b.curTaskId)
    ensures id == "" <==>
              (TaskObject(b).None? || TaskObject(b).value.taskId == "") && b.taskId == "" && b.curTaskId == ""
  {
    var o := TaskObject(b);
    if o.Some? && o.value.taskId != "" then o.value.taskId
    else if b.taskId != "" then b.taskId
    else b.curTaskId
  }

  /** Whether the update reaches the view (the team filter lets it through). */
  predicate Applies(v: View, d: Payload)
  {
    var t := ResolveTeam(v, d);
    t == "" || t == v.currentTeamId
  }

  /** The part of the update that runs once the team filter has let it through. */
  function ApplyBody(v: View, b: Payload): (r: View)
    // identity, focus and rooms are not touched
    ensures r.gameId == v.gameId && r.currentTeamId == v.currentTeamId
    ensures r.teamGameMap == v.teamGameMap && r.roomStates == v.roomStates
    // a new task id becomes current with the flag cleared; the same or no id keeps both
    ensures TaskIdOf(b) != "" ==> r.currentTaskId == TaskIdOf(b)
    ensures TaskIdOf(b) != "" && TaskIdOf(b) != v.currentTaskId ==> !r.isCurrentTaskComplete
    ensures TaskIdOf(b) == "" || TaskIdOf(b) == v.currentTaskId ==>
              r.currentTaskId == v.currentTaskId && r.isCurrentTaskComplete == v.isCurrentTaskComplete
    ensures r.currentTask == (if TaskObject(b).Some? then TaskObject(b) else v.currentTask)
    // the progress maps are replaced when present, kept otherwise
    ensures r.completedMechanisms ==
              (if b.completedMechanisms.Some? then b.completedMechanisms.value else v.completedMechanisms)
    ensures r.completedSubtasks ==
              (if b.completedSubtasks.Some? then b.completedSubtasks.value else v.completedSubtasks)
  {
    var id := TaskIdOf(b);
    var v1 := if id != "" && id != v.currentTaskId
              then v.(isCurrentTaskComplete := false, currentTaskId := id)
              else v;
    var v2 := if TaskObject(b).Some? then v1.(currentTask := TaskObject(b)) else v1;
    var v3 := if b.completedMechanisms.Some?
              then v2.(completedMechanisms := b.completedMechanisms.value)
              else v2;
    if b.completedSubtasks.Some? then v3.(completedSubtasks := b.completedSubtasks.value) else v3
  }

  /** `updateGameState(data)`. */
  function UpdateGameState(v: View, d: Payload): (r: View)
    // the focus and the rooms never change
    ensures r.currentTeamId == v.currentTeamId && r.roomStates == v.roomStates
    // the identity map learns the event's binding whatever the focus
    ensures r.teamGameMap == SetTeamGameMapping(v, ResolveTeam(v, d), IncomingGame(d)).teamGameMap
    ensures r.gameId != v.gameId ==>
              r.gameId == IncomingGame(d) && ResolveTeam(v, d) == v.currentTeamId
    // an update for another team changes the identity map and nothing else
    ensures !Applies(v, d) ==> r.(teamGameMap := v.teamGameMap) == v
    // task transition
    ensures Applies(v, d) && TaskIdOf(Body(d)) != "" ==> r.currentTaskId == TaskIdOf(Body(d))
    ensures Applies(v, d) && TaskIdOf(Body(d)) != "" && TaskIdOf(Body(d)) != v.currentTaskId ==>
              !r.isCurrentTaskComplete
    ensures TaskIdOf(Body(d)) == "" || TaskIdOf(Body(d)) == v.currentTaskId ==>
              r.currentTaskId == v.currentTaskId && r.isCurrentTaskComplete == v.isCurrentTaskComplete
    // an update never completes a task, and a completion survives only on the same task
    ensures r.isCurrentTaskComplete ==> v.isCurrentTaskComplete && r.currentTaskId == v.currentTaskId
    ensures Applies(v, d) && TaskObject(Body(d)).Some? ==> r.currentTask == TaskObject(Body(d))
    ensures !Applies(v, d) || TaskObject(Body(d)).None? ==> r.currentTask == v.currentTask
    // progress maps are replaced wholesale, never merged
    ensures Applies(v, d) && Body(d).completedSubtasks.Some? ==>
              r.completedSubtasks == Body(d).completedSubtasks.value
    ensures !Applies(v, d) || Body(d).completedSubtasks.None? ==> r.completedSubtasks == v.completedSubtasks
    ensures Applies(v, d) && Body(d).completedMechanisms.Some? ==>
              r.completedMechanisms == Body(d).completedMechanisms.value
    ensures !Applies(v, d) || Body(d).completedMechanisms.None? ==>
              r.completedMechanisms == v.completedMechanisms
    ensures Valid(v) ==> Valid(r)
  {
    var team := ResolveTeam(v, d);
    var game := IncomingGame(d);
    var v1 := if team != "" && game != "" then SetTeamGameMapping(v, team, game) else v;
    if team != "" && team != v1.currentTeamId then v1
    else ApplyBody(v1, Body(d))
  }

  // ---------------------------------------------------------------------------
  // handleTaskComplete
  // ---------------------------------------------------------------------------

  /** The event names a team other than the focused one. */
  predicate Foreign(v: View, d: Payload)
  {
    d.teamId != "" && d.teamId != v.currentTeamId
  }

  /** The sub-task ids recorded for `taskId` (an absent entry reads as none). */
  function Finished(m: SubtaskMap, taskId: string): seq<string>
  {
    if taskId in m then m[taskId] else []
  }

  predicate NoDuplicates(s: seq<string>)
  {
    forall i, j :: 0 <= i < j < |s| ==> s[i] != s[j]
  }

  /** `handleTaskComplete(data)`, applied to the raw acknowledgment. */
  function HandleTaskComplete(v: View, d: Payload): (r: View)
    ensures Foreign(v, d) ==> r == v
    // only the completion flag, the task id and the sub-task record can change
    ensures r.(completedSubtasks := v.completedSubtasks,
               isCurrentTaskComplete := v.isCurrentTaskComplete,
               currentTaskId := v.currentTaskId) == v
    // a sub-task completion is an order-preserving set insertion ...
    ensures !Foreign(v, d) && d.subTaskId != "" ==>
      var was := Finished(v.completedSubtasks, d.taskId);
      && d.taskId in r.completedSubtasks
      && was <= r.completedSubtasks[d.taskId]
      && (forall s :: s in r.completedSubtasks[d.taskId] <==> s in was || s == d.subTaskId)
      && |r.completedSubtasks[d.taskId]| == |was| + (if d.subTaskId in was then 0 else 1)
      && (NoDuplicates(was) ==> NoDuplicates(r.completedSubtasks[d.taskId]))
      && r.completedSubtasks - {d.taskId} == v.completedSubtasks - {d.taskId}
      // ... that leaves the task's state alone
      && r.isCurrentTaskComplete == v.isCurrentTaskComplete && r.currentTaskId == v.currentTaskId
    // a whole-task completion is accepted for the current task, or when no task is known yet
    ensures !Foreign(v, d) && d.subTaskId == "" ==> r.completedSubtasks == v.completedSubtasks
    ensures !Foreign(v, d) && d.subTaskId == "" && (v.currentTaskId == d.taskId || v.currentTaskId == "") ==>
              r.isCurrentTaskComplete && r.currentTaskId == d.taskId
    ensures !Foreign(v, d) && d.subTaskId == "" && v.currentTaskId != d.taskId && v.currentTaskId != "" ==>
              r == v
    ensures Valid(v) ==> Valid(r)
  {
    if Foreign(v, d) then v
    else if d.subTaskId != "" then
      var was := Finished(v.completedSubtasks, d.taskId);
      var now := if d.subTaskId in was then was else was + [d.subTaskId];
      v.(completedSubtasks := v.completedSubtasks[d.taskId := now])
    else if v.currentTaskId == d.taskId || v.currentTaskId == "" then
      v.(isCurrentTaskComplete := true,
         currentTaskId := if v.currentTaskId == "" then d.taskId else v.currentTaskId)
    else v
  }

  // ---------------------------------------------------------------------------
  // handleMechanismComplete
  // ---------------------------------------------------------------------------

  /** `completedMechanisms[taskId]`, an absent entry reading as `{}`. */
  function Entry(m: MechanismMap, taskId: string): map<string, Mark>
  {
    if taskId in m then m[taskId] else map[]
  }

  /**
   * The event would write a property of the boolean `true`: the sub-task's
   * slot already holds a whole-task flag of that name. In a strict-mode module
   * that assignment throws a TypeError, so the action stops before writing.
   */
  predicate MechanismFaults(v: View, d: Payload)
    // exactly: a focused (or team-less) sub-task event whose sub-task slot of
    // the task holds the flag `true`, which a whole-task mechanism of the same
    // name or a snapshot put there
    ensures MechanismFaults(v, d) <==>
              && !Foreign(v, d) && d.taskId != "" && d.completedMechanism != "" && d.subTaskId != ""
              && d.taskId in v.completedMechanisms
              && d.subTaskId in v.completedMechanisms[d.taskId]
              && v.completedMechanisms[d.taskId][d.subTaskId] == Flag
  {
    && !Foreign(v, d) && d.taskId != "" && d.completedMechanism != "" && d.subTaskId != ""
    && d.subTaskId in Entry(v.completedMechanisms, d.taskId)
    && Entry(v.completedMechanisms, d.taskId)[d.subTaskId].Flag?
  }

  /** Mechanism `name` is recorded for `taskId` (whole task when `sub` is ""). */
  ghost predicate Holds(m: MechanismMap, taskId: string, sub: string, name: string)
  {
    && taskId in m
    && if sub == "" then name in m[taskId] && m[taskId][name].Flag?
       else sub in m[taskId] && m[taskId][sub].Flags? && name in m[taskId][sub].names
  }

  /** The mechanism event is one the action records. */
  predicate MechanismRecords(v: View, d: Payload)
  {
    !Foreign(v, d) && d.taskId != "" && d.completedMechanism != "" && !MechanismFaults(v, d)
  }

  /** `handleMechanismComplete(data)`. */
  function HandleMechanismComplete(v: View, d: Payload): (r: View)
    ensures r.(completedMechanisms := v.completedMechanisms) == v
    ensures !MechanismRecords(v, d) ==> r == v
    ensures MechanismRecords(v, d) ==>
              Holds(r.completedMechanisms, d.taskId, d.subTaskId, d.completedMechanism)
    ensures forall t :: t in v.completedMechanisms ==>
              t in r.completedMechanisms && v.completedMechanisms[t].Keys <= r.completedMechanisms[t].Keys
  {
    if !MechanismRecords(v, d) then v
    else
      var entry := Entry(v.completedMechanisms, d.taskId);
      var entry' :=
        if d.subTaskId != "" then
          var flags := if d.subTaskId in entry then entry[d.subTaskId].names else {};
          entry[d.subTaskId := Flags(flags + {d.completedMechanism})]
        else
          entry[d.completedMechanism := Flag];
      v.(completedMechanisms := v.completedMechanisms[d.taskId := entry'])
  }

  // ---------------------------------------------------------------------------
  // taskProgress getter
  // ---------------------------------------------------------------------------

  /** The text the getter renders: "加载中...", "进行中", or "<done> / <total>". */
  datatype Progress = Loading | InProgress | Fraction(done: nat, total: nat)

  /** The `taskProgress` getter. */
  function TaskProgress(v: View): (p: Progress)
    ensures p.Loading? <==> v.currentTask.None?
    ensures p.InProgress? <==> v.currentTask.Some? && !v.currentTask.value.havingSubTasks
    ensures p.Fraction? ==>
              && p.done == |Finished(v.completedSubtasks, v.currentTask.value.taskId)|
              && p.total == |v.currentTask.value.subTasks|
  {
    match v.currentTask
    case None => Loading
    case Some(task) =>
      if task.havingSubTasks
      then Fraction(|Finished(v.completedSubtasks, task.taskId)|, |task.subTasks|)
      else InProgress
  }

  // ---------------------------------------------------------------------------
  // Properties relating several actions
  // ---------------------------------------------------------------------------

  /**
   * `game:cur_task` and `game:new_task` each have two listeners, so every such
   * event is applied twice: a second application of the same payload changes
   * nothing.
   */
  lemma UpdateIdempotent(v: View, d: Payload)
    ensures UpdateGameState(UpdateGameState(v, d), d) == UpdateGameState(v, d)
  {
    var r := UpdateGameState(v, d);
    assert ResolveTeam(r, d) == ResolveTeam(v, d);
  }

  /** Applying the same bare acknowledgment twice yields the state of applying it once. */
  lemma TaskCompleteIdempotent(v: View, d: Payload)
    ensures HandleTaskComplete(HandleTaskComplete(v, d), d) == HandleTaskComplete(v, d)
  {
  }

  /**
   * A mechanism event records exactly its own (task, sub-task, mechanism)
   * triple and loses nothing, except that a whole-task flag written under a
   * name that is also a sub-task id replaces that sub-task's flags.
   */
  lemma MechanismMonotone(v: View, d: Payload, t: string, sub: string, name: string)
    ensures var r := HandleMechanismComplete(v, d);
      && (Holds(r.completedMechanisms, t, sub, name) ==>
            Holds(v.completedMechanisms, t, sub, name) ||
            (t == d.taskId && sub == d.subTaskId && name == d.completedMechanism))
      && (Holds(v.completedMechanisms, t, sub, name) &&
          !(t == d.taskId && d.subTaskId == "" && sub == d.completedMechanism) ==>
            Holds(r.completedMechanisms, t, sub, name))
  {
  }

  /**
   * Switching away from the focused team and back restores its game binding
   * and keeps the identity map and the sub-task record, but the task fields
   * and mechanism record of the view start empty again.
   */
  lemma SwitchAwayAndBack(v: View, other: string)
    requires Valid(v) && other != v.currentTeamId
    ensures var r := SwitchTeam(SwitchTeam(v, other), v.currentTeamId);
      && r.currentTeamId == v.currentTeamId && r.gameId == v.gameId
      && r.teamGameMap == v.teamGameMap && r.completedSubtasks == v.completedSubtasks
      && r.currentTaskId == "" && r.currentTask.None? && !r.isCurrentTaskComplete
      && r.completedMechanisms == map[]
  {
  }

  /**
   * A new sub-task completion for the task on screen advances the progress
   * counter by one; a repeated one leaves it as it was.
   */
  lemma ProgressAdvances(v: View, d: Payload)
    requires !Foreign(v, d) && d.subTaskId != ""
    requires v.currentTask.Some? && v.currentTask.value.havingSubTasks
    requires d.taskId == v.currentTask.value.taskId
    ensures var before := Finished(v.completedSubtasks, d.taskId);
      TaskProgress(HandleTaskComplete(v, d)).done ==
        if d.subTaskId in before then |before| else |before| + 1
  {
  }
}
