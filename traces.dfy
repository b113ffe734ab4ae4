/**
 * Runs of the client: inbound events and state-changing commands applied in
 * arrival order, one to completion before the next (the event loop of the
 * page). Properties that hold of every run, and two sessions of a guide
 * played through to the end.
 */
module Traces {
  import opened Wrappers
  import opened Events
  import GameState
  import opened Socket

  /** An inbound event, by the name its listener is registered under. */
  datatype Inbound =
    | ConnectEvent(user: User)           // connect
    | DisconnectEvent                    // disconnect
    | RoomJoined(data: Payload)          // game:room_joined
    | CurTask(data: Payload)             // game:cur_task
    | MemberJoined(data: Payload)        // team:member_joined
    | MemberLeft(data: Payload)          // team:member_left
    | GameCreated(data: Payload)         // game:game_created
    | GameStarted(data: Payload)         // game_started
    | NewTask(data: Payload)             // game:new_task
    | TaskComplete(data: Payload)        // game:task_complete
    | DebugPlayerState(data: Payload)    // game:debug_player_state
    | MechanismComplete(data: Payload)   // game:mechanism_complete

  /** One step of a run: an event from the server, or a command of the guide. */
  datatype Step =
    | Receive(event: Inbound)
    | DoConnect
    | DoDisconnect
    | DoJoinRoom(teamId: string, user: User)
    | DoStartGame(gameId: string)

  /** The listener(s) registered for an event. */
  function Deliver(c: Client, e: Inbound): Outcome
  {
    match e
    case ConnectEvent(user) => OnConnect(c, user)
    case DisconnectEvent => Outcome(OnDisconnect(c), NoEffects)
    case RoomJoined(d) => OnRoomJoined(c, d)
    case CurTask(d) => OnCurTask(c, d)
    case MemberJoined(d) => Outcome(OnMemberJoined(c, d), NoEffects)
    case MemberLeft(d) => Outcome(OnMemberLeft(c, d), NoEffects)
    case GameCreated(d) => OnGameCreated(c, d)
    case GameStarted(d) => OnGameStarted(c, d)
    case NewTask(d) => OnNewTask(c, d)
    case TaskComplete(d) => OnTaskComplete(c, d)
    case DebugPlayerState(d) => Outcome(OnDebugPlayerState(c, d), NoEffects)
    case MechanismComplete(d) => OnMechanismComplete(c, d)
  }

  function Apply(c: Client, s: Step): Outcome
  {
    match s
    case Receive(e) => Deliver(c, e)
    case DoConnect => Outcome(Socket.Connect(c), NoEffects)
    case DoDisconnect => Outcome(Socket.Disconnect(c), NoEffects)
    case DoJoinRoom(t, user) => JoinRoom(c, t, user)
    case DoStartGame(g) => StartGame(c, g)
  }

  /** An update never unbinds a team. */
  lemma UpdateKeepsBindings(g: GameState.View, d: Payload)
    ensures g.teamGameMap.Keys <= GameState.UpdateGameState(g, d).teamGameMap.Keys
  {
  }

  /** One event keeps the store's invariant and never unbinds a team. */
  lemma DeliverPreserves(c: Client, e: Inbound)
    ensures GameState.Valid(c.game) ==> GameState.Valid(Deliver(c, e).client.game)
    ensures c.game.teamGameMap.Keys <= Deliver(c, e).client.game.teamGameMap.Keys
  {
    match e
    case ConnectEvent(user) =>
    case DisconnectEvent =>
    case RoomJoined(d) => UpdateKeepsBindings(c.game, d);
    case CurTask(d) => UpdateKeepsBindings(c.game, d);
    case MemberJoined(d) =>
    case MemberLeft(d) =>
    case GameCreated(d) => UpdateKeepsBindings(c.game, d);
    case GameStarted(d) => UpdateKeepsBindings(c.game, d);
    case NewTask(d) =>
      var b := NewTaskBody(d);
      if b.Some? {
        UpdateKeepsBindings(c.game, b.value);
      }
    case TaskComplete(d) =>
      if d.playerState.Some? {
        UpdateKeepsBindings(c.game, d.playerState.value);
      }
    case DebugPlayerState(d) =>
      var b := GameState.Body(d);
      assert Deliver(c, e).client.game == GameState.UpdateGameState(c.game, b);
      UpdateKeepsBindings(c.game, b);
    case MechanismComplete(d) =>
  }

  /** One step keeps the store's invariant and never unbinds a team. */
  lemma StepPreserves(c: Client, s: Step)
    ensures GameState.Valid(c.game) ==> GameState.Valid(Apply(c, s).client.game)
    ensures c.game.teamGameMap.Keys <= Apply(c, s).client.game.teamGameMap.Keys
  {
    match s
    case Receive(e) => DeliverPreserves(c, e);
    case DoConnect =>
    case DoDisconnect =>
    case DoJoinRoom(t, user) =>
    case DoStartGame(g) =>
  }

  /**
   * The client after a run. Along any run the identity map only grows, and
   * the invariant of the game store (truthy bindings, the view's game id is
   * the focused team's binding) holds throughout.
   */
  function Run(c: Client, steps: seq<Step>): (r: Client)
    ensures GameState.Valid(c.game) ==> GameState.Valid(r.game)
    ensures c.game.teamGameMap.Keys <= r.game.teamGameMap.Keys
    decreases |steps|
  {
    if steps == [] then c
    else
      StepPreserves(c, steps[0]);
      Run(Apply(c, steps[0]).client, steps[1..])
  }

  /** Every step is an event from the server (no command of the guide). */
  predicate OnlyInbound(steps: seq<Step>)
  {
    forall i :: 0 <= i < |steps| ==> steps[i].Receive?
  }

  /** No listener moves the focus. */
  lemma DeliverKeepsFocus(c: Client, e: Inbound)
    ensures Deliver(c, e).client.game.currentTeamId == c.game.currentTeamId
  {
    match e
    case NewTask(d) =>
      var b := NewTaskBody(d);
    case DebugPlayerState(d) =>
      assert Deliver(c, e).client.game == GameState.UpdateGameState(c.game, GameState.Body(d));
    case _ =>
  }

  /** Server events never move the focus: only the guide's joinRoom does. */
  lemma {:induction false} InboundKeepsFocus(c: Client, steps: seq<Step>)
    requires OnlyInbound(steps)
    ensures Run(c, steps).game.currentTeamId == c.game.currentTeamId
    decreases |steps|
  {
    if steps != [] {
      assert steps[0].Receive?;
      assert OnlyInbound(steps[1..]) by {
        forall i | 0 <= i < |steps[1..]| ensures steps[1..][i].Receive? {
          assert steps[1..][i] == steps[i + 1];
        }
      }
      DeliverKeepsFocus(c, steps[0].event);
      InboundKeepsFocus(Apply(c, steps[0]).client, steps[1..]);
    }
  }

  /**
   * Of the guide's commands only joinRoom moves the focus; with the listeners
   * (DeliverKeepsFocus) this makes it the only step that can.
   */
  lemma OnlyJoinRoomMovesFocus(c: Client, s: Step)
    ensures Apply(c, s).client.game.currentTeamId != c.game.currentTeamId ==> s.DoJoinRoom?
  {
    if s.Receive? {
      DeliverKeepsFocus(c, s.event);
    }
  }

  /** A team bound once stays resolvable to a game for the rest of the run. */
  lemma {:induction false} BindingSurvives(c: Client, steps: seq<Step>, teamId: string)
    requires GameState.Valid(c.game) && teamId in c.game.teamGameMap
    ensures var g := GameState.GameIdByTeam(Run(c, steps).game, teamId);
      g.Some? && g.value != ""
  {
  }

  /**
   * Under the invariant, a bare acknowledgment schedules a pull exactly when
   * its team is bound, and the pull targets that team's game, whatever team
   * is on screen.
   */
  lemma PullTargetsBoundGame(c: Client, d: Payload)
    requires GameState.Valid(c.game) && d.playerState.None?
    ensures OnTaskComplete(c, d).effects.timers ==
              if d.teamId in c.game.teamGameMap
              then [After(PullDelayMs, Pull(c.game.teamGameMap[d.teamId]))]
              else []
  {
  }

  /**
   * A bare `game:new_task` for a team other than the focused one changes
   * nothing and shows nothing.
   */
  lemma BackgroundNewTaskIsSilent(c: Client, d: Payload)
    requires d.playerState.None? && d.teamId != "" && d.teamId != c.game.currentTeamId
    ensures OnNewTask(c, d) == Outcome(c, NoEffects)
  {
  }

  /**
   * A `game:new_task`, `game:task_complete` or `game:debug_player_state` for
   * another team whose `player_state` lacks a team id lands on the focused
   * team's view: each handler passes the inner body alone, so the outer team
   * id is lost and the store falls back to the focus.
   */
  lemma SnapshotWithoutInnerTeamLandsOnFocus(c: Client, d: Payload)
    requires c.game.currentTeamId != ""
    requires d.teamId != "" && d.teamId != c.game.currentTeamId
    requires d.playerState.Some? && d.playerState.value.teamId == ""
    requires d.playerState.value.playerState.None?
    requires GameState.TaskIdOf(d.playerState.value) != ""
    ensures OnNewTask(c, d).client.game.currentTaskId == GameState.TaskIdOf(d.playerState.value)
    ensures OnTaskComplete(c, d).client.game.currentTaskId == GameState.TaskIdOf(d.playerState.value)
    ensures OnDebugPlayerState(c, d).game.currentTaskId == GameState.TaskIdOf(d.playerState.value)
  {
  }

  /** A bare task summary for the focused team. */
  function TaskSummary(teamId: string, task: Task): Payload
  {
    Blank().(teamId := teamId, task := Some(task), taskId := task.taskId)
  }

  /** A bare acknowledgment for the focused team, with a task id and maybe a sub-task id. */
  function Ack(teamId: string, taskId: string, subTaskId: string): Payload
  {
    Blank().(teamId := teamId, taskId := taskId, subTaskId := subTaskId)
  }

  /**
   * New task, sub-task completion, whole-task completion, for the focused
   * team and with the task id on every acknowledgment: the task ends current
   * and complete, with the sub-task recorded under it.
   */
  lemma {:induction false} NewTaskThenCompletions(c: Client, task: Task, sub: string)
    requires GameState.Valid(c.game)
    requires c.game.currentTeamId != "" && task.taskId != "" && sub != ""
    ensures var focus := c.game.currentTeamId;
      var r := Run(c, [Receive(NewTask(TaskSummary(focus, task))),
                       Receive(TaskComplete(Ack(focus, task.taskId, sub))),
                       Receive(TaskComplete(Ack(focus, task.taskId, "")))]);
      && r.game.currentTaskId == task.taskId
      && r.game.isCurrentTaskComplete
      && task.taskId in r.game.completedSubtasks
      && sub in r.game.completedSubtasks[task.taskId]
  {
    var focus := c.game.currentTeamId;
    var s := [Receive(NewTask(TaskSummary(focus, task))),
              Receive(TaskComplete(Ack(focus, task.taskId, sub))),
              Receive(TaskComplete(Ack(focus, task.taskId, "")))];
    var c1 := Apply(c, s[0]).client;
    assert c1.game.currentTaskId == task.taskId && c1.game.currentTeamId == focus;
    var c2 := Apply(c1, s[1]).client;
    assert c2.game.currentTaskId == task.taskId && c2.game.currentTeamId == focus;
    assert sub in c2.game.completedSubtasks[task.taskId];
    var c3 := Apply(c2, s[2]).client;
    assert c3.game.isCurrentTaskComplete && c3.game.completedSubtasks == c2.game.completedSubtasks;
    assert s[1..][1..][1..] == [];
    assert Run(c, s) == Run(c1, s[1..]);
    assert Run(c1, s[1..]) == Run(c2, s[1..][1..]);
    assert Run(c2, s[1..][1..]) == Run(c3, []);
  }

  /** A first sub-task acknowledgment without a task id is filed under the absent key. */
  lemma AckWithoutTaskId(v: GameState.View, sub: string)
    requires v.currentTeamId != "" && sub != "" && "" !in v.completedSubtasks
    ensures GameState.HandleTaskComplete(v, Ack(v.currentTeamId, "", sub)) ==
              v.(completedSubtasks := v.completedSubtasks["" := [sub]])
  {
    assert GameState.Finished(v.completedSubtasks, "") == [];
    assert [] + [sub] == [sub];
  }

  /**
   * A guide's session in which the acknowledgments carry no task id: the
   * sub-task is filed under the absent task id, so the progress of task-a
   * stays 0 / 2, and the bare whole-task completion is refused because a
   * task id is already current.
   */
  lemma {:induction false} SessionWithoutTaskIds()
    ensures var c0 := Client(Open(true), true, false, GameState.Init());
      var guide := User("guide-1", "", "", "");
      var task := Task("task-a", true, ["s1", "s2"]);
      var r := Run(c0, [DoJoinRoom("T1", guide),
                        Receive(NewTask(TaskSummary("T1", task))),
                        Receive(TaskComplete(Ack("T1", "", "s1"))),
                        Receive(TaskComplete(Ack("T1", "", "")))]);
      && r.game.currentTaskId == "task-a"
      && !r.game.isCurrentTaskComplete
      && GameState.TaskProgress(r.game) == GameState.Fraction(0, 2)
      && r.game.completedSubtasks == map["" := ["s1"]]
  {
    var c0 := Client(Open(true), true, false, GameState.Init());
    var guide := User("guide-1", "", "", "");
    var task := Task("task-a", true, ["s1", "s2"]);
    var s := [DoJoinRoom("T1", guide),
              Receive(NewTask(TaskSummary("T1", task))),
              Receive(TaskComplete(Ack("T1", "", "s1"))),
              Receive(TaskComplete(Ack("T1", "", "")))];
    var c1 := Apply(c0, s[0]).client;
    assert c1.game.currentTeamId == "T1" && c1.game.currentTaskId == "";
    var c2 := Apply(c1, s[1]).client;
    assert c2.game.currentTaskId == "task-a" && !c2.game.isCurrentTaskComplete;
    assert c2.game.currentTask == Some(task) && c2.game.completedSubtasks == map[];
    var c3 := Apply(c2, s[2]).client;
    assert c3.game == GameState.HandleTaskComplete(c2.game, Ack("T1", "", "s1"));
    AckWithoutTaskId(c2.game, "s1");
    assert c3.game.completedSubtasks == map["" := ["s1"]];
    var c4 := Apply(c3, s[3]).client;
    assert c4 == c3;
    assert Run(c0, s) == Run(c1, s[1..]);
    assert Run(c1, s[1..]) == Run(c2, s[2..]);
    assert Run(c2, s[2..]) == Run(c3, s[3..]);
    assert Run(c3, s[3..]) == Run(c4, []);
  }
}
