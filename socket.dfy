/**
 * The socket store of src/store/socket.js as values. The transport is reduced
 * to what the store can observe of it (whether a socket object exists and
 * whether it reports itself connected); everything the store sends or shows
 * is returned as Effects: messages emitted now, actions scheduled on a timer,
 * and notices for the user interface. The class in socket_store.dfy performs
 * the same handlers and commands in place.
 */
module Socket {
  import opened Wrappers
  import opened Events
  import GameState

  /** `this.socket` and its `connected` flag as the transport reports it. */
  datatype Link = NoSocket | Open(connected: bool)

  /** The socket store's own fields together with the game store it drives. */
  datatype Client = Client(link: Link, isConnected: bool, isGameStarted: bool, game: GameState.View)

  /** What the user store supplies: `userId`, `userInfo.id`, the stored `userId`, `userName`. */
  datatype User = User(userId: string, infoId: string, storedId: string, userName: string)

  /** Outbound events, with `timestamp` an opaque value supplied by the caller. */
  datatype Message =
    | Join(teamId: string, userId: string, username: string)
    | ScriptChoice(teamId: string, scriptId: string, timestamp: string)
    | Start(gameId: string)
    | TaskSubmit(gameId: string, taskId: string, submission: map<string, string>,
                 subTaskId: Option<string>, timestamp: string)
    | PullState(gameId: string, timestamp: string)
    | ForceComplete(gameId: string, taskId: string, subTaskId: Option<string>, timestamp: string)

  /** The wire name of each outbound event; each kind of message has its own. */
  function EventName(m: Message): (name: string)
    ensures name == "game:join_room" <==> m.Join?
    ensures name == "game:select_script" <==> m.ScriptChoice?
    ensures name == "game:start" <==> m.Start?
    ensures name == "game:task_submit" <==> m.TaskSubmit?
    ensures name == "game:debug_get_player_state" <==> m.PullState?
    ensures name == "guide:force_complete_task" <==> m.ForceComplete?
  {
    match m
    case Join(_, _, _) => "game:join_room"
    case ScriptChoice(_, _, _) => "game:select_script"
    case Start(_) => "game:start"
    case TaskSubmit(_, _, _, _, _) => "game:task_submit"
    case PullState(_, _) => "game:debug_get_player_state"
    case ForceComplete(_, _, _, _) => "guide:force_complete_task"
  }

  /** What a timer does when it fires. */
  datatype Deferred = Pull(gameId: string) | CloseLoading

  datatype Timer = After(delayMs: nat, action: Deferred)

  datatype Notice = Toast(title: string) | Modal(title: string, content: string) | Vibrate
                  | ShowLoading(title: string) | HideLoading

  datatype Effects = Effects(emitted: seq<Message>, timers: seq<Timer>, notices: seq<Notice>)

  const NoEffects := Effects([], [], [])

  function Notify(notices: seq<Notice>): Effects
  {
    Effects([], [], notices)
  }

  /** Effects of two steps run one after the other. */
  function Then(a: Effects, b: Effects): Effects
  {
    Effects(a.emitted + b.emitted, a.timers + b.timers, a.notices + b.notices)
  }

  /** The result of a handler or command: the new state and what it sent or showed. */
  datatype Outcome = Outcome(client: Client, effects: Effects)

  /** `text || fallback`. */
  function OrElse(text: string, fallback: string): string
  {
    if text != "" then text else fallback
  }

  const GuideName := "导游"
  const SocketDown := "Socket未连接"
  const PullDelayMs := 800
  const LoadingTimeoutMs := 2000

  // ---------------------------------------------------------------------------
  // Connection
  // ---------------------------------------------------------------------------

  /** What `checkConnection()` tests: a socket object exists and `isConnected` is set. */
  predicate Connected(c: Client)
  {
    c.link.Open? && c.isConnected
  }

  /** `this.socket?.connected`. */
  predicate LinkUp(c: Client)
  {
    c.link == Open(true)
  }

  /**
   * `connect()`: nothing when the current socket is connected, otherwise a
   * new socket that has not connected yet.
   */
  function Connect(c: Client): (r: Client)
    ensures LinkUp(c) ==> r == c
    ensures !LinkUp(c) ==> r.link == Open(false)
    ensures r.(link := c.link) == c
  {
    if LinkUp(c) then c else c.(link := Open(false))
  }

  /** `disconnect()`: drops the socket and the connected flag; never touches the game store. */
  function Disconnect(c: Client): (r: Client)
    ensures c.link.NoSocket? ==> r == c
    ensures c.link.Open? ==> r.link.NoSocket? && !r.isConnected
    ensures r.game == c.game && r.isGameStarted == c.isGameStarted
    ensures !Connected(r)
  {
    if c.link.Open? then c.(link := NoSocket, isConnected := false) else c
  }

  // ---------------------------------------------------------------------------
  // Commands that change state
  // ---------------------------------------------------------------------------

  /** `userStore.userId || userStore.userInfo?.id || uni.getStorageSync('userId')`. */
  function RealUserId(u: User): (id: string)
    ensures id == "" <==> u.userId == "" && u.infoId == "" && u.storedId == ""
    ensures u.userId != "" ==> id == u.userId
    ensures u.userId == "" ==> id == (if u.infoId != "" then u.infoId else u.storedId)
  {
    if u.userId != "" then u.userId else if u.infoId != "" then u.infoId else u.storedId
  }

  /** `joinRoom(teamId)`. */
  function JoinRoom(c: Client, teamId: string, user: User): (r: Outcome)
    // without a connected socket: nothing at all, not even a focus switch
    ensures !LinkUp(c) ==> r == Outcome(c, NoEffects)
    // with one: the focus always switches
    ensures LinkUp(c) ==>
              r.client == c.(game := GameState.SwitchTeam(c.game, teamId)) && r.effects.timers == []
    // the join is emitted only for a resolvable user, under the default name if need be
    ensures r.effects.emitted != [] <==> LinkUp(c) && RealUserId(user) != ""
    ensures r.effects.emitted != [] ==>
              r.effects.emitted == [Join(teamId, RealUserId(user), OrElse(user.userName, GuideName))]
    ensures LinkUp(c) && RealUserId(user) == "" ==> r.effects.notices == [Toast("需重新登录")]
    ensures RealUserId(user) != "" ==> r.effects.notices == []
    ensures GameState.Valid(c.game) ==> GameState.Valid(r.client.game)
  {
    if !LinkUp(c) then Outcome(c, NoEffects)
    else
      var c1 := c.(game := GameState.SwitchTeam(c.game, teamId));
      var id := RealUserId(user);
      if id == "" then Outcome(c1, Notify([Toast("需重新登录")]))
      else Outcome(c1, Effects([Join(teamId, id, OrElse(user.userName, GuideName))], [], []))
  }

  /** `startGame(gameId)`. */
  function StartGame(c: Client, gameId: string): (r: Outcome)
    ensures r.effects.timers == []
    ensures r.effects.emitted != [] <==> Connected(c) && gameId != ""
    ensures r.effects.emitted != [] ==> r.effects.emitted == [Start(gameId)]
    ensures r.effects.emitted == [] ==> r.client == c
    // before emitting, the focused team (if any) is bound to the game
    ensures r.effects.emitted != [] && c.game.currentTeamId != "" ==>
              && c.game.currentTeamId in r.client.game.teamGameMap
              && r.client.game.teamGameMap[c.game.currentTeamId] == gameId
              && r.client.game.gameId == gameId
    ensures r.effects.emitted != [] ==>
              r.client.game == if c.game.currentTeamId != ""
                               then GameState.SetTeamGameMapping(c.game, c.game.currentTeamId, gameId)
                               else c.game
    ensures r.effects.emitted != [] ==> r.effects.notices == []
    ensures r.client.(game := c.game) == c
    ensures !Connected(c) ==> r.effects.notices == [Toast(SocketDown)]
    ensures Connected(c) && gameId == "" ==> r.effects.notices == [Toast("缺 GameID")]
    ensures GameState.Valid(c.game) ==> GameState.Valid(r.client.game)
  {
    if !Connected(c) then Outcome(c, Notify([Toast(SocketDown)]))
    else if gameId == "" then Outcome(c, Notify([Toast("缺 GameID")]))
    else
      var focus := c.game.currentTeamId;
      var g := if focus != "" then GameState.SetTeamGameMapping(c.game, focus, gameId) else c.game;
      Outcome(c.(game := g), Effects([Start(gameId)], [], []))
  }

  // ---------------------------------------------------------------------------
  // Commands that only send
  // ---------------------------------------------------------------------------

  /** `checkConnection()`: the answer and the toast shown when it is no. */
  function CheckConnection(c: Client): (fx: Effects)
    ensures fx.emitted == [] && fx.timers == []
    ensures fx.notices == [] <==> Connected(c)
    ensures fx.notices != [] ==> fx.notices == [Toast(SocketDown)]
  {
    if Connected(c) then NoEffects else Notify([Toast(SocketDown)])
  }

  /** `selectScript(teamId, scriptId)`. */
  function SelectScript(c: Client, teamId: string, scriptId: string, now: string): (fx: Effects)
    ensures fx.emitted != [] <==> Connected(c)
    ensures fx.emitted != [] ==> fx.emitted == [ScriptChoice(teamId, scriptId, now)]
    ensures fx.timers == []
    ensures fx.notices == CheckConnection(c).notices
  {
    if Connected(c) then Effects([ScriptChoice(teamId, scriptId, now)], [], [])
    else CheckConnection(c)
  }

  const DefaultMechanism := "STAFF_CONFIRM"
  const StaffId := "GUIDE_ADMIN"
  const NotReady := "未连接或无游戏ID"

  /**
   * The `submission_data` of a submission: the mechanism type and the fixed
   * staff id, with the caller's extra fields spread over them.
   */
  function Submission(data: map<string, string>, mechanismType: string): (s: map<string, string>)
    ensures s.Keys == data.Keys + {"mechanism_type", "staff_id"}
    ensures forall k :: k in data ==> s[k] == data[k]
    ensures "mechanism_type" !in data ==> s["mechanism_type"] == mechanismType
    ensures "staff_id" !in data ==> s["staff_id"] == StaffId
  {
    map["mechanism_type" := mechanismType, "staff_id" := StaffId] + data
  }

  /**
   * `submitTask(data, mechanismType)`. `selected` is what the game store
   * holds under `selectedSubTaskId` ("" when nothing is there); an absent
   * mechanism type takes the default.
   */
  function SubmitTask(c: Client, data: map<string, string>, mechanismType: Option<string>,
                      selected: string, now: string): (fx: Effects)
    // sent only when connected and a game id is known
    ensures fx.emitted != [] <==> Connected(c) && c.game.gameId != ""
    ensures fx.emitted != [] ==>
      && |fx.emitted| == 1 && fx.emitted[0].TaskSubmit?
      && fx.emitted[0].gameId == c.game.gameId
      && fx.emitted[0].taskId == c.game.currentTaskId
      && fx.emitted[0].timestamp == now
      && fx.emitted[0].submission == Submission(data, if mechanismType.Some? then mechanismType.value else DefaultMechanism)
    // the sub-task rides along only for a task with sub-tasks and a selection
    ensures fx.emitted != [] ==>
      (fx.emitted[0].subTaskId.Some? <==>
         c.game.currentTask.Some? && c.game.currentTask.value.havingSubTasks && selected != "")
    ensures fx.emitted != [] && fx.emitted[0].subTaskId.Some? ==> fx.emitted[0].subTaskId.value == selected
    // a loading indicator, closed by a timer in case no answer arrives
    ensures fx.emitted != [] ==>
              fx.notices == [ShowLoading("通行中...")] && fx.timers == [After(LoadingTimeoutMs, CloseLoading)]
    // refused: the connection check's toast, then the command's own
    ensures fx.emitted == [] ==>
              fx.timers == [] && fx.notices == CheckConnection(c).notices + [Toast(NotReady)]
  {
    if !Connected(c) || c.game.gameId == "" then
      Then(CheckConnection(c), Notify([Toast(NotReady)]))
    else
      var mt := if mechanismType.Some? then mechanismType.value else DefaultMechanism;
      var task := c.game.currentTask;
      var sub := if task.Some? && task.value.havingSubTasks && selected != "" then Some(selected) else None;
      Effects([TaskSubmit(c.game.gameId, c.game.currentTaskId, Submission(data, mt), sub, now)],
              [After(LoadingTimeoutMs, CloseLoading)], [ShowLoading("通行中...")])
  }

  const NoGameId := "无游戏ID，无法操作"

  /**
   * `forceCompleteTask({sub_task_id})`: the game id is checked before the
   * connection, so a missing game id wins over a dead socket.
   */
  function ForceCompleteTask(c: Client, subTaskId: string, now: string): (fx: Effects)
    ensures fx.emitted != [] <==> c.game.gameId != "" && Connected(c)
    ensures c.game.gameId == "" ==> fx == Notify([Toast(NoGameId)])
    ensures c.game.gameId != "" && !Connected(c) ==> fx == CheckConnection(c)
    ensures fx.emitted != [] ==>
      && fx.emitted == [ForceComplete(c.game.gameId, c.game.currentTaskId,
                                      if subTaskId != "" then Some(subTaskId) else None, now)]
      && fx.notices == [ShowLoading("强制通行中...")]
      && fx.timers == [After(LoadingTimeoutMs, CloseLoading)]
  {
    if c.game.gameId == "" then Notify([Toast(NoGameId)])
    else if !Connected(c) then CheckConnection(c)
    else
      var sub := if subTaskId != "" then Some(subTaskId) else None;
      Effects([ForceComplete(c.game.gameId, c.game.currentTaskId, sub, now)],
              [After(LoadingTimeoutMs, CloseLoading)], [ShowLoading("强制通行中...")])
  }

  /**
   * A timer firing. The pull emits on whatever socket the store holds then,
   * for the game id captured when it was scheduled; with no socket the
   * emit throws (None). Closing the loading indicator never fails.
   */
  function Fire(c: Client, t: Timer, now: string): (r: Option<Effects>)
    ensures t.action.CloseLoading? ==> r == Some(Notify([HideLoading]))
    ensures t.action.Pull? ==> (r.Some? <==> c.link.Open?)
    ensures t.action.Pull? && r.Some? ==> r.value == Effects([PullState(t.action.gameId, now)], [], [])
  {
    match t.action
    case CloseLoading => Some(Notify([HideLoading]))
    case Pull(g) => if c.link.Open? then Some(Effects([PullState(g, now)], [], [])) else None
  }

  // ---------------------------------------------------------------------------
  // Inbound events
  // ---------------------------------------------------------------------------

  /**
   * `data.team_id === gameStore.currentTeamId`, the gate of every notice. An
   * absent team id is `undefined`, which equals no string.
   */
  predicate Same(c: Client, teamId: string)
  {
    teamId != "" && teamId == c.game.currentTeamId
  }

  /** `connect`: mark connected and rejoin the focused room. */
  function OnConnect(c: Client, user: User): (r: Outcome)
    ensures r.client.isConnected && r.client.isGameStarted == c.isGameStarted
    // an existing socket now reports itself connected
    ensures r.client.link == if c.link.Open? then Open(true) else NoSocket
    // rejoining never changes the game store
    ensures r.client.game == c.game
    ensures r.effects.emitted != [] <==>
              c.link.Open? && c.game.currentTeamId != "" && user.userId != ""
    ensures r.effects.emitted != [] ==>
              r.effects.emitted == [Join(c.game.currentTeamId, user.userId, OrElse(user.userName, GuideName))]
    ensures r.effects.timers == [] && r.effects.notices == []
  {
    var c1 := c.(isConnected := true, link := if c.link.Open? then Open(true) else NoSocket);
    if c1.game.currentTeamId != "" && user.userId != ""
    then JoinRoom(c1, c1.game.currentTeamId, user)
    else Outcome(c1, NoEffects)
  }

  /** `disconnect` (the transport went down). */
  function OnDisconnect(c: Client): (r: Client)
    ensures !r.isConnected && !LinkUp(r)
    ensures r.game == c.game && r.link.Open? == c.link.Open?
    ensures r.isGameStarted == c.isGameStarted
  {
    c.(isConnected := false, link := if c.link.Open? then Open(false) else NoSocket)
  }

  /** An update of the game store followed by a toast when the event is the focused team's. */
  function UpdateAndToast(c: Client, d: Payload, gate: string, title: string): (r: Outcome)
    ensures r.client == c.(game := GameState.UpdateGameState(c.game, d))
    ensures r.effects.emitted == [] && r.effects.timers == []
    ensures r.effects.notices == if Same(c, gate) then [Toast(title)] else []
  {
    var c1 := c.(game := GameState.UpdateGameState(c.game, d));
    Outcome(c1, Notify(if Same(c1, gate) then [Toast(title)] else []))
  }

  /** `game:room_joined`. */
  function OnRoomJoined(c: Client, d: Payload): (r: Outcome)
    ensures r.client == c.(game := GameState.UpdateGameState(c.game, d))
    ensures r.effects == Notify(if Same(c, d.teamId) then [Toast("已进入房间")] else [])
  {
    UpdateAndToast(c, d, d.teamId, "已进入房间")
  }

  /** The team id the second `game:cur_task` / `game:new_task` listener computes. */
  function InnerTeam(d: Payload): (t: string)
    ensures d.teamId != "" ==> t == d.teamId
    ensures d.teamId == "" ==> t == (if d.playerState.Some? then d.playerState.value.teamId else "")
    ensures t == "" <==> d.teamId == "" && (d.playerState.None? || d.playerState.value.teamId == "")
  {
    if d.teamId != "" then d.teamId
    else if d.playerState.Some? then d.playerState.value.teamId
    else ""
  }

  /**
   * `game:cur_task`. Two listeners are registered for it, so the payload is
   * applied twice; the second application changes nothing.
   */
  function OnCurTask(c: Client, d: Payload): (r: Outcome)
    ensures r.client == c.(game := GameState.UpdateGameState(c.game, d))
    ensures r.effects.emitted == [] && r.effects.timers == []
    // each listener shows its toast when its own team id names the focus
    ensures r.effects.notices ==
              (if Same(c, d.teamId) then [Toast("已恢复进度")] else []) +
              (if Same(c, InnerTeam(d)) then [Toast("已恢复进度")] else [])
    ensures r.effects.notices != [] ==> Same(c, InnerTeam(d))
  {
    var first := UpdateAndToast(c, d, d.teamId, "已恢复进度");
    var second := UpdateAndToast(first.client, d, InnerTeam(d), "已恢复进度");
    GameState.UpdateIdempotent(c.game, d);
    Outcome(second.client, Then(first.effects, second.effects))
  }

  /** `game:game_created`. */
  function OnGameCreated(c: Client, d: Payload): (r: Outcome)
    ensures r.client == c.(game := GameState.UpdateGameState(c.game, d))
    ensures r.effects == Notify(if Same(c, d.teamId) then [Toast("剧本就绪")] else [])
  {
    UpdateAndToast(c, d, d.teamId, "剧本就绪")
  }

  /** `game_started`: the started flag is raised only for the focused team. */
  function OnGameStarted(c: Client, d: Payload): (r: Outcome)
    ensures r.client.game == GameState.UpdateGameState(c.game, d)
    ensures r.client.isGameStarted == (c.isGameStarted || Same(c, d.teamId))
    ensures r.client.link == c.link && r.client.isConnected == c.isConnected
    ensures r.effects == Notify(if Same(c, d.teamId) then [Toast("游戏开始")] else [])
  {
    var u := UpdateAndToast(c, d, d.teamId, "游戏开始");
    if Same(c, d.teamId) then Outcome(u.client.(isGameStarted := true), u.effects) else u
  }

  /** `team:member_joined`: creates the room entry if need be and sets its count. */
  function OnMemberJoined(c: Client, d: Payload): (r: Client)
    ensures d.teamId in r.game.roomStates && r.game.roomStates[d.teamId].memberCount == d.membersCount
    ensures forall t :: t != d.teamId ==>
              (t in r.game.roomStates <==> t in c.game.roomStates) &&
              (t in c.game.roomStates ==> r.game.roomStates[t] == c.game.roomStates[t])
    ensures r.game.(roomStates := c.game.roomStates) == c.game && r.(game := c.game) == c
  {
    c.(game := c.game.(roomStates := c.game.roomStates[d.teamId := GameState.Room(d.membersCount)]))
  }

  /** `team:member_left`: updates an existing room entry only. */
  function OnMemberLeft(c: Client, d: Payload): (r: Client)
    ensures d.teamId !in c.game.roomStates ==> r == c
    ensures d.teamId in c.game.roomStates ==>
              r.game.roomStates == c.game.roomStates[d.teamId := GameState.Room(d.membersCount)]
    ensures r.game.roomStates.Keys == c.game.roomStates.Keys
    ensures r.game.(roomStates := c.game.roomStates) == c.game && r.(game := c.game) == c
  {
    if d.teamId in c.game.roomStates
    then c.(game := c.game.(roomStates := c.game.roomStates[d.teamId := GameState.Room(d.membersCount)]))
    else c
  }

  /**
   * What `game:new_task` hands to the game store: the inner `player_state`
   * alone (the outer `team_id` is dropped), else a body built from the bare
   * task summary, else nothing.
   */
  function NewTaskBody(d: Payload): (b: Option<Payload>)
    ensures d.playerState.Some? ==> b == d.playerState
    ensures d.playerState.None? && d.task.Some? ==>
              b.Some? && b.value.teamId == d.teamId && b.value.curTask == d.task &&
              b.value.curTaskId == d.taskId && b.value.task.None? && b.value.playerState.None? &&
              b.value.gameId == "" && b.value.taskId == "" &&
              b.value.completedMechanisms.None? && b.value.completedSubtasks.None?
    ensures d.playerState.None? && d.task.None? ==> b.None?
  {
    if d.playerState.Some? then d.playerState
    else if d.task.Some? then Some(Blank().(teamId := d.teamId, curTask := d.task, curTaskId := d.taskId))
    else None
  }

  /** The game store after one `game:new_task` listener. */
  function ApplyNewTask(g: GameState.View, d: Payload): (r: GameState.View)
    ensures NewTaskBody(d).None? ==> r == g
    ensures NewTaskBody(d).Some? ==> r == GameState.UpdateGameState(g, NewTaskBody(d).value)
    ensures r.currentTeamId == g.currentTeamId
    ensures GameState.Valid(g) ==> GameState.Valid(r)
  {
    match NewTaskBody(d)
    case None => g
    case Some(b) => GameState.UpdateGameState(g, b)
  }

  /** A second listener applying the same `game:new_task` body changes nothing. */
  lemma NewTaskIdempotent(g: GameState.View, d: Payload)
    ensures ApplyNewTask(ApplyNewTask(g, d), d) == ApplyNewTask(g, d)
  {
    if NewTaskBody(d).Some? {
      GameState.UpdateIdempotent(g, NewTaskBody(d).value);
    }
  }

  /** Gate of the first `game:new_task` listener, whose fallback team id is the string ''. */
  predicate FirstNewTaskGate(c: Client, d: Payload)
    // with a focus it is the second listener's gate; with none it opens only
    // for an event carrying no team id at all, whose '' equals the empty focus
    ensures c.game.currentTeamId != "" ==> (FirstNewTaskGate(c, d) <==> Same(c, InnerTeam(d)))
    ensures c.game.currentTeamId == "" ==>
              (FirstNewTaskGate(c, d) <==> d.teamId == "" && d.playerState.None?)
  {
    if d.teamId != "" then d.teamId == c.game.currentTeamId
    else if d.playerState.Some? then Same(c, d.playerState.value.teamId)
    else c.game.currentTeamId == ""
  }

  /**
   * `game:new_task`. Two listeners are registered for it and both apply the
   * same normalised body; the second application changes nothing.
   */
  function OnNewTask(c: Client, d: Payload): (r: Outcome)
    ensures r.client == c.(game := ApplyNewTask(c.game, d))
    ensures r.effects.emitted == [] && r.effects.timers == []
    // each listener vibrates and shows its modal when its own gate holds
    ensures r.effects.notices ==
              (if FirstNewTaskGate(c, d)
               then [Vibrate, Modal("新任务", OrElse(d.taskMsg, "任务目标已更新"))] else []) +
              (if Same(c, InnerTeam(d))
               then [Vibrate, Modal("新任务到达", OrElse(d.taskMsg, "当前阶段已更新，请查看"))] else [])
    ensures GameState.Valid(c.game) ==> GameState.Valid(r.client.game)
  {
    var g1 := ApplyNewTask(c.game, d);
    var n1 := if FirstNewTaskGate(c, d)
              then [Vibrate, Modal("新任务", OrElse(d.taskMsg, "任务目标已更新"))] else [];
    var g2 := ApplyNewTask(g1, d);
    var n2 := if Same(c, InnerTeam(d))
              then [Vibrate, Modal("新任务到达", OrElse(d.taskMsg, "当前阶段已更新，请查看"))] else [];
    NewTaskIdempotent(c.game, d);
    Outcome(c.(game := g2), Notify(n1 + n2))
  }

  /**
   * `game:task_complete`. A full snapshot replaces the state (its inner body
   * alone reaches the store) and schedules nothing; a bare acknowledgment is
   * applied and schedules one pull of the snapshot for the game bound to the
   * event's team, if one resolves.
   */
  function OnTaskComplete(c: Client, d: Payload): (r: Outcome)
    ensures d.playerState.Some? ==>
              r.client.game == GameState.UpdateGameState(c.game, d.playerState.value) &&
              r.effects.timers == []
    ensures d.playerState.None? ==> r.client.game == GameState.HandleTaskComplete(c.game, d)
    ensures d.playerState.None? ==>
              var g := GameState.GameIdByTeam(c.game, d.teamId);
              r.effects.timers == if g.Some? && g.value != "" then [After(PullDelayMs, Pull(g.value))] else []
    ensures r.client.(game := c.game) == c && r.effects.emitted == []
    ensures r.effects.notices ==
              if Same(c, d.teamId) then [HideLoading, Toast(OrElse(d.taskMsg, "节点完成"))] else []
    ensures GameState.Valid(c.game) ==> GameState.Valid(r.client.game)
  {
    var g :=
      if d.playerState.Some? then GameState.UpdateGameState(c.game, d.playerState.value)
      else GameState.HandleTaskComplete(c.game, d);
    var target := GameState.GameIdByTeam(g, d.teamId);
    var timers :=
      if d.playerState.None? && target.Some? && target.value != ""
      then [After(PullDelayMs, Pull(target.value))] else [];
    var notices := if Same(c, d.teamId) then [HideLoading, Toast(OrElse(d.taskMsg, "节点完成"))] else [];
    Outcome(c.(game := g), Effects([], timers, notices))
  }

  /** `game:debug_player_state`: the answer to a pull, applied as an update. */
  function OnDebugPlayerState(c: Client, d: Payload): (r: Client)
    ensures r == c.(game := GameState.UpdateGameState(c.game, GameState.Body(d)))
  {
    c.(game := GameState.UpdateGameState(c.game, GameState.Body(d)))
  }

  /** `game:mechanism_complete`: the toast follows only a recorded mechanism. */
  function OnMechanismComplete(c: Client, d: Payload): (r: Outcome)
    ensures r.client == c.(game := GameState.HandleMechanismComplete(c.game, d))
    ensures r.effects.notices ==
              if Same(c, d.teamId) && !GameState.MechanismFaults(c.game, d) then [Toast("验证通过")] else []
    ensures r.effects.emitted == [] && r.effects.timers == []
  {
    var faults := GameState.MechanismFaults(c.game, d);
    var c1 := c.(game := GameState.HandleMechanismComplete(c.game, d));
    Outcome(c1, Notify(if !faults && Same(c, d.teamId) then [Toast("验证通过")] else []))
  }
}
