/**
 * The socket store of src/store/socket.js as the object it is: it holds the
 * socket, its two flags and the game store it drives, and its listeners and
 * commands change them in place. Each method is proved to leave the stores
 * in the state, and to produce the effects, that the matching function of
 * Socket describes.
 */
module SocketStore {
  import opened Wrappers
  import opened Events
  import GameState
  import GameStore
  import Socket

  class Store {
    var link: Socket.Link
    var isConnected: bool
    var isGameStarted: bool
    const game: GameStore.Store

    /** Both stores' fields as one value. */
    function Snapshot(): Socket.Client
      reads this, game
    {
      Socket.Client(link, isConnected, isGameStarted, game.View())
    }

    constructor (game: GameStore.Store)
      ensures this.game == game
      ensures Snapshot() == Socket.Client(Socket.NoSocket, false, false, game.View())
    {
      this.game := game;
      link, isConnected, isGameStarted := Socket.NoSocket, false, false;
    }

    // -------------------------------------------------------------------------
    // Connection
    // -------------------------------------------------------------------------

    /** `connect()`. */
    method Connect()
      modifies this
      ensures Snapshot() == Socket.Connect(old(Snapshot()))
    {
      if link != Socket.Open(true) {
        link := Socket.Open(false);
      }
    }

    /** `disconnect()`. */
    method Disconnect()
      modifies this
      ensures Snapshot() == Socket.Disconnect(old(Snapshot()))
    {
      if link.Open? {
        link := Socket.NoSocket;
        isConnected := false;
      }
    }

    /** `checkConnection()`: reads the store, changes nothing. */
    method CheckConnection() returns (ok: bool, fx: Socket.Effects)
      ensures ok == Socket.Connected(Snapshot())
      ensures fx == Socket.CheckConnection(Snapshot())
    {
      ok := link.Open? && isConnected;
      fx := if ok then Socket.NoEffects else Socket.Notify([Socket.Toast(Socket.SocketDown)]);
    }

    // -------------------------------------------------------------------------
    // Commands
    // -------------------------------------------------------------------------

    /** `joinRoom(teamId)`. */
    method JoinRoom(teamId: string, user: Socket.User) returns (fx: Socket.Effects)
      modifies game
      ensures Snapshot() == Socket.JoinRoom(old(Snapshot()), teamId, user).client
      ensures fx == Socket.JoinRoom(old(Snapshot()), teamId, user).effects
    {
      if link != Socket.Open(true) {
        return Socket.NoEffects;
      }
      game.SwitchTeam(teamId);
      var id := Socket.RealUserId(user);
      if id == "" {
        return Socket.Notify([Socket.Toast("需重新登录")]);
      }
      fx := Socket.Effects([Socket.Join(teamId, id, Socket.OrElse(user.userName, Socket.GuideName))], [], []);
    }

    /** `selectScript(teamId, scriptId)`: sends, changes nothing. */
    method SelectScript(teamId: string, scriptId: string, now: string) returns (fx: Socket.Effects)
      ensures fx == Socket.SelectScript(Snapshot(), teamId, scriptId, now)
    {
      var ok;
      ok, fx := CheckConnection();
      if ok {
        fx := Socket.Effects([Socket.ScriptChoice(teamId, scriptId, now)], [], []);
      }
    }

    /** `startGame(gameId)`. */
    method StartGame(gameId: string) returns (fx: Socket.Effects)
      modifies game
      ensures Snapshot() == Socket.StartGame(old(Snapshot()), gameId).client
      ensures fx == Socket.StartGame(old(Snapshot()), gameId).effects
    {
      var ok;
      ok, fx := CheckConnection();
      if !ok {
        return;
      }
      if gameId == "" {
        return Socket.Notify([Socket.Toast("缺 GameID")]);
      }
      if game.currentTeamId != "" {
        game.SetTeamGameMapping(game.currentTeamId, gameId);
      }
      fx := Socket.Effects([Socket.Start(gameId)], [], []);
    }

    /** `submitTask(data, mechanismType)`: sends, changes nothing. */
    method SubmitTask(data: map<string, string>, mechanismType: Option<string>, selected: string, now: string)
      returns (fx: Socket.Effects)
      ensures fx == Socket.SubmitTask(Snapshot(), data, mechanismType, selected, now)
    {
      var ok;
      ok, fx := CheckConnection();
      if !ok || game.gameId == "" {
        fx := Socket.Then(fx, Socket.Notify([Socket.Toast(Socket.NotReady)]));
        return;
      }
      var mt := if mechanismType.Some? then mechanismType.value else Socket.DefaultMechanism;
      var sub := None;
      if game.currentTask.Some? && game.currentTask.value.havingSubTasks && selected != "" {
        sub := Some(selected);
      }
      var payload := Socket.TaskSubmit(game.gameId, game.currentTaskId, Socket.Submission(data, mt), sub, now);
      fx := Socket.Effects([payload], [Socket.After(Socket.LoadingTimeoutMs, Socket.CloseLoading)],
                           [Socket.ShowLoading("通行中...")]);
    }

    /** `forceCompleteTask({sub_task_id})`: sends, changes nothing. */
    method ForceCompleteTask(subTaskId: string, now: string) returns (fx: Socket.Effects)
      ensures fx == Socket.ForceCompleteTask(Snapshot(), subTaskId, now)
    {
      if game.gameId == "" {
        return Socket.Notify([Socket.Toast(Socket.NoGameId)]);
      }
      var ok;
      ok, fx := CheckConnection();
      if !ok {
        return;
      }
      var sub := if subTaskId != "" then Some(subTaskId) else None;
      fx := Socket.Effects([Socket.ForceComplete(game.gameId, game.currentTaskId, sub, now)],
                           [Socket.After(Socket.LoadingTimeoutMs, Socket.CloseLoading)],
                           [Socket.ShowLoading("强制通行中...")]);
    }

    /** A timer scheduled by a listener or a command fires. */
    method Fire(t: Socket.Timer, now: string) returns (r: Option<Socket.Effects>)
      ensures r == Socket.Fire(Snapshot(), t, now)
    {
      match t.action
      case CloseLoading =>
        r := Some(Socket.Notify([Socket.HideLoading]));
      case Pull(g) =>
        if link.NoSocket? {
          r := None;
        } else {
          r := Some(Socket.Effects([Socket.PullState(g, now)], [], []));
        }
    }

    // -------------------------------------------------------------------------
    // Listeners
    // -------------------------------------------------------------------------

    /** `connect`. */
    method OnConnect(user: Socket.User) returns (fx: Socket.Effects)
      modifies this, game
      ensures Snapshot() == Socket.OnConnect(old(Snapshot()), user).client
      ensures fx == Socket.OnConnect(old(Snapshot()), user).effects
    {
      isConnected := true;
      if link.Open? {
        link := Socket.Open(true);
      }
      fx := Socket.NoEffects;
      if game.currentTeamId != "" && user.userId != "" {
        fx := JoinRoom(game.currentTeamId, user);
      }
    }

    /** `disconnect`. */
    method OnDisconnect()
      modifies this
      ensures Snapshot() == Socket.OnDisconnect(old(Snapshot()))
    {
      isConnected := false;
      if link.Open? {
        link := Socket.Open(false);
      }
    }

    /** An update followed by a toast when `gate` is the focused team. */
    method UpdateAndToast(d: Payload, gate: string, title: string) returns (fx: Socket.Effects)
      modifies game
      ensures Snapshot() == Socket.UpdateAndToast(old(Snapshot()), d, gate, title).client
      ensures fx == Socket.UpdateAndToast(old(Snapshot()), d, gate, title).effects
    {
      game.UpdateGameState(d);
      var notices := if Socket.Same(Snapshot(), gate) then [Socket.Toast(title)] else [];
      fx := Socket.Notify(notices);
    }

    /** `game:room_joined`. */
    method OnRoomJoined(d: Payload) returns (fx: Socket.Effects)
      modifies game
      ensures Snapshot() == Socket.OnRoomJoined(old(Snapshot()), d).client
      ensures fx == Socket.OnRoomJoined(old(Snapshot()), d).effects
    {
      fx := UpdateAndToast(d, d.teamId, "已进入房间");
    }

    /** `game:cur_task`: both registered listeners, in registration order. */
    method OnCurTask(d: Payload) returns (fx: Socket.Effects)
      modifies game
      ensures Snapshot() == Socket.OnCurTask(old(Snapshot()), d).client
      ensures fx == Socket.OnCurTask(old(Snapshot()), d).effects
    {
      var first := UpdateAndToast(d, d.teamId, "已恢复进度");
      var second := UpdateAndToast(d, Socket.InnerTeam(d), "已恢复进度");
      GameState.UpdateIdempotent(old(game.View()), d);
      fx := Socket.Then(first, second);
    }

    /** `team:member_joined`. */
    method OnMemberJoined(d: Payload)
      modifies game
      ensures Snapshot() == Socket.OnMemberJoined(old(Snapshot()), d)
    {
      game.roomStates := game.roomStates[d.teamId := GameState.Room(d.membersCount)];
    }

    /** `team:member_left`. */
    method OnMemberLeft(d: Payload)
      modifies game
      ensures Snapshot() == Socket.OnMemberLeft(old(Snapshot()), d)
    {
      if d.teamId in game.roomStates {
        game.roomStates := game.roomStates[d.teamId := GameState.Room(d.membersCount)];
      }
    }

    /** `game:game_created`. */
    method OnGameCreated(d: Payload) returns (fx: Socket.Effects)
      modifies game
      ensures Snapshot() == Socket.OnGameCreated(old(Snapshot()), d).client
      ensures fx == Socket.OnGameCreated(old(Snapshot()), d).effects
    {
      fx := UpdateAndToast(d, d.teamId, "剧本就绪");
    }

    /** `game_started`. */
    method OnGameStarted(d: Payload) returns (fx: Socket.Effects)
      modifies this, game
      ensures Snapshot() == Socket.OnGameStarted(old(Snapshot()), d).client
      ensures fx == Socket.OnGameStarted(old(Snapshot()), d).effects
    {
      fx := UpdateAndToast(d, d.teamId, "游戏开始");
      if Socket.Same(Snapshot(), d.teamId) {
        isGameStarted := true;
      }
    }

    /** One `game:new_task` listener's update of the game store. */
    method ApplyNewTask(d: Payload)
      modifies game
      ensures game.View() == Socket.ApplyNewTask(old(game.View()), d)
    {
      var body := Socket.NewTaskBody(d);
      if body.Some? {
        game.UpdateGameState(body.value);
      }
    }

    /** `game:new_task`: both registered listeners, in registration order. */
    method OnNewTask(d: Payload) returns (fx: Socket.Effects)
      modifies game
      ensures Snapshot() == Socket.OnNewTask(old(Snapshot()), d).client
      ensures fx == Socket.OnNewTask(old(Snapshot()), d).effects
    {
      var c := Snapshot();
      ApplyNewTask(d);
      var n1 := if Socket.FirstNewTaskGate(c, d)
                then [Socket.Vibrate, Socket.Modal("新任务", Socket.OrElse(d.taskMsg, "任务目标已更新"))] else [];
      ApplyNewTask(d);
      var n2 := if Socket.Same(Snapshot(), Socket.InnerTeam(d))
                then [Socket.Vibrate, Socket.Modal("新任务到达", Socket.OrElse(d.taskMsg, "当前阶段已更新，请查看"))]
                else [];
      Socket.NewTaskIdempotent(c.game, d);
      fx := Socket.Notify(n1 + n2);
    }

    /** `game:task_complete`. */
    method OnTaskComplete(d: Payload) returns (fx: Socket.Effects)
      modifies game
      ensures Snapshot() == Socket.OnTaskComplete(old(Snapshot()), d).client
      ensures fx == Socket.OnTaskComplete(old(Snapshot()), d).effects
    {
      var timers := [];
      if d.playerState.Some? {
        game.UpdateGameState(d.playerState.value);
      } else {
        game.HandleTaskComplete(d);
        var target := game.GetGameIdByTeam(d.teamId);
        if target.Some? && target.value != "" {
          timers := [Socket.After(Socket.PullDelayMs, Socket.Pull(target.value))];
        }
      }
      var notices := if Socket.Same(Snapshot(), d.teamId)
                     then [Socket.HideLoading, Socket.Toast(Socket.OrElse(d.taskMsg, "节点完成"))] else [];
      fx := Socket.Effects([], timers, notices);
    }

    /** `game:debug_player_state`. */
    method OnDebugPlayerState(d: Payload)
      modifies game
      ensures Snapshot() == Socket.OnDebugPlayerState(old(Snapshot()), d)
    {
      game.UpdateGameState(GameState.Body(d));
    }

    /** `game:mechanism_complete`: a TypeError in the store ends the listener before its toast. */
    method OnMechanismComplete(d: Payload) returns (fx: Socket.Effects)
      modifies game
      ensures Snapshot() == Socket.OnMechanismComplete(old(Snapshot()), d).client
      ensures fx == Socket.OnMechanismComplete(old(Snapshot()), d).effects
    {
      var c := Snapshot();
      var threw := game.HandleMechanismComplete(d);
      fx := Socket.NoEffects;
      if !threw && Socket.Same(c, d.teamId) {
        fx := Socket.Notify([Socket.Toast("验证通过")]);
      }
    }
  }
}
