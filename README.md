# Guide console stores: game state and socket router

This project models the two client stores of a tour-guide console: the store
that keeps the game state a guide looks at, and the store that routes socket
events into it and sends the guide's commands.

- **The game store** (`src/store/game.js`) holds one *view*: the focused team,
  its game id, and its current task with a completion flag. It also holds an
  identity map from team id to game id, room member counts, and two progress
  records. Its actions bind teams to games, switch the focus, apply state
  snapshots, and record task, sub-task and mechanism completions. The
  `taskProgress` getter renders the progress text.
- **The socket store** (`src/store/socket.js`) keeps the socket and two flags.
  Its listeners normalise each inbound event and hand it to the game store.
  A bare task acknowledgment schedules a pull of the full state. Its commands
  check the connection and build the outbound payloads.

Each store is modelled twice:

- As values: `GameState` and `Socket`. Each action is a function with a named
  result whose contract states what the action promises.
- As objects: `GameStore.Store` and `SocketStore.Store`. These are classes
  whose methods assign the fields in place. Each method is proved to reach
  exactly the state, and to produce exactly the effects, that its function
  describes.

What the socket store sends or shows is returned as `Effects`:

- the messages emitted now, with their wire names given by `Socket.EventName`;
- the timers scheduled;
- the toasts, modals, vibrations and loading indicators.

`Traces` folds events and commands over a client, in arrival order. It proves
properties of every run and replays two complete sessions.

Files: `wrappers.dfy` (Option), `events.dfy` (payload, task and progress-record
shapes), `game_state.dfy`, `game_store.dfy`, `socket.dfy`, `socket_store.dfy`,
`traces.dfy`.

## How JavaScript values are represented

- **Strings.** An absent, `null`, `undefined` or empty string field is `""`.
  Most tests the code makes on such a field are truthiness tests, and these
  values are all falsy. The `===` and `!==` tests on team ids (the focus test
  of `switchTeam` at src/store/game.js:64, the focus test of `getGameIdByTeam`
  at src/store/game.js:57 and the notice gates of the listeners) do tell them apart;
  what the model then does not capture is under "## Left out".
- **Objects.** An absent object field is `None`, and an object field that is
  present is `Some`. Even an empty object is truthy in JavaScript.
- **Progress maps.** A progress entry whose task id is absent, `null` or empty
  is stored under the key `""`. JavaScript keeps these three apart: it
  writes the keys `"undefined"`, `"null"` and `""`. The model merges them
  (see "## Left out").
- **Mechanism records.** An entry in `completedMechanisms[task]` is either
  `Flag` (the boolean `true`) or `Flags(names)` (a sub-task's object of flags).

## Behaviour worth knowing

The model follows the code in each of these places. One of them departs from
the code's own comment: src/store/socket.js:130 says the store decides from
the team id whether an event updates the view or only the identity map, but
with `player_state` the outer team id never reaches the store.

- **Non-focused teams.** An update for a team that is not focused records the
  team's game binding and nothing else. There is no per-team background
  state. See `GameState.UpdateGameState` and `Traces.BackgroundNewTaskIsSilent`.
- **Events with no team.** An event with no team id arriving while nothing is
  focused is applied to the view, not dropped.
- **Progress records.** A snapshot replaces the progress records wholesale; it
  does not merge them.
- **Whole-task completion.** A bare whole-task
  completion without `task_id` is refused once a task is current, because the
  missing id never equals the current one.
- **Sub-task completion.** A sub-task completion without `task_id` is filed
  under the absent key, so the counter of the task on screen does not move.
  `Traces.SessionWithoutTaskIds` plays such a session: the progress stays at
  0 / 2 and the task never completes. `Traces.NewTaskThenCompletions` shows
  the same session completing when every acknowledgment carries the task id.
- **`game:new_task`, `game:task_complete` and `game:debug_player_state` with
  `player_state`.** These hand the store the inner body alone. When that body has no `team_id`, the outer
  team is lost and the snapshot lands on the focused team's view
  (`Traces.SnapshotWithoutInnerTeamLandsOnFocus`).
- **Duplicate listeners.** `game:cur_task` and `game:new_task` each have two
  listeners, so every such event is applied twice. The second application
  changes nothing (`GameState.UpdateIdempotent`, `Socket.NewTaskIdempotent`),
  but both listeners' notices are shown.
- **`selectedSubTaskId`.** `submitTask` reads this property of the game store,
  but the store never declares it. It is taken as the parameter `selected`,
  with `""` for nothing selected.

## Model

| member | source | states |
|---|---|---|
| GameState.Init | src/store/game.js:4-20 | the initial store satisfies the invariant: nothing focused, nothing bound, no task object, an empty task id, the completion flag cleared, and no rooms, mechanism records or sub-task records |
| GameState.SetTeamGameMapping | src/store/game.js:41-53 | no change when either id is empty; otherwise the team is bound to the game, every other binding is kept, the view's game id changes only when the team is focused, and the invariant is preserved |
| GameState.GameIdByTeam | src/store/game.js:55-58 | the bound id when there is one; on a miss the view's game id for the focused team and null for any other; under the invariant the answer is a truthy id exactly when the team is bound |
| GameState.SwitchTeam | src/store/game.js:63-83 | switching to the focused team changes nothing; any other team becomes the focus with its bound game id or "", the task fields and mechanism record are cleared, the identity map, rooms and sub-task record are kept, and the invariant is preserved |
| GameState.ResolveTeam | src/store/game.js:95-101 | the incoming team is the outer team id, else the inner one, else the focus, and it is empty only when all three are |
| GameState.Body | src/store/game.js:90 | the update reads the inner player_state when there is one, else the event itself |
| GameState.UpdateGameState | src/store/game.js:88-135 | focus and rooms never change; the identity map learns the event's binding; an update for another team changes only the identity map; a new task id becomes current with the completion flag cleared, and the same id keeps the flag; an update never completes a task; a task object replaces the current one; progress maps are replaced wholesale; the invariant is preserved |
| GameState.IncomingGame | src/store/game.js:96 | the game id is the outer one, else the inner one, and empty only when both are |
| GameState.TaskObject | src/store/game.js:114 | the task object is `task`, else `cur_task`, and absent only when both are |
| GameState.TaskIdOf | src/store/game.js:115 | the task id is the task object's id, else `task_id`, else `cur_task_id`, and empty only when all are |
| GameState.ApplyBody | src/store/game.js:112-134 | identity, focus and rooms are untouched; a new task id becomes current with the flag cleared, the same or no id keeps both; a task object replaces the current one; each progress map present replaces the stored one |
| GameState.HandleTaskComplete | src/store/game.js:140-166 | another team's event changes nothing; a sub-task id is appended to the task's list exactly when it is not already there (the list grows by one or not at all, order kept, no duplicates added) and the task's state is untouched; a whole-task completion is accepted for the current task id or when none is current, backfilling the id, and is otherwise ignored; only the flag, the task id and the sub-task record can change |
| GameState.HandleMechanismComplete | src/store/game.js:168-188 | only the mechanism record changes; an event for another team, without task id or mechanism, or one whose sub-task slot holds a flag (the strict-mode TypeError) changes nothing; a recorded event's triple holds afterwards; no task or key is ever removed |
| GameState.MechanismFaults | src/store/game.js:180-184 | the action throws exactly for a focused or team-less sub-task event with task id and mechanism whose sub-task slot already holds the flag `true` |
| GameState.TaskProgress | src/store/game.js:24-34 | loading exactly without a task; in progress exactly for a task without sub-tasks; otherwise the number of recorded sub-tasks of that task (0 if none) over the number of its sub-tasks |
| GameState.UpdateIdempotent | src/store/game.js:88-135 | applying the same update twice gives the state of applying it once |
| GameState.TaskCompleteIdempotent | src/store/game.js:140-166 | applying the same acknowledgment twice gives the state of applying it once |
| GameState.MechanismMonotone | src/store/game.js:176-187 | a mechanism event adds only its own triple and removes nothing, except that a whole-task flag named like a sub-task replaces that sub-task's flags |
| GameState.SwitchAwayAndBack | src/store/game.js:63-83 | switching away and back restores the game binding and keeps the identity map and sub-task record, while the task fields and mechanism record start empty |
| GameState.ProgressAdvances | src/store/game.js:149-155 | a new sub-task completion for the task on screen advances the counter by one; a repeated one leaves it unchanged |
| GameStore.Store.constructor | src/store/game.js:4-20 | the new store's fields are the initial state |
| GameStore.Store.SetTeamGameMapping | src/store/game.js:41-53 | the fields after the in-place update are those of GameState.SetTeamGameMapping |
| GameStore.Store.GetGameIdByTeam | src/store/game.js:55-58 | the answer is GameState.GameIdByTeam of the current fields |
| GameStore.Store.SwitchTeam | src/store/game.js:63-83 | the fields after the in-place reset are those of GameState.SwitchTeam |
| GameStore.Store.UpdateGameState | src/store/game.js:88-135 | the fields after the in-place update are those of GameState.UpdateGameState |
| GameStore.Store.ApplyBody | src/store/game.js:112-134 | the task transition and the progress replacement, in place, agree with GameState.ApplyBody |
| GameStore.Store.HandleTaskComplete | src/store/game.js:140-166 | the fields after the in-place insertion or completion are those of GameState.HandleTaskComplete |
| GameStore.Store.HandleMechanismComplete | src/store/game.js:168-188 | reports the TypeError exactly when GameState.MechanismFaults holds, and the fields afterwards are those of GameState.HandleMechanismComplete |
| Socket.EventName | src/store/socket.js:184-420 | each outbound message goes out under its own wire name (game:join_room, game:select_script, game:start, game:task_submit, game:debug_get_player_state, guide:force_complete_task), and no two kinds share one |
| Socket.Connect | src/store/socket.js:17-36 | a connected socket is kept as is; otherwise a new socket that is not yet connected replaces it; nothing else changes |
| Socket.Disconnect | src/store/socket.js:38-44 | with a socket, the socket and the connected flag are dropped; without one nothing changes; the game store is never touched |
| Socket.RealUserId | src/store/socket.js:302 | the user id, else the profile id, else the stored id; empty exactly when all three are |
| Socket.JoinRoom | src/store/socket.js:292-314 | without a connected socket nothing happens, not even a focus switch; with one the focus always switches; the join is emitted exactly when a user id resolves, with the default guide name, and then nothing is shown; otherwise the re-login toast is shown |
| Socket.StartGame | src/store/socket.js:327-342 | emits game:start exactly when connected with a game id; then the game store is exactly the focused team bound to the game (unchanged when nothing is focused) and nothing is shown; otherwise nothing changes and the matching toast is shown |
| Socket.CheckConnection | src/store/socket.js:431-437 | the check passes exactly when a socket exists and the connected flag is set, and the toast shows exactly when it fails |
| Socket.SelectScript | src/store/socket.js:316-325 | emits the script choice exactly when the connection check passes, otherwise shows that check's toast |
| Socket.Submission | src/store/socket.js:358-362 | the submission holds the mechanism type and staff id unless the caller's fields override them, and every caller field |
| Socket.SubmitTask | src/store/socket.js:347-394 | emits exactly when connected with a game id, with the view's game and task ids, the default mechanism type when none is given, and the sub-task id exactly when the task has sub-tasks and one is selected; then shows the loading indicator and schedules its close; otherwise shows the connection toast (if any) and then its own |
| Socket.ForceCompleteTask | src/store/socket.js:395-430 | the game id is checked before the connection; emits exactly when both pass, with the sub-task id exactly when one is given, the loading indicator and its close timer |
| Socket.Fire | src/store/socket.js:183-188 | a pull emits the state request for the game captured when it was scheduled, and only while a socket exists; closing the loading indicator always succeeds |
| Socket.OnConnect | src/store/socket.js:57-65 | marks the store connected and an existing socket as connected, keeps the started flag and the game store, shows nothing, and rejoins the focused room exactly when a socket, a focus and a user id exist |
| Socket.OnDisconnect | src/store/socket.js:67-70 | the connected flag is cleared in every case and the socket, if any, no longer reports itself connected; the socket's presence, the started flag and the game store are kept |
| Socket.UpdateAndToast | src/store/socket.js:73-82 | an update of the game store, then a toast exactly when the gate names the focused team |
| Socket.OnRoomJoined | src/store/socket.js:73-82 | only the game store changes, by the event as an update; the entry toast shows exactly for the focused team; nothing is sent or scheduled |
| Socket.OnCurTask | src/store/socket.js:84-90 | both listeners together leave the state of one update; each listener shows its restore toast exactly when its own team id names the focus, so the focused team sees two; nothing is sent or scheduled |
| Socket.InnerTeam | src/store/socket.js:209 | the team id the second `game:cur_task` and `game:new_task` listeners compute is the outer one, else the inner player_state's, and empty only when both are |
| Socket.OnGameCreated | src/store/socket.js:107-113 | only the game store changes, by the event as an update; the ready toast shows exactly for the focused team; nothing is sent or scheduled |
| Socket.OnGameStarted | src/store/socket.js:115-123 | the game store receives the event as an update; the started flag is raised and the start toast shown exactly for the focused team; the connection is untouched; nothing is sent or scheduled |
| Socket.OnMemberJoined | src/store/socket.js:92-97 | the team's room exists afterwards with the event's member count; every other room and the rest of the state are unchanged |
| Socket.OnMemberLeft | src/store/socket.js:99-103 | only an existing room is updated; the set of rooms and the rest of the state never change |
| Socket.NewTaskBody | src/store/socket.js:130-141 | with player_state the store receives it alone; otherwise with a task it receives the team, the task as cur_task and its id; with neither it receives nothing |
| Socket.ApplyNewTask | src/store/socket.js:130-141 | one listener leaves the game store untouched without a body and applies the normalised body otherwise; the focus is kept and the invariant preserved |
| Socket.FirstNewTaskGate | src/store/socket.js:127-144 | with a focus the first listener's gate is the second one's; with none it opens only for an event with no team id anywhere, whose '' fallback equals the empty focus |
| Socket.NewTaskIdempotent | src/store/socket.js:225-240 | the second listener's update after the first changes nothing |
| Socket.OnNewTask | src/store/socket.js:126-153 | both listeners together leave the state of one normalised update and send and schedule nothing; each listener vibrates and shows its modal exactly when its own gate holds; the invariant is preserved |
| Socket.OnTaskComplete | src/store/socket.js:163-203 | with player_state the inner body is applied and no pull is scheduled; a bare acknowledgment is applied and schedules exactly one pull for the game resolved for its team, or none; the loading indicator is hidden and the completion toast shown exactly for the focused team; the invariant is preserved |
| Socket.OnDebugPlayerState | src/store/socket.js:254-258 | the state answer, unwrapped from player_state if present, is applied as an update |
| Socket.OnMechanismComplete | src/store/socket.js:261-267 | the game store records the mechanism; the single toast "验证通过" shows exactly for the focused team when the store did not throw, and otherwise nothing shows; nothing is sent or scheduled |
| SocketStore.Store.constructor | src/store/socket.js:7-11 | no socket, not connected, not started, attached to the given game store |
| SocketStore.Store.Connect | src/store/socket.js:17-36 | the fields afterwards are those of Socket.Connect |
| SocketStore.Store.Disconnect | src/store/socket.js:38-44 | the fields afterwards are those of Socket.Disconnect |
| SocketStore.Store.CheckConnection | src/store/socket.js:431-437 | answers Socket.Connected of the current fields, with Socket.CheckConnection's toast |
| SocketStore.Store.JoinRoom | src/store/socket.js:292-314 | both stores and the effects agree with Socket.JoinRoom |
| SocketStore.Store.SelectScript | src/store/socket.js:316-325 | the effects are those of Socket.SelectScript, and nothing changes |
| SocketStore.Store.StartGame | src/store/socket.js:327-342 | both stores and the effects agree with Socket.StartGame |
| SocketStore.Store.SubmitTask | src/store/socket.js:347-394 | the effects are those of Socket.SubmitTask, and nothing changes |
| SocketStore.Store.ForceCompleteTask | src/store/socket.js:395-430 | the effects are those of Socket.ForceCompleteTask, and nothing changes |
| SocketStore.Store.Fire | src/store/socket.js:183-188 | the outcome is that of Socket.Fire |
| SocketStore.Store.OnConnect | src/store/socket.js:57-65 | both stores and the effects agree with Socket.OnConnect |
| SocketStore.Store.OnDisconnect | src/store/socket.js:67-70 | the fields afterwards are those of Socket.OnDisconnect |
| SocketStore.Store.UpdateAndToast | src/store/socket.js:73-82 | both stores and the effects agree with Socket.UpdateAndToast |
| SocketStore.Store.OnRoomJoined | src/store/socket.js:73-82 | both stores and the effects agree with Socket.OnRoomJoined |
| SocketStore.Store.OnCurTask | src/store/socket.js:84-90 | running both listeners in place agrees with Socket.OnCurTask |
| SocketStore.Store.OnMemberJoined | src/store/socket.js:92-97 | the room record written in place agrees with Socket.OnMemberJoined |
| SocketStore.Store.OnMemberLeft | src/store/socket.js:99-103 | the room record written in place agrees with Socket.OnMemberLeft |
| SocketStore.Store.OnGameCreated | src/store/socket.js:107-113 | both stores and the effects agree with Socket.OnGameCreated |
| SocketStore.Store.OnGameStarted | src/store/socket.js:115-123 | both stores and the effects agree with Socket.OnGameStarted |
| SocketStore.Store.ApplyNewTask | src/store/socket.js:130-141 | one listener's update of the game store agrees with Socket.ApplyNewTask |
| SocketStore.Store.OnNewTask | src/store/socket.js:126-153 | running both listeners in place agrees with Socket.OnNewTask |
| SocketStore.Store.OnTaskComplete | src/store/socket.js:163-203 | the store action, the pull lookup and the effects agree with Socket.OnTaskComplete |
| SocketStore.Store.OnDebugPlayerState | src/store/socket.js:254-258 | the game store afterwards agrees with Socket.OnDebugPlayerState |
| SocketStore.Store.OnMechanismComplete | src/store/socket.js:261-267 | both stores and the effects agree with Socket.OnMechanismComplete, the toast being skipped when the store throws |
| Traces.UpdateKeepsBindings | src/store/game.js:104-106 | an update never unbinds a team |
| Traces.DeliverPreserves | src/store/socket.js:57-267 | every listener preserves the game store's invariant and never unbinds a team |
| Traces.DeliverKeepsFocus | src/store/socket.js:57-267 | no listener moves the focus |
| Traces.StepPreserves | src/store/socket.js:292-342 | every listener and state-changing command preserves the invariant and never unbinds a team |
| Traces.Run | src/store/game.js:41-58 | along any run of events and commands the identity map only grows, and the invariant holds throughout |
| Traces.InboundKeepsFocus | src/store/game.js:63-66 | a run of server events alone never moves the focus |
| Traces.OnlyJoinRoomMovesFocus | src/store/socket.js:292-299 | a step that moves the focus is a joinRoom: no listener, connect, disconnect or startGame does |
| Traces.BindingSurvives | src/store/game.js:55-58 | once bound, a team resolves to a truthy game id for the rest of any run |
| Traces.PullTargetsBoundGame | src/store/socket.js:177-192 | under the invariant, a bare acknowledgment schedules a pull exactly when its team is bound, aimed at that team's game whatever team is on screen |
| Traces.BackgroundNewTaskIsSilent | src/store/socket.js:126-153 | a bare new task for a team other than the focused one changes nothing and shows nothing |
| Traces.SnapshotWithoutInnerTeamLandsOnFocus | src/store/socket.js:131-132 | another team's snapshot whose inner body has no team id sets the focused view's task id, whether it comes as `game:new_task`, `game:task_complete` (socket.js:168-170) or `game:debug_player_state` (socket.js:256) |
| Traces.NewTaskThenCompletions | src/store/game.js:140-166 | new task, sub-task completion and whole-task completion with task ids leave the task current and complete, with the sub-task recorded under it |
| Traces.AckWithoutTaskId | src/store/game.js:146-153 | a first sub-task acknowledgment for the focused team without a task id is filed as the only entry under the absent key, and nothing else changes |
| Traces.SessionWithoutTaskIds | src/store/game.js:146-165 | join, new task with two sub-tasks, then sub-task and whole-task acknowledgments without task id: the sub-task is filed under the absent key, progress reads 0 / 2, and the task is not complete |

## Left out

- The socket.io transport, `io(...)` and its URL, environment and reconnection options (src/store/socket.js:17-36). A socket is reduced to whether it exists and whether it reports itself connected.
- The listeners of an old socket. `connect()` replaces a socket that is not connected and registers fresh listeners on the new one. Any listeners still attached to the old socket are not modelled.
- `uni.setStorageSync('TEAM_GAME_MAP', ...)` (src/store/game.js:52). The stored copy is never read back by this code, so it is left out.
- The user store. Its user id, profile id, stored id and name are passed in as `Socket.User`.
- The `room_msg`, `game:task_failed` and `game:error` listeners. They only log or show a message. `console.*` logging is left out as well.
- Clocks. Timestamps are an opaque `now` parameter. Timers are values (`After(delay, action)`) whose firing is a separate call (`Socket.Fire`). When a timer fires relative to later events is left to the caller.
- Payload values other than strings. Ids are strings. Numeric ids, and submission fields whose values are not strings, are not modelled. A member count is `Option<int>`.
- GameState.HandleTaskComplete: an acknowledgment whose `task_id` is absent, `null` or `""` files its sub-task under one key `""`. JavaScript uses three keys (`"undefined"`, `"null"`, `""`). `GameState.TaskProgress` reads that one key for a task without an id, so the model can count sub-tasks that the code would keep apart.
- Server snapshots whose `completed_mechanisms` entries are neither `true` nor an object of flags. These are not modelled.
- Tasks with sub-tasks but no `sub_tasks` array. `GameState.TaskProgress` assumes the array is present; the getter would throw without it.
- GameState.GameIdByTeam: for an absent or `null` team id while nothing is focused, the code's `teamId === this.currentTeamId` fails and it answers `null`; the model answers the view's game id, `""`. Both are falsy, so the one caller (the pull after `game:task_complete`) schedules no pull either way.
- GameState.SwitchTeam: a team id that is absent or `null` is taken as `""`. The code's `!==` test tells `undefined` from `''`, so `joinRoom(undefined)` while nothing is focused moves the focus to `undefined` and clears the task fields; the model's `SwitchTeam(v, "")` then changes nothing.
- Socket.Same: an event whose `team_id` is present but is the empty string, arriving while nothing is focused, shows its notice in the code (`'' === ''`). The model treats `""` as absent, which matches no team. Only the first `game:new_task` listener's explicit `''` fallback is modelled exactly (`Socket.FirstNewTaskGate`).
- Socket.SubmitTask: a `mechanismType` of `null` is sent as null in the code. The model has only "given" or "absent, so the default".
- `uni.hideLoading()` inside `try`/`catch` is modelled as always succeeding.
- Socket.Fire: a pull emitted on a socket that exists but is disconnected is buffered by socket.io. The model counts it as emitted.
