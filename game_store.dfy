/**
 * The game store of src/store/game.js as the object it is: its fields are
 * assigned in place by its actions. Each action is proved to leave the
 * store in the state the matching function of GameState describes.
 */
module GameStore {
  import opened Wrappers
  import opened Events
  import GameState

  class Store {
    var gameId: string
    var currentTeamId: string
    var currentTask: Option<Task>
    var currentTaskId: string
    var isCurrentTaskComplete: bool
    var teamGameMap: map<string, string>
    var roomStates: map<string, GameState.Room>
    var completedMechanisms: MechanismMap
    var completedSubtasks: SubtaskMap

    /** The store's fields as one value. */
    function View(): GameState.View
      reads this
    {
      GameState.View(gameId, currentTeamId, currentTask, currentTaskId, isCurrentTaskComplete,
                     teamGameMap, roomStates, completedMechanisms, completedSubtasks)
    }

    constructor ()
      ensures View() == GameState.Init()
    {
      gameId, currentTeamId := "", "";
      currentTask, currentTaskId, isCurrentTaskComplete := None, "", false;
      teamGameMap, roomStates := map[], map[];
      completedMechanisms, completedSubtasks := map[], map[];
    }

    /** `setTeamGameMapping(teamId, gameId)`. */
    method SetTeamGameMapping(teamId: string, gameId: string)
      modifies this
      ensures View() == GameState.SetTeamGameMapping(old(View()), teamId, gameId)
    {
      if teamId == "" || gameId == "" {
        return;
      }
      teamGameMap := teamGameMap[teamId := gameId];
      if currentTeamId == teamId {
        this.gameId := gameId;
      }
    }

    /** `getGameIdByTeam(teamId)`: reads the store, changes nothing. */
    method GetGameIdByTeam(teamId: string) returns (r: Option<string>)
      ensures r == GameState.GameIdByTeam(View(), teamId)
    {
      if teamId in teamGameMap && teamGameMap[teamId] != "" {
        r := Some(teamGameMap[teamId]);
      } else if teamId == currentTeamId {
        r := Some(gameId);
      } else {
        r := None;
      }
    }

    /** `switchTeam(teamId)`. */
    method SwitchTeam(teamId: string)
      modifies this
      ensures View() == GameState.SwitchTeam(old(View()), teamId)
    {
      if currentTeamId != teamId {
        currentTeamId := teamId;
        if teamId in teamGameMap && teamGameMap[teamId] != "" {
          gameId := teamGameMap[teamId];
        } else {
          gameId := "";
        }
        currentTaskId := "";
        currentTask := None;
        isCurrentTaskComplete := false;
        completedMechanisms := map[];
      }
    }

    /** `updateGameState(data)`. */
    method UpdateGameState(data: Payload)
      modifies this
      ensures View() == GameState.UpdateGameState(old(View()), data)
    {
      var raw := if data.playerState.Some? then data.playerState.value else data;

      // A. identity: resolve the team, bind it to the game, filter other teams out
      var incomingTeamId := if data.teamId != "" then data.teamId else raw.teamId;
      var incomingGameId := if data.gameId != "" then data.gameId else raw.gameId;
      if incomingTeamId == "" && currentTeamId != "" {
        incomingTeamId := currentTeamId;
      }
      if incomingTeamId != "" && incomingGameId != "" {
        SetTeamGameMapping(incomingTeamId, incomingGameId);
      }
      if incomingTeamId != "" && incomingTeamId != currentTeamId {
        return;
      }
      ApplyBody(raw);
    }

    /** Parts B and C of `updateGameState`: the task transition and the progress maps. */
    method ApplyBody(raw: Payload)
      modifies this
      ensures View() == GameState.ApplyBody(old(View()), raw)
    {
      var taskObj := if raw.task.Some? then raw.task else raw.curTask;
      var newTaskId :=
        if taskObj.Some? && taskObj.value.taskId != "" then taskObj.value.taskId
        else if raw.taskId != "" then raw.taskId
        else raw.curTaskId;
      if newTaskId != "" {
        if newTaskId != currentTaskId {
          isCurrentTaskComplete := false;
          currentTaskId := newTaskId;
        }
      }
      if taskObj.Some? {
        currentTask := taskObj;
      }

      if raw.completedMechanisms.Some? {
        completedMechanisms := raw.completedMechanisms.value;
      }
      if raw.completedSubtasks.Some? {
        completedSubtasks := raw.completedSubtasks.value;
      }
    }

    /** `handleTaskComplete(data)`. */
    method HandleTaskComplete(data: Payload)
      modifies this
      ensures View() == GameState.HandleTaskComplete(old(View()), data)
    {
      if data.teamId != "" && data.teamId != currentTeamId {
        return;
      }
      var taskId, subTaskId := data.taskId, data.subTaskId;
      if subTaskId != "" {
        if taskId !in completedSubtasks {
          completedSubtasks := completedSubtasks[taskId := []];
        }
        if subTaskId !in completedSubtasks[taskId] {
          completedSubtasks := completedSubtasks[taskId := completedSubtasks[taskId] + [subTaskId]];
        }
      } else if currentTaskId == taskId || currentTaskId == "" {
        isCurrentTaskComplete := true;
        if currentTaskId == "" {
          currentTaskId := taskId;
        }
      }
    }

    /**
     * `handleMechanismComplete(data)`. `threw` reports the TypeError raised
     * when the sub-task's slot already holds the flag `true`.
     */
    method HandleMechanismComplete(data: Payload) returns (threw: bool)
      modifies this
      ensures threw == GameState.MechanismFaults(old(View()), data)
      ensures View() == GameState.HandleMechanismComplete(old(View()), data)
    {
      threw := false;
      if data.teamId != "" && data.teamId != currentTeamId {
        return;
      }
      var taskId, subTaskId, mechanism := data.taskId, data.subTaskId, data.completedMechanism;
      if taskId == "" || mechanism == "" {
        return;
      }
      var entry := if taskId in completedMechanisms then completedMechanisms[taskId] else map[];
      assert entry == GameState.Entry(old(View()).completedMechanisms, taskId);
      if subTaskId != "" {
        if subTaskId !in entry {
          entry := entry[subTaskId := Flags({})];
        }
        var slot := entry[subTaskId];
        if slot.Flag? {
          threw := true;
          return;
        }
        entry := entry[subTaskId := Flags(slot.names + {mechanism})];
        assert entry == GameState.HandleMechanismComplete(old(View()), data).completedMechanisms[taskId];
      } else {
        entry := entry[mechanism := Flag];
        assert entry == GameState.HandleMechanismComplete(old(View()), data).completedMechanisms[taskId];
      }
      completedMechanisms := completedMechanisms[taskId := entry];
    }
  }
}
