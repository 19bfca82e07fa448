/**
 * The game store of src/stores/game.js as an object whose actions update its
 * fields in place. The browser's storage is a field too, and so is the number
 * of delayed clears a flee has scheduled and that have not fired yet. Each
 * action is proved to have the effect the function of the same name in
 * module Actions describes.
 */
module Store {
  import opened Wrappers
  import opened Text
  import opened Types
  import Actions

  class GameStore {
    var trainer: Trainer
    var currentPokemon: Option<Creature>
    var capturedPokemon: seq<Creature>
    var eventLog: seq<string>
    var gameState: GameState
    var pendingFleeTimers: nat
    var storage: map<string, StoredValue>

    /** The store's state as a value. */
    function Snapshot(): Session
      reads this
    {
      Session(trainer, currentPokemon, capturedPokemon, eventLog, gameState, pendingFleeTimers, storage)
    }

    /** The flag invariant of the store. */
    ghost predicate Valid()
      reads this
    {
      Actions.Valid(Snapshot())
    }

    /** A new store: nobody logged in, no encounter, over the browser's saved data. */
    constructor (saved: map<string, StoredValue>)
      ensures Snapshot() == Actions.InitialSession(saved)
      ensures Valid() && Actions.FleeConsistent(Snapshot())
    {
      trainer := Trainer("", false);
      currentPokemon := None;
      capturedPokemon := [];
      eventLog := [];
      gameState := IdleState;
      pendingFleeTimers := 0;
      storage := saved;
    }

    method AddEventLog(message: string)
      modifies this
      ensures Snapshot() == Actions.AddEventLog(old(Snapshot()), message)
    {
      eventLog := eventLog + [message];
    }

    method ClearEventLog()
      modifies this
      ensures Snapshot() == Actions.ClearEventLog(old(Snapshot()))
    {
      eventLog := [];
    }

    method ClearEncounter()
      modifies this
      ensures Snapshot() == Actions.ClearEncounter(old(Snapshot()))
      ensures Valid()
    {
      currentPokemon := None;
      gameState := gameState.(isInGame := false);
      gameState := gameState.(consecutiveFailures := 0);
      gameState := gameState.(canFind := true);
      gameState := gameState.(canIgnore := false);
      gameState := gameState.(canThrow := false);
      gameState := gameState.(isRunningAway := false);
    }

    method SaveToLocalStorage()
      modifies this
      ensures Snapshot() == Actions.SaveToLocalStorage(old(Snapshot()))
    {
      var saveKey := Actions.SaveKey(trainer.name);
      var saveData := SaveData(trainer, Some(capturedPokemon), Some(eventLog));
      storage := storage[saveKey := Json(saveData)];
    }

    method LoadFromLocalStorage(username: string) returns (restored: bool)
      modifies this
      ensures (Snapshot(), restored) == Actions.LoadFromLocalStorage(old(Snapshot()), username)
      ensures old(Valid()) ==> Valid()
    {
      var saveKey := Actions.LoadKey(username);
      if saveKey in storage && storage[saveKey].Json? {
        var parsed := storage[saveKey].data;
        trainer := parsed.trainer;
        capturedPokemon := parsed.capturedPokemon.GetOr([]);
        eventLog := parsed.eventLog.GetOr([]);
        if trainer.name != "" {
          AddEventLog(Actions.WelcomeBackMessage(trainer.name));
          return true;
        }
      }
      return false;
    }

    method SetTrainerName(name: string)
      modifies this
      ensures Snapshot() == Actions.SetTrainerName(old(Snapshot()), name)
      ensures old(Valid()) ==> Valid()
    {
      ClearEventLog();
      trainer := trainer.(name := name);
      trainer := trainer.(isLoggedIn := true);
      var restored := LoadFromLocalStorage(name);
      if restored {
        return;
      }
      AddEventLog(Actions.WelcomeMessage(name));
      SaveToLocalStorage();
    }

    /** `findPokemon()`, with `Math.random()` as `draw` and the fetch as `provider`. */
    method FindPokemon(draw: real, provider: int -> Option<Creature>)
      requires 0.0 <= draw < 1.0
      modifies this
      ensures Snapshot() == Actions.FindPokemon(old(Snapshot()), draw, provider)
      ensures old(Valid()) ==> Valid()
    {
      var randomId := Actions.RandomId(draw);
      var response := provider(randomId);
      match response {
        case None =>
          AddEventLog(Actions.FindFailedMessage);
        case Some(pokemonData) =>
          currentPokemon := Some(pokemonData);
          gameState := gameState.(isInGame := true);
          gameState := gameState.(consecutiveFailures := 0);
          gameState := gameState.(canFind := false);
          gameState := gameState.(canIgnore := true);
          gameState := gameState.(canThrow := true);
          AddEventLog(Actions.AppearedMessage(Capitalize(pokemonData.name)));
      }
    }

    method IgnorePokemon()
      requires currentPokemon.Some?
      modifies this
      ensures Snapshot() == Actions.IgnorePokemon(old(Snapshot()))
      ensures Valid()
    {
      AddEventLog(Actions.IgnoredMessage(Capitalize(currentPokemon.value.name)));
      ClearEncounter();
    }

    /** `throwPokemon()`, with `Math.random()` as `draw`. */
    method ThrowPokemon(draw: real)
      requires gameState.canThrow ==> currentPokemon.Some?
      modifies this
      ensures Snapshot() == Actions.ThrowPokemon(old(Snapshot()), draw)
      ensures old(Valid()) ==> Valid()
    {
      if !gameState.canThrow {
        return;
      }
      var pokemon := currentPokemon.value;
      var pokemonName := Capitalize(pokemon.name);
      AddEventLog(Actions.ThrowsMessage(trainer.name, pokemonName));

      var isSuccess := Actions.IsCatch(draw);
      if isSuccess {
        capturedPokemon := capturedPokemon + [pokemon];
        AddEventLog(Actions.CaughtMessage(pokemonName));
        ClearEncounter();
        SaveToLocalStorage();
      } else {
        gameState := gameState.(consecutiveFailures := gameState.consecutiveFailures + 1);
        if gameState.consecutiveFailures >= 2 {
          gameState := gameState.(isRunningAway := true);
          AddEventLog(Actions.RanAwayMessage(pokemonName));
          pendingFleeTimers := pendingFleeTimers + 1;
        } else {
          AddEventLog(Actions.BrokeFreeMessage(pokemonName));
          gameState := gameState.(canIgnore := false);
        }
      }
    }

    /** The callback a flee scheduled, firing after its delay. */
    method FireFleeTimer()
      requires pendingFleeTimers > 0
      modifies this
      ensures Snapshot() == Actions.FireFleeTimer(old(Snapshot()))
      ensures Valid()
    {
      pendingFleeTimers := pendingFleeTimers - 1;
      ClearEncounter();
    }

    method QuitGame()
      modifies this
      ensures Snapshot() == Actions.QuitGame(old(Snapshot()))
    {
      SaveToLocalStorage();
    }
  }

  /**
   * A new trainer finds a creature and catches it at the first throw; the
   * capture is saved, and a second store over the same storage that logs in
   * under the same name gets it back.
   */
  method CatchAndReload(saved: map<string, StoredValue>, name: string, draw: real,
                        provider: int -> Option<Creature>, catchDraw: real)
    returns (first: GameStore, second: GameStore)
    requires name != "" && Actions.LoadKey(name) !in saved
    requires 0.0 <= draw < 1.0 && provider(Actions.RandomId(draw)).Some?
    requires Actions.IsCatch(catchDraw)
    ensures first.capturedPokemon == [provider(Actions.RandomId(draw)).value]
    ensures second.capturedPokemon == first.capturedPokemon
    ensures second.trainer == Trainer(name, true)
    ensures second.eventLog == first.eventLog + [Actions.WelcomeBackMessage(name)]
    ensures |second.eventLog| == 5
  {
    first := new GameStore(saved);
    first.SetTrainerName(name);
    first.FindPokemon(draw, provider);
    first.ThrowPokemon(catchDraw);
    second := new GameStore(first.storage);
    second.SetTrainerName(name);
  }
}
