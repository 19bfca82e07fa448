/** The values held by the game store of src/stores/game.js. */
module Types {
  import opened Wrappers

  /** `trainer`: the player's name and whether they have logged in. */
  datatype Trainer = Trainer(name: string, isLoggedIn: bool)

  /** `currentPokemon` and the elements of `capturedPokemon`: a plain record, copied by value. */
  datatype Creature = Creature(
    id: int,
    name: string,
    sprite: string,
    types: seq<string>,
    height: int,
    weight: int,
    stats: map<string, int>)

  /** `gameState`: the flags that gate the player's actions. */
  datatype GameState = GameState(
    isInGame: bool,
    consecutiveFailures: nat,
    canFind: bool,
    canIgnore: bool,
    canThrow: bool,
    isRunningAway: bool)

  /** The flags with no encounter: the initial state and what `clearEncounter` restores. */
  const IdleState := GameState(false, 0, true, false, false, false)

  /**
   * A parsed save record. The two collections are optional because loading
   * falls back to an empty sequence when either is missing.
   */
  datatype SaveData = SaveData(
    trainer: Trainer,
    capturedPokemon: Option<seq<Creature>>,
    eventLog: Option<seq<string>>)

  /** What a storage key can hold: a record that parses, or a value that does not (or is empty). */
  datatype StoredValue = Json(data: SaveData) | Unparseable

  /**
   * The whole state of one store instance together with the browser storage it
   * writes to. `pendingFleeTimers` counts the delayed clears scheduled by a
   * flee that have not fired yet.
   */
  datatype Session = Session(
    trainer: Trainer,
    currentPokemon: Option<Creature>,
    capturedPokemon: seq<Creature>,
    eventLog: seq<string>,
    gameState: GameState,
    pendingFleeTimers: nat,
    storage: map<string, StoredValue>)
}
