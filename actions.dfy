/**
 * The actions of the game store in src/stores/game.js, each as a function from
 * the session before the action to the session after it. The class in
 * store.dfy performs the same actions step by step and is proved equal to
 * these functions.
 */
module Actions {
  import opened Wrappers
  import opened Text
  import opened Types

  // ---------------------------------------------------------------------------
  // Constants, keys and messages

  /** Ids of the first generation, which is where encounters are drawn from. */
  const MaxPokemonId := 151

  /** A throw succeeds when the random draw exceeds this threshold. */
  const CatchThreshold: real := 0.333

  const SaveKeyPrefix := "pokemonGameSave_"

  /** The storage key a trainer's progress is saved under. */
  function SaveKey(name: string): (key: string)
    ensures |key| == |SaveKeyPrefix| + |name|
    ensures key[..|SaveKeyPrefix|] == SaveKeyPrefix && key[|SaveKeyPrefix|..] == name
  {
    SaveKeyPrefix + name
  }

  /**
   * The key `loadFromLocalStorage(username)` reads. With a falsy (empty)
   * username the key variable stays `undefined`, which the browser's storage
   * turns into the string "undefined".
   */
  function LoadKey(username: string): (key: string)
    ensures key == SaveKey(username) <==> username != ""
  {
    if username != "" then SaveKey(username) else "undefined"
  }

  function WelcomeMessage(name: string): string {
    "Welcome, " + name + "! Get to catching!"
  }

  function WelcomeBackMessage(name: string): string {
    "Welcome back, " + name + "!"
  }

  const FindFailedMessage := "Failed to find a Pokemon. Try again!"

  function AppearedMessage(pokemonName: string): string {
    "A " + pokemonName + " has appeared!"
  }

  function IgnoredMessage(pokemonName: string): string {
    "You ignored " + pokemonName + " :("
  }

  function ThrowsMessage(trainerName: string, pokemonName: string): string {
    trainerName + " throws a ball at " + pokemonName + "!"
  }

  function CaughtMessage(pokemonName: string): string {
    pokemonName + " was caught!"
  }

  function RanAwayMessage(pokemonName: string): string {
    pokemonName + " ran away!"
  }

  function BrokeFreeMessage(pokemonName: string): string {
    pokemonName + " broke free!"
  }

  // ---------------------------------------------------------------------------
  // The random draws

  /**
   * `Math.floor(Math.random() * 151) + 1`, for a draw `Math.random()` in [0, 1):
   * every id it yields is a first-generation id.
   */
  function RandomId(draw: real): (id: int)
    requires 0.0 <= draw < 1.0
    ensures 1 <= id <= MaxPokemonId
  {
    var scaled := draw * 151.0;
    assert 0.0 <= scaled < 151.0;
    scaled.Floor + 1
  }

  /** `Math.random() > 0.333`: whether a throw with this draw catches. */
  predicate IsCatch(draw: real): (caught: bool)
    ensures draw > 1.0 / 3.0 ==> caught
    ensures caught ==> draw > CatchThreshold
  {
    draw > CatchThreshold
  }

  // ---------------------------------------------------------------------------
  // Invariants

  /**
   * The flags are a projection of the encounter: no creature means the idle
   * flags; a creature means throwing is allowed and finding is not; after a
   * failed throw ignoring is no longer allowed; a flee always has its delayed
   * clear still pending.
   */
  ghost predicate Valid(s: Session) {
    var g := s.gameState;
    && g.canFind == s.currentPokemon.None?
    && g.canThrow == s.currentPokemon.Some?
    && g.isInGame == s.currentPokemon.Some?
    && (s.currentPokemon.None? ==> g == IdleState)
    && (g.consecutiveFailures > 0 ==> !g.canIgnore)
    && (g.isRunningAway ==> s.pendingFleeTimers > 0)
  }

  /** A creature only runs away after two failed throws. */
  ghost predicate FleeConsistent(s: Session) {
    s.gameState.isRunningAway ==> s.gameState.consecutiveFailures >= 2
  }

  /** A new store over whatever the browser has saved. */
  function InitialSession(storage: map<string, StoredValue>): (s: Session)
    ensures Valid(s) && FleeConsistent(s)
    ensures s.currentPokemon == None && s.capturedPokemon == [] && s.eventLog == []
  {
    Session(Trainer("", false), None, [], [], IdleState, 0, storage)
  }

  // ---------------------------------------------------------------------------
  // Actions

  /** `addEventLog(message)`: one entry at the end of the log. */
  function AddEventLog(s: Session, message: string): (r: Session)
    ensures |r.eventLog| == |s.eventLog| + 1
    ensures r.eventLog[..|s.eventLog|] == s.eventLog && r.eventLog[|s.eventLog|] == message
    ensures r.(eventLog := s.eventLog) == s
  {
    s.(eventLog := s.eventLog + [message])
  }

  /** `clearEventLog()`. */
  function ClearEventLog(s: Session): (r: Session)
    ensures r.eventLog == [] && r.(eventLog := s.eventLog) == s
  {
    s.(eventLog := [])
  }

  /** `clearEncounter()`: back to the idle flags, whatever the state was. */
  function ClearEncounter(s: Session): (r: Session)
    ensures Valid(r) && FleeConsistent(r)
    ensures r.currentPokemon == None && r.gameState == IdleState
    ensures r.(currentPokemon := s.currentPokemon, gameState := s.gameState) == s
  {
    s.(currentPokemon := None, gameState := IdleState)
  }

  /** `saveToLocalStorage()`: trainer, captures and log, under the trainer's key. */
  function SaveToLocalStorage(s: Session): (r: Session)
    ensures SaveKey(s.trainer.name) in r.storage
    ensures r.storage[SaveKey(s.trainer.name)]
         == Json(SaveData(s.trainer, Some(s.capturedPokemon), Some(s.eventLog)))
    ensures forall key :: key != SaveKey(s.trainer.name) ==>
              (key in r.storage <==> key in s.storage) && (key in s.storage ==> r.storage[key] == s.storage[key])
    ensures r.(storage := s.storage) == s
  {
    var record := SaveData(s.trainer, Some(s.capturedPokemon), Some(s.eventLog));
    s.(storage := s.storage[SaveKey(s.trainer.name) := Json(record)])
  }

  /**
   * `loadFromLocalStorage(username)`: the session afterwards and the returned
   * boolean. A record that parses replaces trainer, captures and log even when
   * its trainer name is empty; only a non-empty name gets the welcome-back
   * entry and the answer true. The encounter, the flags and the storage are
   * never touched.
   */
  function LoadFromLocalStorage(s: Session, username: string): (r: (Session, bool))
    ensures r.1 <==> LoadKey(username) in s.storage && s.storage[LoadKey(username)].Json?
                     && s.storage[LoadKey(username)].data.trainer.name != ""
    ensures r.0.currentPokemon == s.currentPokemon && r.0.gameState == s.gameState
    ensures r.0.pendingFleeTimers == s.pendingFleeTimers && r.0.storage == s.storage
    ensures Valid(s) ==> Valid(r.0)
    ensures FleeConsistent(s) ==> FleeConsistent(r.0)
  {
    var key := LoadKey(username);
    if key in s.storage && s.storage[key].Json? then
      var parsed := s.storage[key].data;
      var loaded := s.(trainer := parsed.trainer,
                       capturedPokemon := parsed.capturedPokemon.GetOr([]),
                       eventLog := parsed.eventLog.GetOr([]));
      if loaded.trainer.name != "" then
        (AddEventLog(loaded, WelcomeBackMessage(loaded.trainer.name)), true)
      else
        (loaded, false)
    else
      (s, false)
  }

  /**
   * `setTrainerName(name)`: clear the log, log in, and either restore the
   * saved game or start a fresh log and save at once.
   */
  function SetTrainerName(s: Session, name: string): (r: Session)
    ensures r.currentPokemon == s.currentPokemon && r.gameState == s.gameState
    ensures Valid(s) ==> Valid(r)
    ensures FleeConsistent(s) ==> FleeConsistent(r)
  {
    var loggedIn := ClearEventLog(s).(trainer := s.trainer.(name := name, isLoggedIn := true));
    var loaded := LoadFromLocalStorage(loggedIn, name);
    if loaded.1 then loaded.0
    else SaveToLocalStorage(AddEventLog(loaded.0, WelcomeMessage(name)))
  }

  /**
   * `findPokemon()` with the random draw and the creature provider made
   * explicit: the provider answers for the drawn id, or fails. There is no
   * check of `canFind`, and `isRunningAway` is left as it was.
   */
  function FindPokemon(s: Session, draw: real, provider: int -> Option<Creature>): (r: Session)
    requires 0.0 <= draw < 1.0
    ensures Valid(s) ==> Valid(r)
    ensures Valid(s) && s.gameState.canFind ==> FleeConsistent(r)
    ensures FleeConsistent(s) && !s.gameState.isRunningAway ==> FleeConsistent(r)
    ensures r.capturedPokemon == s.capturedPokemon && r.storage == s.storage
  {
    match provider(RandomId(draw))
    case None => AddEventLog(s, FindFailedMessage)
    case Some(pokemon) =>
      var found := s.(currentPokemon := Some(pokemon),
                      gameState := s.gameState.(isInGame := true, consecutiveFailures := 0,
                                                canFind := false, canIgnore := true, canThrow := true));
      AddEventLog(found, AppearedMessage(Capitalize(pokemon.name)))
  }

  /** `ignorePokemon()`: it reads the current creature's name, so there must be one. */
  function IgnorePokemon(s: Session): (r: Session)
    requires s.currentPokemon.Some?
    ensures Valid(r) && FleeConsistent(r)
    ensures r.currentPokemon == None && r.gameState == IdleState
    ensures r.capturedPokemon == s.capturedPokemon && r.storage == s.storage
  {
    ClearEncounter(AddEventLog(s, IgnoredMessage(Capitalize(s.currentPokemon.value.name))))
  }

  /**
   * `throwPokemon()` with the random draw made explicit. Without `canThrow`
   * nothing happens; when `canThrow` is set the source reads the current
   * creature's name, so it must be present.
   */
  function ThrowPokemon(s: Session, draw: real): (r: Session)
    requires s.gameState.canThrow ==> s.currentPokemon.Some?
    ensures !s.gameState.canThrow ==> r == s
    ensures Valid(s) ==> Valid(r)
    ensures FleeConsistent(s) ==> FleeConsistent(r)
    ensures r.trainer == s.trainer
    ensures |r.capturedPokemon| <= |s.capturedPokemon| + 1
  {
    if !s.gameState.canThrow then s
    else
      var pokemon := s.currentPokemon.value;
      var pokemonName := Capitalize(pokemon.name);
      var thrown := AddEventLog(s, ThrowsMessage(s.trainer.name, pokemonName));
      if IsCatch(draw) then
        var caught := thrown.(capturedPokemon := thrown.capturedPokemon + [pokemon]);
        SaveToLocalStorage(ClearEncounter(AddEventLog(caught, CaughtMessage(pokemonName))))
      else
        var failures := s.gameState.consecutiveFailures + 1;
        var failed := thrown.(gameState := thrown.gameState.(consecutiveFailures := failures));
        if failures >= 2 then
          var fleeing := failed.(gameState := failed.gameState.(isRunningAway := true));
          AddEventLog(fleeing, RanAwayMessage(pokemonName)).(pendingFleeTimers := s.pendingFleeTimers + 1)
        else
          var brokeFree := AddEventLog(failed, BrokeFreeMessage(pokemonName));
          brokeFree.(gameState := brokeFree.gameState.(canIgnore := false))
  }

  /** The delayed callback scheduled by a flee: it clears whatever encounter is current. */
  function FireFleeTimer(s: Session): (r: Session)
    requires s.pendingFleeTimers > 0
    ensures Valid(r) && FleeConsistent(r)
    ensures r.currentPokemon == None && r.gameState == IdleState
    ensures r.pendingFleeTimers == s.pendingFleeTimers - 1
    ensures r.(currentPokemon := s.currentPokemon, gameState := s.gameState,
               pendingFleeTimers := s.pendingFleeTimers) == s
  {
    ClearEncounter(s).(pendingFleeTimers := s.pendingFleeTimers - 1)
  }

  /** `quitGame()`: save, nothing else. */
  function QuitGame(s: Session): (r: Session)
    ensures r.(storage := s.storage) == s
    ensures r.storage == s.storage[SaveKey(s.trainer.name) :=
              Json(SaveData(s.trainer, Some(s.capturedPokemon), Some(s.eventLog)))]
  {
    SaveToLocalStorage(s)
  }
}
