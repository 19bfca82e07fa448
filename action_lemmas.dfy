/** Properties of the store's actions, each over all sessions it applies to. */
module ActionLemmas {
  import opened Wrappers
  import opened Text
  import opened Types
  import opened Actions

  // ---------------------------------------------------------------------------
  // Random draws

  /** Every first-generation id is drawn by some value of `Math.random()`. */
  lemma RandomIdCovers(id: int)
    requires 1 <= id <= MaxPokemonId
    ensures var draw := (id - 1) as real / 151.0;
            0.0 <= draw < 1.0 && RandomId(draw) == id
  {
    var draw := (id - 1) as real / 151.0;
    assert draw * 151.0 == (id - 1) as real;
  }

  /**
   * The catch threshold is 0.333, not one third: a draw of 0.3332 is below
   * 1/3 and still catches, while 0.5 catches and 0.2 does not.
   */
  lemma CatchThresholdExamples()
    ensures IsCatch(0.5) && !IsCatch(0.2)
    ensures 0.3332 < 1.0 / 3.0 && IsCatch(0.3332)
  {
  }

  // ---------------------------------------------------------------------------
  // Finding

  /** A successful fetch starts a fresh encounter and logs exactly its appearance. */
  lemma FindSucceeds(s: Session, draw: real, provider: int -> Option<Creature>)
    requires 0.0 <= draw < 1.0
    requires provider(RandomId(draw)).Some?
    ensures var r := FindPokemon(s, draw, provider);
            var pokemon := provider(RandomId(draw)).value;
            && r.currentPokemon == Some(pokemon)
            && r.gameState == s.gameState.(isInGame := true, consecutiveFailures := 0,
                                           canFind := false, canIgnore := true, canThrow := true)
            && r.eventLog == s.eventLog + [AppearedMessage(Capitalize(pokemon.name))]
            && r.trainer == s.trainer && r.capturedPokemon == s.capturedPokemon
            && r.pendingFleeTimers == s.pendingFleeTimers && r.storage == s.storage
  {
  }

  /** A failed fetch only logs the failure. */
  lemma FindFails(s: Session, draw: real, provider: int -> Option<Creature>)
    requires 0.0 <= draw < 1.0
    requires provider(RandomId(draw)).None?
    ensures FindPokemon(s, draw, provider) == s.(eventLog := s.eventLog + [FindFailedMessage])
  {
  }

  /**
   * A find during the flee delay is accepted (nothing checks `canFind`): the
   * new creature appears with no failed throws while `isRunningAway` is still
   * set, and the pending delayed clear then removes the new creature.
   */
  lemma FindDuringFleeIsClearedByTimer(s: Session, draw: real, provider: int -> Option<Creature>)
    requires Valid(s) && s.gameState.isRunningAway
    requires 0.0 <= draw < 1.0 && provider(RandomId(draw)).Some?
    ensures var found := FindPokemon(s, draw, provider);
            && found.currentPokemon.Some?
            && !FleeConsistent(found)
            && found.pendingFleeTimers > 0
            && FireFleeTimer(found).currentPokemon == None
  {
  }

  // ---------------------------------------------------------------------------
  // Ignoring, clearing

  /** Ignoring logs the creature's name and returns to the idle flags. */
  lemma IgnoreReturnsToIdle(s: Session)
    requires s.currentPokemon.Some?
    ensures var r := IgnorePokemon(s);
            && r.eventLog == s.eventLog + [IgnoredMessage(Capitalize(s.currentPokemon.value.name))]
            && r.currentPokemon == None && r.gameState == IdleState
            && r.trainer == s.trainer && r.capturedPokemon == s.capturedPokemon
            && r.pendingFleeTimers == s.pendingFleeTimers && r.storage == s.storage
  {
  }

  /** Clearing the encounter twice is clearing it once. */
  lemma ClearEncounterIdempotent(s: Session)
    ensures ClearEncounter(ClearEncounter(s)) == ClearEncounter(s)
  {
  }

  // ---------------------------------------------------------------------------
  // Throwing

  /**
   * A catch appends a copy of the current creature to the captures, logs the
   * throw and the catch, clears the encounter and saves at the trainer's key.
   */
  lemma ThrowCatches(s: Session, draw: real)
    requires Valid(s) && s.gameState.canThrow && IsCatch(draw)
    ensures var r := ThrowPokemon(s, draw);
            var pokemonName := Capitalize(s.currentPokemon.value.name);
            && r.capturedPokemon == s.capturedPokemon + [s.currentPokemon.value]
            && r.eventLog == s.eventLog + [ThrowsMessage(s.trainer.name, pokemonName),
                                           CaughtMessage(pokemonName)]
            && r.currentPokemon == None && r.gameState == IdleState
            && r.trainer == s.trainer && r.pendingFleeTimers == s.pendingFleeTimers
            && r.storage == s.storage[SaveKey(s.trainer.name) :=
                 Json(SaveData(s.trainer, Some(r.capturedPokemon), Some(r.eventLog)))]
  {
  }

  /**
   * The first failed throw: the creature broke free, ignoring is disabled and
   * the encounter goes on; nothing is captured or saved.
   */
  lemma ThrowBreaksFree(s: Session, draw: real)
    requires Valid(s) && s.gameState.canThrow && !IsCatch(draw)
    requires s.gameState.consecutiveFailures == 0
    ensures var r := ThrowPokemon(s, draw);
            var pokemonName := Capitalize(s.currentPokemon.value.name);
            && r.gameState == s.gameState.(consecutiveFailures := 1, canIgnore := false)
            && r.eventLog == s.eventLog + [ThrowsMessage(s.trainer.name, pokemonName),
                                           BrokeFreeMessage(pokemonName)]
            && r.currentPokemon == s.currentPokemon && r.capturedPokemon == s.capturedPokemon
            && r.pendingFleeTimers == s.pendingFleeTimers && r.storage == s.storage
  {
  }

  /**
   * A later failed throw: the creature runs away and a delayed clear is
   * scheduled; the encounter and `canThrow` stay as they were until it fires.
   */
  lemma ThrowRunsAway(s: Session, draw: real)
    requires Valid(s) && s.gameState.canThrow && !IsCatch(draw)
    requires s.gameState.consecutiveFailures >= 1
    ensures var r := ThrowPokemon(s, draw);
            var pokemonName := Capitalize(s.currentPokemon.value.name);
            && r.gameState == s.gameState.(consecutiveFailures := s.gameState.consecutiveFailures + 1,
                                           isRunningAway := true)
            && r.gameState.canThrow && !r.gameState.canIgnore
            && r.eventLog == s.eventLog + [ThrowsMessage(s.trainer.name, pokemonName),
                                           RanAwayMessage(pokemonName)]
            && r.currentPokemon == s.currentPokemon && r.capturedPokemon == s.capturedPokemon
            && r.pendingFleeTimers == s.pendingFleeTimers + 1 && r.storage == s.storage
  {
  }

  /** Until the delayed clear fires, a throw at a fleeing creature can still catch it. */
  lemma ThrowWhileFleeingCanCatch(s: Session, draw: real)
    requires Valid(s) && s.currentPokemon.Some? && s.gameState.isRunningAway && IsCatch(draw)
    ensures ThrowPokemon(s, draw).capturedPokemon == s.capturedPokemon + [s.currentPokemon.value]
  {
  }

  /**
   * A fresh encounter, two failed throws and the delayed clear: the creature
   * broke free, then ran away, and the store is idle again with the captures
   * unchanged.
   */
  lemma TwoFailuresThenFlee(s: Session, draw1: real, draw2: real)
    requires Valid(s) && FleeConsistent(s)
    requires s.currentPokemon.Some? && s.gameState.consecutiveFailures == 0
    requires !IsCatch(draw1) && !IsCatch(draw2)
    ensures var once := ThrowPokemon(s, draw1);
            var twice := ThrowPokemon(once, draw2);
            var pokemonName := Capitalize(s.currentPokemon.value.name);
            var thrown := ThrowsMessage(s.trainer.name, pokemonName);
            && once.currentPokemon == s.currentPokemon && !once.gameState.isRunningAway
            && twice.gameState.isRunningAway && twice.pendingFleeTimers > 0
            && twice.eventLog == s.eventLog + [thrown, BrokeFreeMessage(pokemonName),
                                               thrown, RanAwayMessage(pokemonName)]
            && FireFleeTimer(twice).currentPokemon == None
            && FireFleeTimer(twice).gameState == IdleState
            && FireFleeTimer(twice).capturedPokemon == s.capturedPokemon
  {
    ThrowBreaksFree(s, draw1);
    var once := ThrowPokemon(s, draw1);
    ThrowRunsAway(once, draw2);
  }

  // ---------------------------------------------------------------------------
  // Persistence

  /** Different trainer names are saved under different keys. */
  lemma SaveKeyInjective(a: string, b: string)
    requires SaveKey(a) == SaveKey(b)
    ensures a == b
  {
    assert a == SaveKey(a)[|SaveKeyPrefix|..];
    assert b == SaveKey(b)[|SaveKeyPrefix|..];
  }

  /** Loading with an empty name reads a key that no save ever writes. */
  lemma EmptyNameReadsNoSaveKey(name: string)
    ensures LoadKey("") != SaveKey(name)
  {
    assert |SaveKey(name)| >= |SaveKeyPrefix| > |"undefined"|;
  }

  /**
   * Saving then loading under the trainer's own name restores trainer,
   * captures and log, adds one welcome-back entry and answers true.
   */
  lemma SaveLoadRoundTrip(s: Session)
    requires s.trainer.name != ""
    ensures var saved := SaveToLocalStorage(s);
            var loaded := LoadFromLocalStorage(saved, s.trainer.name);
            && loaded.1
            && loaded.0.trainer == s.trainer
            && loaded.0.capturedPokemon == s.capturedPokemon
            && loaded.0.eventLog == s.eventLog + [WelcomeBackMessage(s.trainer.name)]
            && loaded.0.storage == saved.storage
  {
  }

  /** A key with nothing usable under it: absent, or a value that does not parse. */
  predicate NoUsableSave(s: Session, username: string) {
    LoadKey(username) !in s.storage || s.storage[LoadKey(username)].Unparseable?
  }

  /** Loading from a missing or unparseable key answers false and changes nothing. */
  lemma LoadWithoutSaveIsNoOp(s: Session, username: string)
    requires NoUsableSave(s, username)
    ensures LoadFromLocalStorage(s, username) == (s, false)
  {
  }

  /**
   * Logging in without a usable save: the log is exactly the welcome entry,
   * the trainer is logged in, and that state is saved at once. The captures
   * already in the store are kept, and saved under the new name.
   */
  lemma SetTrainerNameFresh(s: Session, name: string)
    requires NoUsableSave(s, name)
    ensures var r := SetTrainerName(s, name);
            && r.trainer == Trainer(name, true)
            && r.eventLog == [WelcomeMessage(name)]
            && r.capturedPokemon == s.capturedPokemon
            && r.storage == s.storage[SaveKey(name) :=
                 Json(SaveData(Trainer(name, true), Some(s.capturedPokemon), Some([WelcomeMessage(name)])))]
  {
  }

  /**
   * Logging in with a save: the saved trainer, captures and log come back,
   * followed by the welcome-back entry only, and nothing is written.
   */
  lemma SetTrainerNameRestores(s: Session, name: string)
    requires name != "" && SaveKey(name) in s.storage && s.storage[SaveKey(name)].Json?
    requires s.storage[SaveKey(name)].data.trainer.name != ""
    ensures var r := SetTrainerName(s, name);
            var saved := s.storage[SaveKey(name)].data;
            && r.trainer == saved.trainer
            && r.capturedPokemon == saved.capturedPokemon.GetOr([])
            && r.eventLog == saved.eventLog.GetOr([]) + [WelcomeBackMessage(saved.trainer.name)]
            && r.storage == s.storage
  {
  }

  /**
   * Logging in, playing, quitting and logging in again under the same name:
   * what the store held at the quit comes back.
   */
  lemma ReloginRestoresLastSave(s: Session, name: string)
    requires name != "" && s.trainer.name == name
    ensures var r := SetTrainerName(QuitGame(s), name);
            && r.trainer == s.trainer
            && r.capturedPokemon == s.capturedPokemon
            && r.eventLog == s.eventLog + [WelcomeBackMessage(name)]
  {
  }
}
