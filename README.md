# Catch-game store, modelled in Dafny

This project models the game store of a single-player creature-catching game
(`src/stores/game.js`). The store holds:

- the trainer;
- the creature currently encountered, if any;
- an append-only list of captured creatures;
- an event log;
- the `gameState` flags `isInGame`, `consecutiveFailures`, `canFind`,
  `canIgnore`, `canThrow` and `isRunningAway`.

The store's actions are finding a creature, ignoring it, throwing a ball at
it, clearing the encounter, quitting, and saving or loading progress in the
browser's storage under `pokemonGameSave_<name>`.

Layout:

- `wrappers.dfy`: `Option`, which stands for `null` and for a missing field.
- `text.dfy`: `capitalize`.
- `types.dfy`: trainer, creature, flags, save record, stored value, and the session as one value.
- `getters.dfy`: `uniquePokemonCount` and `totalCapturedCount`.
- `actions.dfy`: each action as a function from session to session. It also holds the invariants `Valid` and `FleeConsistent`.
- `action_lemmas.dfy`: the properties of the actions.
- `store.dfy`: class `GameStore`. It has the store's fields plus the storage map and a count of pending flee timers. Its methods update the fields step by step, in the source's order. Each method is proved to end in the state the function of the same name in `Actions` gives.

The outside world comes in as parameters:

- `Math.random()` for the id is a `draw: real` in [0, 1). The id is `Floor(draw * 151) + 1`.
- The fetch is a `provider: int -> Option<Creature>`. It is asked for the drawn id, and `None` stands for every failure.
- `Math.random()` for a throw is a `draw: real`. The throw catches iff `draw > 0.333`.
- `localStorage` is a `map<string, StoredValue>`. A stored value is a parsed record or `Unparseable`.
- The `setTimeout` of a flee is a counter of scheduled callbacks. `FireFleeTimer` fires one of them.

The model follows the code as written, including these behaviours:

- The catch threshold is `> 0.333`, not `> 1/3` (`CatchThresholdExamples`).
- `findPokemon` does not check `canFind` and does not reset `isRunningAway`. A find during the flee delay is accepted, and the pending timer then clears the new creature (`FindDuringFleeIsClearedByTimer`). So `isRunningAway ⇒ consecutiveFailures ≥ 2` (`FleeConsistent`) is kept by every action except such a find. `Valid` is kept by every action.
- After "ran away", `canThrow` stays true. A throw before the timer fires can still catch (`ThrowWhileFleeingCanCatch`).
- `ignorePokemon` reads the current creature's name without a guard. It therefore requires a creature.
- `setTrainerName` with no usable save does not reset `capturedPokemon`. The captures already in the store are saved under the new name (`SetTrainerNameFresh`).
- `loadFromLocalStorage` with an empty name reads the storage key `"undefined"`. No save writes that key (`EmptyNameReadsNoSaveKey`).
- A save record whose trainer name is empty still replaces trainer, captures and log. The load then answers false without a welcome-back entry.
- The save key prefix is `pokemonGameSave_`.

## Model

| member | source | states |
|---|---|---|
| `Text.Capitalize` | src/stores/game.js:3 | Same length. The empty string stays empty. Otherwise the first character is upper-cased (never a lower-case letter afterwards) and every later character is unchanged. |
| `Text.CapitalizeIdempotent` | src/stores/game.js:3 | Capitalizing twice equals capitalizing once. |
| `Text.CapitalizeKeepsTail` | src/stores/game.js:3 | Two names that capitalize alike have the same length and the same characters after the first. |
| `Getters.IdSet` | src/stores/game.js:25 | The set holds exactly the ids occurring in the captures and is no larger than their number. |
| `Getters.UniquePokemonCount` | src/stores/game.js:24-27 | The unique count is at most the total count, and at least 1 when anything was caught. |
| `Getters.UniqueEqualsTotalIffDistinct` | src/stores/game.js:24-29 | Unique count equals total count iff no id occurs twice (both directions). |
| `Getters.TotalCapturedCount` | src/stores/game.js:29 | The total is the number of captures and is at least the number of distinct ids. |
| `Getters.IdSetAppend` | src/stores/game.js:25 | Appending a capture adds exactly its id to the id set. |
| `Getters.CaptureAppendCounts` | src/stores/game.js:24-29 | One more capture adds 1 to the total. It adds 1 to the unique count iff its id is new, else 0. |
| `Getters.CountsExample` | src/stores/game.js:24-29 | Captures with ids 1, 1, 4 give unique count 2 and total 3. |
| `Actions.SaveKey` | src/stores/game.js:149 | The key is `pokemonGameSave_` followed by exactly the trainer name. |
| `Actions.LoadKey` | src/stores/game.js:158-165 | The key read is the trainer's save key iff the username is non-empty. |
| `Actions.IsCatch` | src/stores/game.js:109 | Every draw above 1/3 catches, and every catching draw exceeds 0.333. |
| `Actions.AddEventLog` | src/stores/game.js:46-53 | The log keeps all earlier entries and gains exactly one entry, the message, at the end. Nothing else changes. |
| `Actions.ClearEventLog` | src/stores/game.js:184-186 | The log becomes empty and nothing else changes. |
| `Actions.SaveToLocalStorage` | src/stores/game.js:148-156 | The trainer's key holds trainer, captures and log. Every other key keeps its value or stays absent. Nothing but the storage changes. |
| `Actions.RandomId` | src/stores/game.js:58 | For every draw in [0, 1) the id lies in [1, 151]. |
| `Actions.InitialSession` | src/stores/game.js:6-22 | The initial state has no creature, no captures and an empty log, and satisfies both invariants. |
| `Actions.ClearEncounter` | src/stores/game.js:134-142 | Always ends with no creature and the idle flags (so both invariants hold). Nothing else changes. |
| `Actions.LoadFromLocalStorage` | src/stores/game.js:158-182 | Answers true iff the read key holds a parsable record with a non-empty trainer name. Never touches encounter, flags, timers or storage. Keeps both invariants. |
| `Actions.SetTrainerName` | src/stores/game.js:33-44 | Leaves encounter and flags as they were and keeps both invariants. |
| `Actions.FindPokemon` | src/stores/game.js:55-93 | Keeps `Valid`. It keeps `FleeConsistent` when no flee is under way, in particular when starting idle. Never changes captures or storage. |
| `Actions.IgnorePokemon` | src/stores/game.js:95-100 | Ends with no creature and the idle flags, with both invariants. Captures and storage are unchanged. |
| `Actions.ThrowPokemon` | src/stores/game.js:102-132 | Without `canThrow` the session is unchanged. Keeps both invariants and the trainer. Adds at most one capture. |
| `Actions.FireFleeTimer` | src/stores/game.js:123-125 | Uses up one pending callback and ends with no creature and the idle flags, with both invariants. Nothing else changes. |
| `Actions.QuitGame` | src/stores/game.js:144-146 | Changes only the storage: the trainer's key then holds trainer, captures and log, and every other key is kept. |
| `ActionLemmas.RandomIdCovers` | src/stores/game.js:58 | Every id in [1, 151] is produced by some draw in [0, 1). |
| `ActionLemmas.CatchThresholdExamples` | src/stores/game.js:108-111 | 0.5 catches and 0.2 does not. 0.3332 is below 1/3 and still catches. |
| `ActionLemmas.FindSucceeds` | src/stores/game.js:55-88 | A successful fetch sets the creature and fails 0. It sets `isInGame`, `canIgnore` and `canThrow`, clears `canFind`, and appends exactly "A {Name} has appeared!". Nothing else changes. |
| `ActionLemmas.FindFails` | src/stores/game.js:89-92 | A failed fetch only appends "Failed to find a Pokemon. Try again!". |
| `ActionLemmas.FindDuringFleeIsClearedByTimer` | src/stores/game.js:55-88 | A find during the flee delay is accepted and breaks `FleeConsistent`. The pending timer then clears the new creature. |
| `ActionLemmas.IgnoreReturnsToIdle` | src/stores/game.js:95-100 | Ignoring appends "You ignored {Name} :(" and returns to the idle flags. Captures, trainer and storage are unchanged. |
| `ActionLemmas.ClearEncounterIdempotent` | src/stores/game.js:134-142 | Clearing twice equals clearing once. |
| `ActionLemmas.ThrowCatches` | src/stores/game.js:105-115 | A catch appends the prior creature to the captures and appends the throw and caught entries. It ends idle, and storage at the trainer's key holds trainer, captures and log. |
| `ActionLemmas.ThrowBreaksFree` | src/stores/game.js:116-130 | A first failure sets fails to 1 and clears `canIgnore`. It logs throw and "broke free!". The encounter, captures and storage stay. |
| `ActionLemmas.ThrowRunsAway` | src/stores/game.js:116-125 | A later failure increments fails and sets `isRunningAway` while `canThrow` stays set. It logs throw and "ran away!" and schedules one timer. Captures are unchanged. |
| `ActionLemmas.ThrowWhileFleeingCanCatch` | src/stores/game.js:102-113 | A fleeing creature can still be caught before the timer fires. |
| `ActionLemmas.TwoFailuresThenFlee` | src/stores/game.js:102-142 | Two failed throws on a fresh encounter log break-free then run-away. The timer then returns the store to idle with captures unchanged. |
| `ActionLemmas.SaveKeyInjective` | src/stores/game.js:149 | Different trainer names get different save keys. |
| `ActionLemmas.EmptyNameReadsNoSaveKey` | src/stores/game.js:158-165 | The key read for an empty name is never a save key. |
| `ActionLemmas.SaveLoadRoundTrip` | src/stores/game.js:148-176 | Save then load with the trainer's non-empty name answers true. It restores trainer, captures and log and appends one "Welcome back, {name}!". |
| `ActionLemmas.LoadWithoutSaveIsNoOp` | src/stores/game.js:165-181 | A missing or unparsable key answers false and changes nothing. |
| `ActionLemmas.SetTrainerNameFresh` | src/stores/game.js:33-44 | With no usable save the log is exactly ["Welcome, {name}! Get to catching!"] and the trainer is logged in. The store is saved at once, captures kept. |
| `ActionLemmas.SetTrainerNameRestores` | src/stores/game.js:33-40 | With a save, the saved trainer, captures and log come back with only the welcome-back entry added. Nothing is written. |
| `ActionLemmas.ReloginRestoresLastSave` | src/stores/game.js:33-40 | Quitting and logging in again under the same name restores the trainer, captures and log held at the quit. |
| `Store.GameStore.constructor` | src/stores/game.js:6-22 | The new store is the initial session over the given storage and satisfies the invariants. |
| `Store.GameStore.AddEventLog` | src/stores/game.js:46-53 | Appends one entry and changes nothing else. |
| `Store.GameStore.ClearEventLog` | src/stores/game.js:184-186 | Empties the log and changes nothing else. |
| `Store.GameStore.ClearEncounter` | src/stores/game.js:134-142 | Ends in the `Actions.ClearEncounter` state. |
| `Store.GameStore.SaveToLocalStorage` | src/stores/game.js:148-156 | Writes trainer, captures and log under the trainer's key and changes nothing else. |
| `Store.GameStore.LoadFromLocalStorage` | src/stores/game.js:158-182 | New state and answer are those of `Actions.LoadFromLocalStorage`. |
| `Store.GameStore.SetTrainerName` | src/stores/game.js:33-44 | Ends in the `Actions.SetTrainerName` state and keeps `Valid`. |
| `Store.GameStore.FindPokemon` | src/stores/game.js:55-93 | Ends in the `Actions.FindPokemon` state and keeps `Valid`. |
| `Store.GameStore.IgnorePokemon` | src/stores/game.js:95-100 | Ends in the `Actions.IgnorePokemon` state, which is valid. |
| `Store.GameStore.ThrowPokemon` | src/stores/game.js:102-132 | Ends in the `Actions.ThrowPokemon` state and keeps `Valid`. |
| `Store.GameStore.FireFleeTimer` | src/stores/game.js:123-125 | Ends in the `Actions.FireFleeTimer` state, which is valid. |
| `Store.GameStore.QuitGame` | src/stores/game.js:144-146 | Ends in the `Actions.QuitGame` state. |
| `Store.CatchAndReload` | src/stores/game.js:33-44 | A new trainer finds a creature and catches it. A second store over the same storage that logs in under that name holds that capture and the same log plus the welcome-back entry. |

## Left out

- The PokeAPI request, its status check and the mapping of the response body to a creature record are not modelled. They are network I/O, and the provider parameter stands for all of them.
- `Math.random()` is a parameter, and the draws are exact reals. Floating-point rounding of `draw * 151` and of the literal 0.333 is not modelled.
- Log entry timestamps (`Date.now()`, `toLocaleTimeString`, `toISOString`) are omitted, because they depend on the clock and the locale. Entries are their messages.
- The 1000 ms delay of the flee callback is not modelled. Only the fact that a callback is pending is kept, and firing it is an explicit method.
- Interleavings at the `await` inside `findPokemon` are not modelled. Each action runs to completion.
- `JSON.stringify`/`JSON.parse`, `console.log` and `console.error` are not modelled as such. A stored value is a parsed record or `Unparseable`, and an empty stored string counts as `Unparseable`.
- A stored record that parses but has no `trainer` object is not modelled. In the source, `trainer` becomes `undefined` and captures and log are replaced. Reading the trainer's name then throws, the `try` catches it, and the load answers false. The error that escapes comes later, when `setTrainerName` saves and reads `trainer.name` again.
- Text.Capitalize: upper-cases only the ASCII letters `a`–`z`. Non-ASCII case mapping, including mappings that change the length, is not modelled.
- src/main.js is not part of this model. It only wires the application together.
