# Bulldog Realm: state store and game rules, modelled in Dafny

Bulldog Realm is a browser virtual-pet game. The player picks a bulldog, then feeds it, lets it
sleep, plays with it and trains it. Progress is kept in the browser's local storage.

This project models two parts of the game.

- **The persistence store** (`state.js`). It holds one game-state object. `init` builds that object
  from a deep copy of a default template and deep-merges any trusted save over it. `loadRaw`
  trusts a save only when it is an object with `v` equal to 2 and a truthy `data`; the timestamp
  `ts` is written but never read. `saveNow` writes the envelope `{v: 2, ts, data}` with the derived field `charData` removed. `saveSoon` debounces saves
  through a single pending timer.
- **The game rules** (`app_new.js` and `app.js`). `doAction` raises hunger, energy or joy by 10,
  capped at 100, or trains. `addXp` adds experience and levels up once `level * 20` is reached.
  `selectChar` records the chosen character. `startGame` starts only once a character is chosen.
  `switchTab` (in `app_new.js` only) maps a tab to a screen. `app.js` and `app_new.js` contain the
  same state logic for `doAction`, `addXp`, `selectChar` and `startGame`, so one model covers both.

Files:

- `options.dfy` defines `Option`, which stands for JavaScript `null`.
- `json.dfy` (module `JsonValues`) defines JSON values, JavaScript truthiness, property access and
  the deep copy.
- `merge.dfy` (module `DeepMerge`) models `_mergeInto`. It has a specification function
  (`MergeFields`/`Merge`), the loop over the source's keys as a method (`MergeInto`) proved
  against that function, and path-level lemmas that characterise the merge.
- `store.dfy` (module `StateStore`) holds the constants, the envelope, `loadRaw`, the sanitiser,
  the effect of a save on storage, hydration, the class `Store` (the module-level variables
  `_state`, `_saveTimer` and local storage) and the debounce scenario.
- `game.dfy` (module `Game`) holds the `gameData` record as a value (`Stats`) and as an object
  updated in place (`GameData`), the action rules, the tab lookup, and the round trip of the
  record through the store.

Local storage is a map from keys to entries. An entry is either text that parses to a JSON value
(`Text`) or text that `JSON.parse` rejects (`Garbage`, which includes the empty string). The clock
reading `Date.now()` is the parameter `now`. Whether a storage write throws (quota exceeded,
private mode) is the parameter `writeFails`. A timer firing is the explicit step `FireTimer`.

Details of the code that the model keeps:

- `loadRaw` also rejects a parsed value that is falsy, and a save whose `data` is falsy, not
  only a missing key, a parse failure or a wrong version.
- `startGame` returns early when `selectedChar` is falsy. That is `null` and also the empty
  string.
- `_mergeInto` accepts an array as its source. At the top level an array's indices become keys
  `"0"`, `"1"`, … of the state.

## Model

| member | source | states |
|---|---|---|
| JsonValues.Member | state.js:46 | property access `parsed.v` / `parsed.data` is defined exactly on objects that have the key, and yields that key's value |
| JsonValues.Clone | state.js:15-17 | the deep copy rebuilt node by node is equal to the original value |
| DeepMerge.IndexKey | state.js:28 | the key of an array index is a non-empty string of decimal digits without a leading zero: one digit exactly for indices below 10, ending in the index's last digit |
| DeepMerge.IndexKeyDenotesIndex | state.js:28 | read as a decimal numeral, the key of index `i` denotes `i` |
| DeepMerge.IndexKeyInjective | state.js:28 | distinct array indices give distinct keys |
| DeepMerge.IndexFields | state.js:28 | an array seen by `Object.keys` maps every index's key to that element, and holds nothing but elements of the array |
| DeepMerge.IndexFieldsOnlyIndexKeys | state.js:28 | every key `Object.keys` reports for an array is a decimal numeral naming an index below the length, and is that index's own key |
| DeepMerge.SourceFields | state.js:27-28 | an object source contributes its own fields; a source that is neither object nor array contributes no key |
| DeepMerge.MergeFieldsFrame | state.js:28-37 | the merged keys are the target's plus the source's; each source key holds the merged value; every target key the source does not name keeps its value |
| DeepMerge.MergeFieldsStep | state.js:28-36 | handling one more source key changes the result at that key alone |
| DeepMerge.MergeFieldsNothing | state.js:27 | a source with no keys leaves the target as it is |
| DeepMerge.MergeInto | state.js:26-39 | the loop over the source's keys, recursing into plain-object values, yields exactly the merge the specification function defines |
| DeepMerge.MergeKeepsUntouched | state.js:28-37 | every path the source does not override reads the same before and after, sibling keys inside nested objects included |
| DeepMerge.MergeSourceWins | state.js:31-35 | a primitive, null or array at a path of the source is found at that path after the merge (wholesale replacement); an object there stays an object |
| DeepMerge.MergeAddsNothing | state.js:28-37 | every path of the result is a path of the source or of the target |
| DeepMerge.MergeIdempotent | state.js:26-39 | merging the same source a second time changes nothing |
| DeepMerge.MergeIntoEmpty | state.js:32-33 | a source merged into a fresh `{}` yields exactly the source |
| DeepMerge.MergeCovering | state.js:26-39 | a source that has every key of the target, nested keys included, replaces the target entirely |
| DeepMerge.MergeExample | state.js:31-35 | `{a:{x:1,y:2}, b:[1,2,3]}` merged with `{a:{x:9}, b:[7]}` gives `{a:{x:9,y:2}, b:[7]}` |
| DeepMerge.MergeArraySourceExample | state.js:27-28 | merging the array `["x"]` into `{level:3}` adds the key `"0"` |
| DeepMerge.MergeNonObjectSource | state.js:27 | a null, boolean, number or string source leaves the target unchanged |
| StateStore.SanitizeForSave | state.js:19-24 | the copy has no `charData` key and every other key of the input with the same value |
| StateStore.LoadRaw | state.js:41-51 | returns data exactly when the entry under `bulldogRealm_save_v2` parses to an object with `v` equal to 2 and a truthy `data`, and then returns that `data`; missing, empty, unparseable, falsy or wrong-version entries give null |
| StateStore.SaveThenLoad | state.js:56-61 | after a successful save, `loadRaw` returns exactly the sanitized state |
| StateStore.SavedPayloadHasNoDerivedField | state.js:56-61 | the payload loaded after a save never holds `charData` |
| StateStore.PersistTouchesOnlyItsKey | state.js:61 | a save changes no storage entry other than the one under the store's key |
| StateStore.LastWriteWins | state.js:61 | a successful save overwrites whatever an earlier save wrote |
| StateStore.HydrateWithoutSave | state.js:77-80 | without a trusted save, `init` yields a copy of the defaults |
| StateStore.VersionGate | state.js:46 | a stored save whose `v` is not 2 makes `init` yield the defaults |
| StateStore.CorruptSaveIgnored | state.js:43-49 | unparseable text under the key makes `init` yield the defaults, without failing |
| StateStore.SaveThenInit | state.js:75-80 | after a successful save, a fresh `init(D)` yields `D` merged with the sanitized state |
| StateStore.SaveThenInitRestoresState | state.js:56-80 | a state that still has every key of the template reloads equal to itself on every field except `charData`, which comes from the template |
| StateStore.DeletedTemplateKeyReturns | state.js:75-80 | a template key the saved state no longer has comes back from the template: template `{a:1, b:2}` with saved state `{a:5}` reloads as `{a:5, b:2}` |
| StateStore.Store.constructor | state.js:12-13 | before `init` there is no state and no pending save |
| StateStore.Store.Init | state.js:75-90 | installs and returns the defaults' copy merged with the loaded save; `getState` then gives that same state; storage and timer are untouched |
| StateStore.Store.GetState | state.js:92-94 | returns the live state, null before `init` |
| StateStore.Store.SaveNow | state.js:53-65 | does nothing before `init` or when the write throws; otherwise stores `{v: 2, ts: now, data: sanitized state}` under the key; never changes the state or the timer |
| StateStore.Store.SaveSoon | state.js:67-73 | at most one pending timer: the new timer replaces the pending one and has a different id; storage is not written |
| StateStore.Store.SaveSoonDefault | state.js:67 | `saveSoon()` without an argument schedules its timer with the default delay of 250 ms, replacing any pending one |
| StateStore.Store.FireTimer | state.js:69-72 | firing clears the slot and then performs exactly the save `saveNow` would |
| StateStore.SaveSoonBurst | state.js:67-73 | a burst of `saveSoon` calls followed by the surviving timer writes storage once, with the state at firing time, and leaves no timer pending |
| Game.Boost | app_new.js:152 | `Math.min(100, stat + 10)` never exceeds 100, never lowers a stat that was at most 100, is either the stat plus 10 or 100, and is exactly the stat plus 10 when that stays within 100 |
| Game.GainXp | app_new.js:177-183 | only xp and level change; the level goes up by one exactly when xp plus the amount reaches `level * 20`, and then xp is 0; otherwise xp grows by the amount |
| Game.ApplyAction | app_new.js:150-163 | feed, sleep and play restore hunger, energy and joy respectively and change nothing else; train is `addXp(5)`; other kinds change nothing; gold and the chosen character never change |
| Game.GameData.DoAction | app_new.js:149-163 | the record after `doAction` is the action rule applied to the record before |
| Game.GameData.AddXp | app_new.js:177-183 | the record after `addXp` is the experience rule applied to the record before |
| Game.ScreenFor | app_new.js:242-249 | the four known tabs show the screen named after the tab followed by `Screen`; every other tab shows `homeScreen` |
| Game.GainXpKeepsProgressValid | app.js:122-129 | with level at least 1, 0 <= xp < level*20 and a non-negative amount, the same holds after `addXp` |
| Game.GainXpOneLevelAtMost | app.js:126-129 | one call gains at most one level: 100 xp at level 1 gives level 2 with xp 0 |
| Game.ApplyActionKeepsInvariants | app.js:94-107 | every action keeps the progress bounds and hunger, energy and joy within 0..100 |
| Game.ApplyActionMonotone | app.js:94-103 | no action lowers the level, and no restored stat goes down from a value within range |
| Game.GameData.constructor | app.js:5-18 | without a store the record starts as the default data |
| Game.GameData.SelectChar | app.js:36-43 | on the path without a store, `selectChar(c)` sets the chosen character to `c` and changes nothing else |
| Game.GameData.StartGame | app.js:64-66 | the game starts exactly when the chosen character is neither null nor the empty string; the record is not changed |
| Game.FromJsonToJson | app_new.js:8-16 | the record's JSON object reads back as the same record |
| Game.ToJsonShape | app_new.js:8-16 | every saved record has all keys of the default record and no `charData`, so the sanitiser leaves it as it is |
| Game.GameSurvivesReload | app_new.js:18 | a record saved by `saveNow` comes back unchanged from a fresh `init(defaultGameData)` |

## Left out

- Rendering and navigation are not modelled. That covers `renderHome`, `showScreen`, the DOM and
  class-list parts of `switchTab`, `selectChar` and `startGame`, and the name and image lookup
  through the DOM and `CHAR_META`. They only drive the page.
- Event listeners are not modelled. `init` registers listeners for `pagehide`,
  `visibilitychange` and `beforeunload`, and each of them only calls `saveNow`, which the model
  has as `Store.SaveNow`. Calling `init` twice registers them twice; that is not modelled either.
  The game files register their own listeners. Their `pagehide` and `visibilitychange` listeners
  call `saveGame`, not `saveNow`. With `state.js` loaded, `saveGame` calls the missing
  `BRState.save` and throws; without it, `saveGame` writes the unversioned key described below.
  Their `load` listener calls `startGame` when a character is already chosen.
- Real timers are not modelled. The pending timer is a slot that records its delay. Elapsed time
  is not modelled, and firing is the explicit step `FireTimer`.
- `StateStore.Store.FireTimer` requires a pending timer, because a cancelled or absent timer
  never fires.
- The clock `Date.now()` is the integer parameter `now`.
- JSON text is not modelled. A stored entry is either the value its text parses to or text that
  does not parse. Serialisation and `_deepClone` are the identity on JSON values.
- Numbers are integers. Floating point, `NaN` and `-0` are not modelled. The game stores only
  integer counters.
- A storage read that throws (storage disabled) has no case of its own. Like unparseable text,
  it makes `loadRaw` return null.
- `DeepMerge.MergeInto` returns the merged fields as a new value. The source mutates the target
  object in place and returns it. Sharing between nested objects is therefore not captured. In
  the store the target is always a fresh deep copy.
- `DeepMerge.MergeInto` treats a key named `__proto__` like any other key. In JavaScript,
  assigning or merging into that key reaches the object's prototype instead.
- `StateStore.Store.Init` and `StateStore.Store.GetState` return the state as a value. In the
  source, callers receive the live object and change it in place. The round-trip lemmas hold for
  every state the callers may have produced.
- `Game.ScreenFor` treats every unknown tab the same way. In JavaScript, a tab named after a
  member of `Object.prototype` (such as `constructor`) finds an inherited non-string value
  instead of falling back to `homeScreen`.
- With `state.js` loaded, the game calls `BRState.setState` and `BRState.save`. `state.js` does
  not export either of them, so the model follows the path without a store. On the path with a
  store, `doAction` and `addXp` still change the same fields in the same way before they reach
  those calls.
- Game.GameData.SelectChar: models the path without a store. With `state.js` loaded, `selectChar`
  calls the missing `BRState.setState` first, which throws and leaves `selectedChar` unchanged.
  On that path `startGame` then proceeds only if a save already holds a character.
- The unversioned save `saveGame` writes under `bulldogRealm_save` is not modelled, because it
  is never read back.
- The stubs `enterDungeon` and `showWeaponInfo` are not modelled. Neither are the optional
  render hooks of `switchTab`, nor `performAction`, which only forwards to `doAction`.
- Arithmetic on values that are not numbers (for example a string `hunger`) is not modelled.
  Every field of the record is an integer.
