/**
 * The persistence store of state.js: one game-state object, hydrated from a default template
 * and a versioned save in local storage, saved immediately or after a debounce delay.
 *
 * Local storage is a map from keys to entries; an entry is the text stored under a key as
 * `JSON.parse` sees it. The clock (`Date.now()`) and the outcome of a storage write are
 * parameters of the operations that use them.
 */
module StateStore {

  import opened Options
  import opened JsonValues
  import opened DeepMerge

  /** The storage key of the versioned save. */
  const StorageKey: string := "bulldogRealm_save_v2"
  /** The only save format version `loadRaw` accepts. */
  const SaveVersion: int := 2
  /** The derived field that is recomputed on load and never persisted. */
  const DerivedKey: string := "charData"
  /** The debounce delay `saveSoon` uses when called without one. */
  const DefaultSaveDelayMs: int := 250

  /**
   * What `localStorage.getItem` returns for a key that is present: text that parses to `doc`,
   * or text `JSON.parse` rejects (the empty string included, which is also falsy).
   */
  datatype Entry = Text(doc: Json) | Garbage

  type Storage = map<string, Entry>

  /** `_sanitizeForSave`: a copy of the state without the derived field, every other key as it was. */
  function SanitizeForSave(state: map<string, Json>): (r: map<string, Json>)
    ensures DerivedKey !in r
    ensures r.Keys == state.Keys - {DerivedKey}
    ensures forall k :: k in r ==> r[k] == state[k]
  {
    var copy := CloneFields(state);
    copy - {DerivedKey}
  }

  /** The document `saveNow` writes: `{v: 2, ts: now, data: sanitized state}`. */
  function Envelope(now: int, state: map<string, Json>): Json
  {
    JObj(map["v" := JNum(SaveVersion), "ts" := JNum(now), "data" := JObj(SanitizeForSave(state))])
  }

  /** A parsed save that `loadRaw` trusts: an object whose `v` is the current version and whose `data` is truthy. */
  predicate IsCurrentSave(doc: Json)
  {
    && doc.JObj?
    && "v" in doc.fields && doc.fields["v"] == JNum(SaveVersion)
    && "data" in doc.fields && Truthy(doc.fields["data"])
  }

  /**
   * `loadRaw`: the `data` of the save under the storage key, or `None` (JavaScript `null`) when
   * the entry is missing, empty or unparseable, is falsy, has a `v` other than 2 or a falsy `data`.
   */
  function LoadRaw(storage: Storage): (r: Option<Json>)
    ensures r.Some? <==> StorageKey in storage && storage[StorageKey].Text? && IsCurrentSave(storage[StorageKey].doc)
    ensures r.Some? ==> r.value == storage[StorageKey].doc.fields["data"] && Truthy(r.value)
  {
    if StorageKey !in storage then None
    else
      match storage[StorageKey]
      case Garbage => None
      case Text(parsed) =>
        if !Truthy(parsed) || Member(parsed, "v") != Some(JNum(SaveVersion)) then None
        else
          match Member(parsed, "data")
          case None => None
          case Some(data) => if Truthy(data) then Some(data) else None
  }

  /**
   * The storage after `saveNow`: nothing happens before `init` (no state) or when the write
   * throws (quota exceeded, storage disabled); otherwise the envelope replaces the save.
   */
  function Persist(storage: Storage, state: Option<map<string, Json>>, now: int, writeFails: bool): Storage
  {
    if state.None? || writeFails then storage
    else storage[StorageKey := Text(Envelope(now, state.value))]
  }

  /** The state `init(defaults)` builds: a copy of the defaults, with the loaded save merged over it. */
  function Hydrate(defaults: map<string, Json>, storage: Storage): map<string, Json>
  {
    var base := CloneFields(defaults);
    var loaded := LoadRaw(storage);
    if loaded.Some? && Truthy(loaded.value) then Merge(base, loaded.value) else base
  }

  /** Save then load: `loadRaw` returns exactly the sanitized state that was written. */
  lemma SaveThenLoad(storage: Storage, state: map<string, Json>, now: int)
    ensures LoadRaw(Persist(storage, Some(state), now, false)) == Some(JObj(SanitizeForSave(state)))
  {
  }

  /** The derived field never reaches the payload that `loadRaw` returns after a save. */
  lemma SavedPayloadHasNoDerivedField(storage: Storage, state: map<string, Json>, now: int)
    ensures var loaded := LoadRaw(Persist(storage, Some(state), now, false));
      loaded.Some? && loaded.value.JObj? && DerivedKey !in loaded.value.fields
  {
    SaveThenLoad(storage, state, now);
  }

  /** A save only ever touches the storage key: other entries (the unversioned fallback save among them) stay. */
  lemma PersistTouchesOnlyItsKey(storage: Storage, state: Option<map<string, Json>>, now: int, writeFails: bool, k: string)
    requires k != StorageKey
    ensures k in Persist(storage, state, now, writeFails) <==> k in storage
    ensures k in storage ==> Persist(storage, state, now, writeFails)[k] == storage[k]
  {
  }

  /** Saves are whole-envelope overwrites: the last successful write wins. */
  lemma LastWriteWins(storage: Storage, first: Option<map<string, Json>>, t1: int, fails: bool,
                      second: map<string, Json>, t2: int)
    ensures Persist(Persist(storage, first, t1, fails), Some(second), t2, false)
         == Persist(storage, Some(second), t2, false)
  {
  }

  /** Without a trusted save (missing, corrupt, wrong version, falsy data) `init` yields a copy of the defaults. */
  lemma HydrateWithoutSave(defaults: map<string, Json>, storage: Storage)
    requires LoadRaw(storage).None?
    ensures Hydrate(defaults, storage) == defaults
  {
  }

  /** Version gate: a parsed save whose `v` is not 2 is ignored entirely. */
  lemma VersionGate(defaults: map<string, Json>, storage: Storage, doc: Json)
    requires StorageKey in storage && storage[StorageKey] == Text(doc)
    requires Member(doc, "v") != Some(JNum(SaveVersion))
    ensures Hydrate(defaults, storage) == defaults
  {
    HydrateWithoutSave(defaults, storage);
  }

  /** Corruption resilience: unparseable text under the key makes `init` fall back to the defaults. */
  lemma CorruptSaveIgnored(defaults: map<string, Json>, storage: Storage)
    requires StorageKey in storage && storage[StorageKey] == Garbage
    ensures Hydrate(defaults, storage) == defaults
  {
    HydrateWithoutSave(defaults, storage);
  }

  /** Round trip: after a successful save, a fresh `init(defaults)` merges the sanitized state over the defaults. */
  lemma SaveThenInit(defaults: map<string, Json>, storage: Storage, state: map<string, Json>, now: int)
    ensures Hydrate(defaults, Persist(storage, Some(state), now, false)) == Merge(defaults, JObj(SanitizeForSave(state)))
  {
    SaveThenLoad(storage, state, now);
  }

  /**
   * Round trip for a state grown from the defaults (it still has every key of the template,
   * nested ones included): reloading gives back the state on every field except the derived
   * one, which keeps whatever the defaults hold for it.
   */
  lemma {:induction false} SaveThenInitRestoresState(defaults: map<string, Json>, storage: Storage,
                                                     state: map<string, Json>, now: int)
    requires Covers(state, defaults)
    ensures var reloaded := Hydrate(defaults, Persist(storage, Some(state), now, false));
      && reloaded - {DerivedKey} == SanitizeForSave(state)
      && (DerivedKey in reloaded <==> DerivedKey in defaults)
      && (DerivedKey in defaults ==> reloaded[DerivedKey] == defaults[DerivedKey])
  {
    var saved := SanitizeForSave(state);
    SaveThenInit(defaults, storage, state, now);
    var reloaded := MergeFields(defaults, saved);
    MergeFieldsFrame(defaults, saved);
    forall k | k in saved
      ensures reloaded[k] == saved[k]
    {
      if saved[k].JObj? {
        if k in defaults && defaults[k].JObj? {
          MergeCovering(defaults[k].fields, saved[k].fields);
        } else {
          MergeIntoEmpty(saved[k].fields);
        }
      }
    }
    assert (reloaded - {DerivedKey}).Keys == saved.Keys;
  }

  /**
   * The round trip needs the state to keep the template's keys: a template key the state no
   * longer has comes back from the template. Template `{a:1, b:2}` with saved state `{a:5}`
   * reloads as `{a:5, b:2}`.
   */
  lemma DeletedTemplateKeyReturns(storage: Storage, now: int)
    ensures Hydrate(map["a" := JNum(1), "b" := JNum(2)], Persist(storage, Some(map["a" := JNum(5)]), now, false))
         == map["a" := JNum(5), "b" := JNum(2)]
  {
    var defaults, state := map["a" := JNum(1), "b" := JNum(2)], map["a" := JNum(5)];
    SaveThenInit(defaults, storage, state, now);
    assert SanitizeForSave(state) == state;
    MergeFieldsFrame(defaults, state);
  }

  /** A pending debounce timer: its id and the delay it was scheduled with. */
  datatype Timer = Timer(id: nat, delayMs: int)

  /** The module-level variables of state.js together with the storage they persist to. */
  class Store {
    /** `_state`: `None` until `init` runs. */
    var state: Option<map<string, Json>>
    /** `_saveTimer`: at most one pending debounced save. */
    var saveTimer: Option<Timer>
    /** The id the environment gives the next timer it creates. */
    var nextTimerId: nat
    /** `localStorage`. */
    var storage: Storage

    /** Every timer id was handed out before: a new timer never has the id of the pending one. */
    ghost predicate Valid()
      reads this
    {
      saveTimer.Some? ==> saveTimer.value.id < nextTimerId
    }

    /** Loading the script: no state, no pending save, whatever the storage already holds. */
    constructor (storage: Storage)
      ensures Valid()
      ensures state == None && saveTimer == None && this.storage == storage
    {
      state := None;
      saveTimer := None;
      nextTimerId := 1;
      this.storage := storage;
    }

    /** `init(defaults)`: installs and returns the hydrated state; storage and timer are untouched. */
    method Init(defaults: map<string, Json>) returns (s: map<string, Json>)
      requires Valid()
      modifies this`state
      ensures Valid()
      ensures s == Hydrate(defaults, storage)
      ensures state == Some(s)
    {
      s := CloneFields(defaults);
      var loaded := LoadRaw(storage);
      if loaded.Some? && Truthy(loaded.value) {
        s := MergeInto(s, loaded.value);
      }
      state := Some(s);
    }

    /** `getState`: the live state, `None` before `init`. */
    method GetState() returns (s: Option<map<string, Json>>)
      ensures s == state
    {
      s := state;
    }

    /**
     * `saveNow`: writes the envelope of the current state under the storage key, unless there
     * is no state yet or the write throws; the state and the pending timer never change.
     */
    method SaveNow(now: int, writeFails: bool)
      requires Valid()
      modifies this`storage
      ensures Valid()
      ensures storage == Persist(old(storage), state, now, writeFails)
      ensures state == old(state) && saveTimer == old(saveTimer)
    {
      if state.None? {
        return;
      }
      if !writeFails {
        storage := storage[StorageKey := Text(Envelope(now, state.value))];
      }
    }

    /** `saveSoon(delayMs)`: cancels the pending timer, if any, and schedules a new one; nothing is written. */
    method SaveSoon(delayMs: int)
      requires Valid()
      modifies this`saveTimer, this`nextTimerId
      ensures Valid()
      ensures saveTimer == Some(Timer(old(nextTimerId), delayMs))
      ensures old(saveTimer).Some? ==> saveTimer.value.id != old(saveTimer).value.id
      ensures nextTimerId == old(nextTimerId) + 1
    {
      if saveTimer.Some? {
        saveTimer := None;
      }
      saveTimer := Some(Timer(nextTimerId, delayMs));
      nextTimerId := nextTimerId + 1;
    }

    /** `saveSoon()` without an argument: the default delay of 250 ms. */
    method SaveSoonDefault()
      requires Valid()
      modifies this`saveTimer, this`nextTimerId
      ensures Valid()
      ensures saveTimer == Some(Timer(old(nextTimerId), DefaultSaveDelayMs))
      ensures old(saveTimer).Some? ==> saveTimer.value.id != old(saveTimer).value.id
      ensures nextTimerId == old(nextTimerId) + 1
    {
      SaveSoon(DefaultSaveDelayMs);
    }

    /** The pending timer fires: the slot is cleared first, then `saveNow` runs. */
    method FireTimer(now: int, writeFails: bool)
      requires Valid() && saveTimer.Some?
      modifies this`saveTimer, this`storage
      ensures Valid()
      ensures saveTimer == None
      ensures storage == Persist(old(storage), state, now, writeFails)
      ensures state == old(state)
    {
      saveTimer := None;
      SaveNow(now, writeFails);
    }
  }

  /**
   * Debounce coalescing: a burst of `saveSoon` calls followed by the one timer that survives
   * writes the storage exactly once, with the state as it is when the timer fires.
   */
  method SaveSoonBurst(store: Store, delays: seq<int>, now: int, writeFails: bool)
    requires store.Valid() && |delays| > 0
    modifies store
    ensures store.Valid()
    ensures store.saveTimer == None
    ensures store.state == old(store.state)
    ensures store.storage == Persist(old(store.storage), old(store.state), now, writeFails)
  {
    var i := 0;
    while i < |delays|
      invariant 0 <= i <= |delays|
      invariant store.Valid()
      invariant i > 0 ==> store.saveTimer.Some?
      invariant store.storage == old(store.storage) && store.state == old(store.state)
    {
      store.SaveSoon(delays[i]);
      i := i + 1;
    }
    store.FireTimer(now, writeFails);
  }
}
