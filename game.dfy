/**
 * The game rules of app_new.js (and of app.js, which has the same `doAction`, `addXp`,
 * `selectChar` and `startGame` state logic): the `gameData` record, the four actions,
 * experience and levels, and the tab-to-screen lookup. The record is what the store persists.
 */
module Game {

  import opened Options
  import opened JsonValues
  import opened DeepMerge
  import opened StateStore

  /** Upper bound of hunger, energy and joy. */
  const StatCap: int := 100
  /** How much feed, sleep and play restore. */
  const ActionBoost: int := 10
  /** Experience a training session gives. */
  const TrainXp: int := 5
  /** Experience needed per level: level `n` needs `n * 20`. */
  const XpPerLevel: int := 20

  /** `gameData`: the chosen character (`null` until one is picked), progress and the three depletable stats. */
  datatype Stats = Stats(
    selectedChar: Option<string>,
    level: int,
    xp: int,
    gold: int,
    hunger: int,
    energy: int,
    joy: int)

  /** `defaultGameData`. */
  const DefaultStats: Stats := Stats(None, 1, 0, 0, 100, 100, 100)

  /** Experience below the next level-up and a level of at least 1. */
  predicate ProgressValid(g: Stats)
  {
    1 <= g.level && 0 <= g.xp < g.level * XpPerLevel
  }

  /** Hunger, energy and joy within 0..100. */
  predicate StatsInRange(g: Stats)
  {
    0 <= g.hunger <= StatCap && 0 <= g.energy <= StatCap && 0 <= g.joy <= StatCap
  }

  /** `Math.min(100, stat + 10)`: ten more, never above the cap, never below a value that was within it. */
  function Boost(stat: int): (r: int)
    ensures r <= StatCap
    ensures stat <= StatCap ==> stat <= r
    ensures r == stat + ActionBoost || r == StatCap
    ensures stat + ActionBoost <= StatCap ==> r == stat + ActionBoost
  {
    if StatCap <= stat + ActionBoost then StatCap else stat + ActionBoost
  }

  /**
   * `addXp(amount)`: adds the experience; on reaching `level * 20` the experience is reset to 0
   * and the level goes up by exactly one (overflow experience is lost). Nothing else changes.
   */
  function GainXp(g: Stats, amount: int): (r: Stats)
    ensures r.(level := g.level, xp := g.xp) == g
    ensures r.level == g.level + 1 <==> g.xp + amount >= g.level * XpPerLevel
    ensures r.level == g.level || r.level == g.level + 1
    ensures r.level == g.level + 1 ==> r.xp == 0
    ensures r.level == g.level ==> r.xp == g.xp + amount
  {
    var xp := g.xp + amount;
    if xp >= g.level * XpPerLevel then g.(xp := 0, level := g.level + 1) else g.(xp := xp)
  }

  /**
   * `doAction(kind)`: feed, sleep and play raise hunger, energy and joy respectively and touch
   * nothing else; train is `addXp(5)`; any other kind changes nothing. No action touches gold
   * or the chosen character.
   */
  function ApplyAction(g: Stats, kind: string): (r: Stats)
    ensures r.gold == g.gold && r.selectedChar == g.selectedChar
    ensures kind == "feed" ==> r.(hunger := g.hunger) == g && r.hunger == Boost(g.hunger)
    ensures kind == "sleep" ==> r.(energy := g.energy) == g && r.energy == Boost(g.energy)
    ensures kind == "play" ==> r.(joy := g.joy) == g && r.joy == Boost(g.joy)
    ensures kind == "train" ==> r == GainXp(g, TrainXp)
    ensures kind !in {"feed", "sleep", "play", "train"} ==> r == g
  {
    if kind == "feed" then g.(hunger := Boost(g.hunger))
    else if kind == "sleep" then g.(energy := Boost(g.energy))
    else if kind == "play" then g.(joy := Boost(g.joy))
    else if kind == "train" then GainXp(g, TrainXp)
    else g
  }

  /** With a non-negative amount the level stays at least 1 and the experience stays below the next level-up. */
  lemma GainXpKeepsProgressValid(g: Stats, amount: int)
    requires ProgressValid(g) && amount >= 0
    ensures ProgressValid(GainXp(g, amount))
  {
  }

  /** At most one level per call: a large amount still gives one level and discards the rest. */
  lemma GainXpOneLevelAtMost()
    ensures GainXp(DefaultStats, 100) == DefaultStats.(level := 2, xp := 0)
  {
  }

  /** Every action keeps both invariants of the record. */
  lemma ApplyActionKeepsInvariants(g: Stats, kind: string)
    requires ProgressValid(g) && StatsInRange(g)
    ensures ProgressValid(ApplyAction(g, kind)) && StatsInRange(ApplyAction(g, kind))
  {
    if kind == "train" {
      GainXpKeepsProgressValid(g, TrainXp);
    }
  }

  /** No action lowers the level, and the restored stats never go down from a value within range. */
  lemma ApplyActionMonotone(g: Stats, kind: string)
    requires StatsInRange(g)
    ensures var r := ApplyAction(g, kind);
      r.level >= g.level && r.hunger >= g.hunger && r.energy >= g.energy && r.joy >= g.joy
  {
  }

  /** The `gameData` object the page holds, updated in place by the action handlers. */
  class GameData {
    var selectedChar: Option<string>
    var level: int
    var xp: int
    var gold: int
    var hunger: int
    var energy: int
    var joy: int

    /** The record's current value. */
    function Snapshot(): Stats
      reads this
    {
      Stats(selectedChar, level, xp, gold, hunger, energy, joy)
    }

    /** `structuredClone(defaultGameData)`: the record when no store is present. */
    constructor ()
      ensures Snapshot() == DefaultStats
    {
      selectedChar, level, xp, gold := None, 1, 0, 0;
      hunger, energy, joy := 100, 100, 100;
    }

    /** `doAction(kind)` on the path without a store. */
    method DoAction(kind: string)
      modifies this
      ensures Snapshot() == ApplyAction(old(Snapshot()), kind)
    {
      if kind == "feed" {
        hunger := Boost(hunger);
      } else if kind == "sleep" {
        energy := Boost(energy);
      } else if kind == "play" {
        joy := Boost(joy);
      } else if kind == "train" {
        AddXp(TrainXp);
      }
    }

    /** `addXp(amount)` on the path without a store. */
    method AddXp(amount: int)
      modifies this
      ensures Snapshot() == GainXp(old(Snapshot()), amount)
    {
      xp := xp + amount;
      if xp >= level * XpPerLevel {
        xp := 0;
        level := level + 1;
      }
    }

    /** `selectChar(c)` on the path without a store: records the choice and changes nothing else. */
    method SelectChar(c: string)
      modifies this
      ensures Snapshot() == old(Snapshot()).(selectedChar := Some(c))
    {
      selectedChar := Some(c);
    }

    /** `startGame`: proceeds only when a character is chosen (`null` and `""` are falsy); the record is not changed. */
    method StartGame() returns (started: bool)
      ensures started <==> selectedChar.Some? && selectedChar.value != ""
    {
      if selectedChar.None? || selectedChar.value == "" {
        return false;
      }
      started := true;
    }
  }

  /** The screens the bottom navigation switches between. */
  const TabScreens: map<string, string> := map[
    "home" := "homeScreen",
    "dungeon" := "dungeonScreen",
    "inventory" := "inventoryScreen",
    "collection" := "collectionScreen"]

  /** `switchTab`'s lookup `map[tab] || 'homeScreen'`: a known tab's screen is the tab's name plus "Screen"; any other tab shows home. */
  function ScreenFor(tab: string): (id: string)
    ensures tab in {"home", "dungeon", "inventory", "collection"} ==> id == tab + "Screen"
    ensures tab !in {"home", "dungeon", "inventory", "collection"} ==> id == "homeScreen"
  {
    if tab in TabScreens then TabScreens[tab] else "homeScreen"
  }

  /** The record as the JSON object the store holds. */
  function ToJson(g: Stats): map<string, Json>
  {
    map[
      "selectedChar" := (if g.selectedChar.Some? then JStr(g.selectedChar.value) else JNull),
      "level" := JNum(g.level),
      "xp" := JNum(g.xp),
      "gold" := JNum(g.gold),
      "hunger" := JNum(g.hunger),
      "energy" := JNum(g.energy),
      "joy" := JNum(g.joy)]
  }

  /** Reads a number field; `None` when it is missing or not a number. */
  function NumberAt(m: map<string, Json>, key: string): Option<int>
  {
    if key in m && m[key].JNum? then Some(m[key].n) else None
  }

  /** Reads the record back from a JSON object; `None` when a field is missing or of the wrong kind. */
  function FromJson(m: map<string, Json>): Option<Stats>
  {
    if "selectedChar" !in m || !(m["selectedChar"].JNull? || m["selectedChar"].JStr?) then None
    else
      var choice := if m["selectedChar"].JStr? then Some(m["selectedChar"].s) else None;
      var level, xp, gold := NumberAt(m, "level"), NumberAt(m, "xp"), NumberAt(m, "gold");
      var hunger, energy, joy := NumberAt(m, "hunger"), NumberAt(m, "energy"), NumberAt(m, "joy");
      if level.None? || xp.None? || gold.None? || hunger.None? || energy.None? || joy.None? then None
      else Some(Stats(choice, level.value, xp.value, gold.value, hunger.value, energy.value, joy.value))
  }

  /** Reading the JSON form back gives the record. */
  lemma FromJsonToJson(g: Stats)
    ensures FromJson(ToJson(g)) == Some(g)
  {
  }

  /** The record's JSON object has every key of the default record's and no derived field. */
  lemma ToJsonShape(g: Stats)
    ensures Covers(ToJson(g), ToJson(DefaultStats))
    ensures SanitizeForSave(ToJson(g)) == ToJson(g)
  {
    assert ToJson(g).Keys == ToJson(DefaultStats).Keys;
  }

  /**
   * The game's round trip through the store: a record saved by `saveNow` comes back unchanged
   * from a fresh `init(defaultGameData)`.
   */
  lemma {:induction false} GameSurvivesReload(g: Stats, storage: Storage, now: int)
    ensures FromJson(Hydrate(ToJson(DefaultStats), Persist(storage, Some(ToJson(g)), now, false))) == Some(g)
  {
    var saved, defaults := ToJson(g), ToJson(DefaultStats);
    ToJsonShape(g);
    SaveThenInitRestoresState(defaults, storage, saved, now);
    var reloaded := Hydrate(defaults, Persist(storage, Some(saved), now, false));
    assert reloaded == reloaded - {DerivedKey};
    FromJsonToJson(g);
  }
}
