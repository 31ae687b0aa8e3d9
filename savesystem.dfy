/** The save record of src/core/SaveSystem.js: loading over defaults,
    adding score, and the stat-upgrade economy. The browser's local
    storage is the `store` field of the class; what it holds is either
    nothing, text that does not parse, or the fields a parse recovered. */
module SaveSystem {
  import opened Geometry

  /** One car's stat levels, keyed by stat name. */
  type Stats = map<string, int>

  datatype SaveData = SaveData(
    totalScore: real,
    currentLevel: int,
    selectedCarId: string,
    selectedPandaId: string,
    unlockedCars: seq<string>,
    carStats: map<string, Stats>)

  /** The top-level fields a parsed save record carries; absent ones are None. */
  datatype PartialSave = PartialSave(
    totalScore: Option<real>,
    currentLevel: Option<int>,
    selectedCarId: Option<string>,
    selectedPandaId: Option<string>,
    unlockedCars: Option<seq<string>>,
    carStats: Option<map<string, Stats>>)

  /** What the store holds under the save key. */
  datatype Stored = Absent | Unparsable | Parsed(fields: PartialSave)

  const UpgradeUnit: int := 500
  const MaxStatLevel: int := 10
  const DefaultStats: Stats := map["speed" := 1, "accel" := 1, "nitro" := 1, "handling" := 1]

  const Default: SaveData := SaveData(0.0, 1, "car_0", "panda_0", ["car_0"], map["car_0" := DefaultStats])

  function Pick<T>(o: Option<T>, d: T): (r: T)
    ensures o.None? ==> r == d
    ensures o.Some? ==> r == o.value
  {
    match o
    case None => d
    case Some(v) => v
  }

  /** load(): the defaults when nothing (or nothing parsable) is stored,
      otherwise the defaults with every stored top-level field winning. */
  function Load(st: Stored): (d: SaveData)
    ensures !st.Parsed? ==> d == Default
    ensures st.Parsed? ==> d.totalScore == Pick(st.fields.totalScore, Default.totalScore)
    ensures st.Parsed? ==> d.currentLevel == Pick(st.fields.currentLevel, Default.currentLevel)
    ensures st.Parsed? ==> d.selectedCarId == Pick(st.fields.selectedCarId, Default.selectedCarId)
    ensures st.Parsed? ==> d.selectedPandaId == Pick(st.fields.selectedPandaId, Default.selectedPandaId)
    ensures st.Parsed? ==> d.unlockedCars == Pick(st.fields.unlockedCars, Default.unlockedCars)
    ensures st.Parsed? ==> d.carStats == Pick(st.fields.carStats, Default.carStats)
  {
    match st
    case Absent => Default
    case Unparsable => Default
    case Parsed(p) =>
      SaveData(
        Pick(p.totalScore, Default.totalScore),
        Pick(p.currentLevel, Default.currentLevel),
        Pick(p.selectedCarId, Default.selectedCarId),
        Pick(p.selectedPandaId, Default.selectedPandaId),
        Pick(p.unlockedCars, Default.unlockedCars),
        Pick(p.carStats, Default.carStats))
  }

  /** save(data): every field is written. */
  function Full(d: SaveData): (p: PartialSave)
    ensures p.totalScore.Some? && p.currentLevel.Some? && p.selectedCarId.Some?
    ensures p.selectedPandaId.Some? && p.unlockedCars.Some? && p.carStats.Some?
  {
    PartialSave(Some(d.totalScore), Some(d.currentLevel), Some(d.selectedCarId),
                Some(d.selectedPandaId), Some(d.unlockedCars), Some(d.carStats))
  }

  /** Loading what was saved gives it back. */
  lemma LoadSaved(d: SaveData)
    ensures Load(Parsed(Full(d))) == d
  {
  }

  /** A record with no known fields loads as the defaults. */
  lemma LoadEmptyRecord()
    ensures Load(Parsed(PartialSave(None, None, None, None, None, None))) == Default
  {
  }

  /** The stats upgradeStat works on: the car's own, or fresh level-1 stats. */
  function StatsOf(d: SaveData, carId: string): (s: Stats)
    ensures carId in d.carStats ==> s == d.carStats[carId]
    ensures carId !in d.carStats ==> s == DefaultStats
  {
    if carId in d.carStats then d.carStats[carId] else DefaultStats
  }

  /** getUpgradeCost(carId, statName): 500 per level; an unknown car counts
      as level 1; a known car without that stat has no number (NaN), None. */
  function UpgradeCost(d: SaveData, carId: string, stat: string): (c: Option<int>)
    ensures carId !in d.carStats ==> c == Some(UpgradeUnit)
    ensures carId in d.carStats ==> (c.Some? <==> stat in d.carStats[carId])
    ensures c.Some? && carId in d.carStats ==> c.value == d.carStats[carId][stat] * UpgradeUnit
  {
    if carId in d.carStats then
      if stat in d.carStats[carId] then Some(d.carStats[carId][stat] * UpgradeUnit) else None
    else Some(1 * UpgradeUnit)
  }

  /** upgradeStat(carId, statName) on the loaded record: None when it
      returns false, otherwise the record it saves. */
  function TryUpgrade(d: SaveData, carId: string, stat: string): (r: Option<SaveData>)
    ensures r.Some? <==>
      stat in StatsOf(d, carId) &&
      d.totalScore >= (StatsOf(d, carId)[stat] * UpgradeUnit) as real &&
      StatsOf(d, carId)[stat] < MaxStatLevel
    ensures r.Some? ==>
      var level := StatsOf(d, carId)[stat];
      && r.value.totalScore == d.totalScore - (level * UpgradeUnit) as real
      && carId in r.value.carStats && stat in r.value.carStats[carId]
      && r.value.carStats[carId][stat] == level + 1
      && r.value.carStats.Keys == d.carStats.Keys + {carId}
      && r.value.(totalScore := d.totalScore, carStats := d.carStats) == d
  {
    var stats := StatsOf(d, carId);
    if stat !in stats then None
    else
      var level := stats[stat];
      var cost := level * UpgradeUnit;
      if d.totalScore >= cost as real && level < MaxStatLevel then
        Some(d.(totalScore := d.totalScore - cost as real,
                carStats := d.carStats[carId := stats[stat := level + 1]]))
      else None
  }

  /** The quoted cost is the cost charged, for every known car and, for an
      unknown car, every stat its fresh entry has. */
  lemma QuotedCostIsCharged(d: SaveData, carId: string, stat: string)
    requires carId in d.carStats || stat in DefaultStats
    ensures UpgradeCost(d, carId, stat).Some? <==> stat in StatsOf(d, carId)
    ensures UpgradeCost(d, carId, stat).Some? ==>
      UpgradeCost(d, carId, stat).value == StatsOf(d, carId)[stat] * UpgradeUnit
  {
  }

  /** An upgrade changes that one stat and no other. */
  lemma UpgradeTouchesOneStat(d: SaveData, carId: string, stat: string, otherCar: string, otherStat: string)
    requires TryUpgrade(d, carId, stat).Some?
    requires otherCar in d.carStats && otherStat in d.carStats[otherCar]
    requires otherCar != carId || otherStat != stat
    ensures otherCar in TryUpgrade(d, carId, stat).value.carStats
    ensures otherStat in TryUpgrade(d, carId, stat).value.carStats[otherCar]
    ensures TryUpgrade(d, carId, stat).value.carStats[otherCar][otherStat] == d.carStats[otherCar][otherStat]
  {
  }

  /** The record's sanity: a non-negative score and no stat above 10. */
  predicate Sane(d: SaveData)
  {
    && d.totalScore >= 0.0
    && forall car, stat :: car in d.carStats && stat in d.carStats[car] ==> d.carStats[car][stat] <= MaxStatLevel
  }

  lemma DefaultSane()
    ensures Sane(Default)
  {
  }

  /** Upgrades keep the record sane. */
  lemma UpgradeKeepsSane(d: SaveData, carId: string, stat: string)
    requires Sane(d)
    ensures TryUpgrade(d, carId, stat).Some? ==> Sane(TryUpgrade(d, carId, stat).value)
  {
    var r := TryUpgrade(d, carId, stat);
    if r.Some? {
      forall car, s | car in r.value.carStats && s in r.value.carStats[car]
        ensures r.value.carStats[car][s] <= MaxStatLevel
      {
        if car != carId {
          assert r.value.carStats[car] == d.carStats[car];
        } else if s != stat {
          assert r.value.carStats[car][s] == StatsOf(d, carId)[s];
        }
      }
    }
  }

  /** Stat levels only rise, one at a time, and never past 10. */
  lemma UpgradeCapped(d: SaveData, carId: string, stat: string)
    requires stat in StatsOf(d, carId) && StatsOf(d, carId)[stat] >= MaxStatLevel
    ensures TryUpgrade(d, carId, stat).None?
  {
  }

  /** addScore(amount) on the loaded record. */
  function WithScore(d: SaveData, amount: real): (r: SaveData)
    ensures r.totalScore == d.totalScore + amount
    ensures r.(totalScore := d.totalScore) == d
  {
    d.(totalScore := d.totalScore + amount)
  }

  lemma AddScoreKeepsSane(d: SaveData, amount: real)
    requires Sane(d) && amount >= 0.0
    ensures Sane(WithScore(d, amount))
  {
  }

  /** The storage the static SaveSystem works against. */
  class SaveSystem {
    var store: Stored

    constructor(store: Stored)
      ensures this.store == store
    {
      this.store := store;
    }

    function Current(): (d: SaveData)
      reads this
      ensures !store.Parsed? ==> d == Default
    {
      Load(store)
    }

    method Save(data: SaveData)
      modifies this
      ensures store == Parsed(Full(data)) && Current() == data
    {
      store := Parsed(Full(data));
      LoadSaved(data);
    }

    method AddScore(amount: real)
      modifies this
      ensures Current() == WithScore(old(Current()), amount)
      ensures store.Parsed?
    {
      var data := Load(store);
      data := data.(totalScore := data.totalScore + amount);
      Save(data);
    }

    /** upgradeStat: on failure nothing is written, not even the fresh
        entry for an unknown car. */
    method UpgradeStat(carId: string, stat: string) returns (ok: bool)
      modifies this
      ensures ok <==> TryUpgrade(old(Current()), carId, stat).Some?
      ensures ok ==> Current() == TryUpgrade(old(Current()), carId, stat).value && store.Parsed?
      ensures !ok ==> store == old(store)
    {
      var data := Load(store);
      if carId !in data.carStats {
        data := data.(carStats := data.carStats[carId := DefaultStats]);
      }
      if stat !in data.carStats[carId] {
        return false;
      }
      var currentLevel := data.carStats[carId][stat];
      var cost := currentLevel * UpgradeUnit;
      if data.totalScore >= cost as real && currentLevel < MaxStatLevel {
        data := data.(totalScore := data.totalScore - cost as real,
                      carStats := data.carStats[carId := data.carStats[carId][stat := currentLevel + 1]]);
        Save(data);
        return true;
      }
      return false;
    }

    function GetUpgradeCost(carId: string, stat: string): (c: Option<int>)
      reads this
      ensures carId !in Current().carStats ==> c == Some(UpgradeUnit)
    {
      UpgradeCost(Load(store), carId, stat)
    }
  }
}
