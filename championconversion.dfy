/** Conversion of vendor champion records, the stat-shard table, and the
    validation and default filling of engine stat objects. */
module ChampionConversion {
  import opened Wrappers
  import opened GameData

  // ---- Champions ----

  /** The vendor's champion stat object; a field it lacks is `None`. */
  datatype RiotChampionStats = RiotChampionStats(
    hp: Option<real>,
    hpperlevel: Option<real>,
    mp: Option<real>,
    mpperlevel: Option<real>,
    movespeed: Option<real>,
    armor: Option<real>,
    armorperlevel: Option<real>,
    spellblock: Option<real>,
    spellblockperlevel: Option<real>,
    attackrange: Option<real>,
    hpregen: Option<real>,
    hpregenperlevel: Option<real>,
    mpregen: Option<real>,
    mpregenperlevel: Option<real>,
    crit: Option<real>,
    critperlevel: Option<real>,
    attackdamage: Option<real>,
    attackdamageperlevel: Option<real>,
    attackspeed: Option<real>,
    attackspeedperlevel: Option<real>)

  /** `convertChampionStats`: the twenty base stats, each read from its
      vendor key. */
  function ConvertChampionStats(riotStats: RiotChampionStats): ChampionStats {
    ChampionStats(
      health := NumberOr(riotStats.hp, 0.0),
      healthPerLevel := NumberOr(riotStats.hpperlevel, 0.0),
      mana := NumberOr(riotStats.mp, 0.0),
      manaPerLevel := NumberOr(riotStats.mpperlevel, 0.0),
      movementSpeed := NumberOr(riotStats.movespeed, 0.0),
      armor := NumberOr(riotStats.armor, 0.0),
      armorPerLevel := NumberOr(riotStats.armorperlevel, 0.0),
      magicResist := NumberOr(riotStats.spellblock, 0.0),
      magicResistPerLevel := NumberOr(riotStats.spellblockperlevel, 0.0),
      attackRange := NumberOr(riotStats.attackrange, 0.0),
      healthRegen := NumberOr(riotStats.hpregen, 0.0),
      healthRegenPerLevel := NumberOr(riotStats.hpregenperlevel, 0.0),
      manaRegen := NumberOr(riotStats.mpregen, 0.0),
      manaRegenPerLevel := NumberOr(riotStats.mpregenperlevel, 0.0),
      critChance := NumberOr(riotStats.crit, 0.0),
      critChancePerLevel := NumberOr(riotStats.critperlevel, 0.0),
      attackDamage := NumberOr(riotStats.attackdamage, 0.0),
      attackDamagePerLevel := NumberOr(riotStats.attackdamageperlevel, 0.0),
      attackSpeed := NumberOr(riotStats.attackspeed, 0.625),
      attackSpeedPerLevel := NumberOr(riotStats.attackspeedperlevel, 0.0))
  }

  /** The vendor stat object that describes `cs`. */
  function RiotStatsOf(cs: ChampionStats): RiotChampionStats {
    RiotChampionStats(
      hp := Some(cs.health),
      hpperlevel := Some(cs.healthPerLevel),
      mp := Some(cs.mana),
      mpperlevel := Some(cs.manaPerLevel),
      movespeed := Some(cs.movementSpeed),
      armor := Some(cs.armor),
      armorperlevel := Some(cs.armorPerLevel),
      spellblock := Some(cs.magicResist),
      spellblockperlevel := Some(cs.magicResistPerLevel),
      attackrange := Some(cs.attackRange),
      hpregen := Some(cs.healthRegen),
      hpregenperlevel := Some(cs.healthRegenPerLevel),
      mpregen := Some(cs.manaRegen),
      mpregenperlevel := Some(cs.manaRegenPerLevel),
      crit := Some(cs.critChance),
      critperlevel := Some(cs.critChancePerLevel),
      attackdamage := Some(cs.attackDamage),
      attackdamageperlevel := Some(cs.attackDamagePerLevel),
      attackspeed := Some(cs.attackSpeed),
      attackspeedperlevel := Some(cs.attackSpeedPerLevel))
  }

  /** Every field is read from its own vendor key: converting the vendor
      form of any stats with a nonzero attack speed gives them back. */
  lemma ChampionStatsRoundTrip(cs: ChampionStats)
    requires cs.attackSpeed != 0.0
    ensures ConvertChampionStats(RiotStatsOf(cs)) == cs
  {
  }

  /** Each field is its vendor value, where a missing value and 0 both
      give 0; only the attack speed has another default: a missing or zero
      attack speed becomes 0.625, so the attack speed is never 0. */
  lemma ChampionStatsDefaults(riotStats: RiotChampionStats)
    ensures var cs := ConvertChampionStats(riotStats);
      cs.health == riotStats.hp.GetOr(0.0)
      && cs.healthPerLevel == riotStats.hpperlevel.GetOr(0.0)
      && cs.mana == riotStats.mp.GetOr(0.0)
      && cs.manaPerLevel == riotStats.mpperlevel.GetOr(0.0)
      && cs.movementSpeed == riotStats.movespeed.GetOr(0.0)
      && cs.armor == riotStats.armor.GetOr(0.0)
      && cs.armorPerLevel == riotStats.armorperlevel.GetOr(0.0)
      && cs.magicResist == riotStats.spellblock.GetOr(0.0)
      && cs.magicResistPerLevel == riotStats.spellblockperlevel.GetOr(0.0)
      && cs.attackRange == riotStats.attackrange.GetOr(0.0)
      && cs.healthRegen == riotStats.hpregen.GetOr(0.0)
      && cs.healthRegenPerLevel == riotStats.hpregenperlevel.GetOr(0.0)
      && cs.manaRegen == riotStats.mpregen.GetOr(0.0)
      && cs.manaRegenPerLevel == riotStats.mpregenperlevel.GetOr(0.0)
      && cs.critChance == riotStats.crit.GetOr(0.0)
      && cs.critChancePerLevel == riotStats.critperlevel.GetOr(0.0)
      && cs.attackDamage == riotStats.attackdamage.GetOr(0.0)
      && cs.attackDamagePerLevel == riotStats.attackdamageperlevel.GetOr(0.0)
      && cs.attackSpeedPerLevel == riotStats.attackspeedperlevel.GetOr(0.0)
    ensures riotStats.attackspeed.None? || riotStats.attackspeed == Some(0.0) ==>
      ConvertChampionStats(riotStats).attackSpeed == 0.625
    ensures riotStats.attackspeed.Some? && riotStats.attackspeed.value != 0.0 ==>
      ConvertChampionStats(riotStats).attackSpeed == riotStats.attackspeed.value
    ensures ConvertChampionStats(riotStats).attackSpeed != 0.0
  {
  }

  datatype RiotChampion = RiotChampion(
    id: Option<string>, key: Option<string>, name: Option<string>, title: Option<string>,
    tags: Option<seq<string>>, stats: RiotChampionStats, partype: Option<string>)

  /** `convertChampion`: `null` for a missing record; tags default to the
      empty list and the resource type to `Mana`. */
  function ConvertChampion(riotChampion: Option<RiotChampion>): (r: Option<Champion>)
    ensures r.Some? <==> riotChampion.Some?
    ensures r.Some? ==> r.value.partype != "" && r.value.stats.attackSpeed != 0.0
    ensures r.Some? ==>
      var c := riotChampion.value;
      r.value.id == c.id && r.value.key == c.key && r.value.name == c.name && r.value.title == c.title &&
      r.value.tags == (if c.tags.Some? then c.tags.value else []) &&
      r.value.partype == (if c.partype.Some? && c.partype.value != "" then c.partype.value else "Mana")
    ensures r.Some? ==> r.value.stats == ConvertChampionStats(riotChampion.value.stats)
  {
    match riotChampion
    case None => None
    case Some(c) =>
      var partype := if c.partype.Some? && c.partype.value != "" then c.partype.value else "Mana";
      ChampionStatsDefaults(c.stats);
      Some(Champion(c.id, c.key, c.name, c.title, c.tags.GetOr([]), ConvertChampionStats(c.stats), partype))
  }

  // ---- Stat shards ----

  /** `convertStatShard`: the stat bonuses of one shard choice. */
  function ConvertStatShard(shardType: string, shardChoice: string): map<string, real> {
    if shardType == "offense" then
      if shardChoice == "adaptiveForce" then map["adaptiveForce" := 9.0]
      else if shardChoice == "attackSpeed" then map["attackSpeed" := 10.0]
      else if shardChoice == "abilityHaste" then map["abilityHaste" := 8.0]
      else map[]
    else if shardType == "flex" then
      if shardChoice == "adaptiveForce" then map["adaptiveForce" := 9.0]
      else if shardChoice == "movementSpeed" then map["movementSpeed" := 2.0]
      else if shardChoice == "healthScaling" then map["healthPerLevel" := 10.0]
      else map[]
    else if shardType == "defense" then
      if shardChoice == "health" then map["health" := 15.0, "healthPerLevel" := 140.0 / 18.0]
      else if shardChoice == "armor" then map["armor" := 6.0]
      else if shardChoice == "magicResist" then map["magicResist" := 8.0]
      else map[]
    else map[]
  }

  /** The nine shard choices the table knows. */
  const KnownShards: set<(string, string)> := {
    ("offense", "adaptiveForce"), ("offense", "attackSpeed"), ("offense", "abilityHaste"),
    ("flex", "adaptiveForce"), ("flex", "movementSpeed"), ("flex", "healthScaling"),
    ("defense", "health"), ("defense", "armor"), ("defense", "magicResist")
  }

  /** An unknown shard type or choice gives no bonus. */
  lemma UnknownShardEmpty(shardType: string, shardChoice: string)
    requires (shardType, shardChoice) !in KnownShards
    ensures ConvertStatShard(shardType, shardChoice) == map[]
  {
  }

  /** Every known choice gives a bonus, and the defense health shard gives
      15 health and 140/18 health per level. */
  lemma KnownShardValues()
    ensures forall t, c :: (t, c) in KnownShards ==> ConvertStatShard(t, c) != map[]
    ensures ConvertStatShard("defense", "health") == map["health" := 15.0, "healthPerLevel" := 140.0 / 18.0]
  {
    forall t, c | (t, c) in KnownShards ensures ConvertStatShard(t, c) != map[] {
      if t == "offense" {
        assert c == "adaptiveForce" || c == "attackSpeed" || c == "abilityHaste";
        assert "adaptiveForce" in ConvertStatShard(t, "adaptiveForce");
        assert "attackSpeed" in ConvertStatShard(t, "attackSpeed");
        assert "abilityHaste" in ConvertStatShard(t, "abilityHaste");
      } else if t == "flex" {
        assert c == "adaptiveForce" || c == "movementSpeed" || c == "healthScaling";
        assert "adaptiveForce" in ConvertStatShard(t, "adaptiveForce");
        assert "movementSpeed" in ConvertStatShard(t, "movementSpeed");
        assert "healthPerLevel" in ConvertStatShard(t, "healthScaling");
      } else {
        assert t == "defense";
        assert c == "health" || c == "armor" || c == "magicResist";
        assert "health" in ConvertStatShard(t, "health");
        assert "armor" in ConvertStatShard(t, "armor");
        assert "magicResist" in ConvertStatShard(t, "magicResist");
      }
    }
  }

  // ---- Validation and defaults ----

  /** An engine stat object whose values may be `null` (`None`). */
  type StatObject = map<string, Option<real>>

  const RequiredStats: seq<string> := [
    "health", "mana", "attackDamage", "abilityPower",
    "armor", "magicResist", "attackSpeed", "movementSpeed"
  ]

  /** `stats[stat] === undefined || stats[stat] === null`. */
  predicate IsMissing(stats: StatObject, stat: string) {
    stat !in stats || stats[stat].None?
  }

  function MissingOf(stats: StatObject, names: seq<string>): seq<string> {
    if |names| == 0 then []
    else MissingOf(stats, names[..|names| - 1]) + (if IsMissing(stats, names[|names| - 1]) then [names[|names| - 1]] else [])
  }

  function PresentOf(stats: StatObject, names: seq<string>): seq<string> {
    if |names| == 0 then []
    else PresentOf(stats, names[..|names| - 1]) + (if IsMissing(stats, names[|names| - 1]) then [] else [names[|names| - 1]])
  }

  datatype Validation = Validation(isValid: bool, missingStats: seq<string>, presentStats: seq<string>, statsObject: StatObject)

  /** `validateStats`. */
  method ValidateStats(stats: StatObject) returns (result: Validation)
    ensures result.missingStats == MissingOf(stats, RequiredStats)
    ensures result.presentStats == PresentOf(stats, RequiredStats)
    ensures result.isValid <==> forall k :: 0 <= k < |RequiredStats| ==> !IsMissing(stats, RequiredStats[k])
    ensures result.statsObject == stats
  {
    var missingStats: seq<string> := [];
    var presentStats: seq<string> := [];
    for i := 0 to |RequiredStats|
      invariant missingStats == MissingOf(stats, RequiredStats[..i])
      invariant presentStats == PresentOf(stats, RequiredStats[..i])
    {
      var stat := RequiredStats[i];
      assert RequiredStats[..i + 1][..i] == RequiredStats[..i];
      if stat !in stats || stats[stat].None? {
        missingStats := missingStats + [stat];
      } else {
        presentStats := presentStats + [stat];
      }
    }
    assert RequiredStats[..|RequiredStats|] == RequiredStats;
    MissingEmptyIff(stats, RequiredStats);
    result := Validation(|missingStats| == 0, missingStats, presentStats, stats);
  }

  /** The missing names are exactly those of `names` that are missing, the
      present ones exactly the others: together they are `names`, split. */
  lemma SplitNames(stats: StatObject, names: seq<string>)
    ensures forall n :: n in MissingOf(stats, names) <==> n in names && IsMissing(stats, n)
    ensures forall n :: n in PresentOf(stats, names) <==> n in names && !IsMissing(stats, n)
    ensures multiset(MissingOf(stats, names)) + multiset(PresentOf(stats, names)) == multiset(names)
  {
    SplitMembers(stats, names);
    SplitCounts(stats, names);
  }

  lemma {:induction false} SplitMembers(stats: StatObject, names: seq<string>)
    ensures forall n :: n in MissingOf(stats, names) <==> n in names && IsMissing(stats, n)
    ensures forall n :: n in PresentOf(stats, names) <==> n in names && !IsMissing(stats, n)
  {
    if |names| > 0 {
      var init, last := names[..|names| - 1], names[|names| - 1];
      SplitMembers(stats, init);
      assert names == init + [last];
      if IsMissing(stats, last) {
        assert MissingOf(stats, names) == MissingOf(stats, init) + [last];
        assert PresentOf(stats, names) == PresentOf(stats, init);
      } else {
        assert MissingOf(stats, names) == MissingOf(stats, init);
        assert PresentOf(stats, names) == PresentOf(stats, init) + [last];
      }
    }
  }

  lemma {:induction false} SplitCounts(stats: StatObject, names: seq<string>)
    ensures multiset(MissingOf(stats, names)) + multiset(PresentOf(stats, names)) == multiset(names)
  {
    if |names| > 0 {
      var init, last := names[..|names| - 1], names[|names| - 1];
      SplitCounts(stats, init);
      SplitStep(stats, names);
      LastCount(names);
    }
  }

  lemma LastCount(names: seq<string>)
    requires |names| > 0
    ensures multiset(names) == multiset(names[..|names| - 1]) + multiset{names[|names| - 1]}
  {
    assert names == names[..|names| - 1] + [names[|names| - 1]];
  }

  /** The last name goes to exactly one of the two lists. */
  lemma SplitStep(stats: StatObject, names: seq<string>)
    requires |names| > 0
    ensures var init, last := names[..|names| - 1], names[|names| - 1];
      multiset(MissingOf(stats, names)) + multiset(PresentOf(stats, names)) ==
      multiset(MissingOf(stats, init)) + multiset(PresentOf(stats, init)) + multiset{last}
  {
    var init, last := names[..|names| - 1], names[|names| - 1];
    var m, p := MissingOf(stats, init), PresentOf(stats, init);
    if IsMissing(stats, last) {
      assert MissingOf(stats, names) == m + [last];
      assert PresentOf(stats, names) == p;
      assert multiset(m + [last]) == multiset(m) + multiset{last};
    } else {
      assert MissingOf(stats, names) == m;
      assert PresentOf(stats, names) == p + [last];
      assert multiset(p + [last]) == multiset(p) + multiset{last};
    }
  }

  /** Nothing is missing exactly when every name is present. */
  lemma {:induction false} MissingEmptyIff(stats: StatObject, names: seq<string>)
    ensures |MissingOf(stats, names)| == 0 <==> forall k :: 0 <= k < |names| ==> !IsMissing(stats, names[k])
  {
    SplitNames(stats, names);
    if |MissingOf(stats, names)| > 0 {
      assert MissingOf(stats, names)[0] in MissingOf(stats, names);
    }
  }

  /** The defaults of `fillDefaultStats`: thirty stats, all 0. */
  const Defaults: StatObject := map[
      "health" := Some(0.0),
      "healthPerLevel" := Some(0.0),
      "mana" := Some(0.0),
      "manaPerLevel" := Some(0.0),
      "attackDamage" := Some(0.0),
      "attackDamagePerLevel" := Some(0.0),
      "abilityPower" := Some(0.0),
      "armor" := Some(0.0),
      "armorPerLevel" := Some(0.0),
      "magicResist" := Some(0.0),
      "magicResistPerLevel" := Some(0.0),
      "attackSpeed" := Some(0.0),
      "attackSpeedPerLevel" := Some(0.0),
      "movementSpeed" := Some(0.0),
      "critChance" := Some(0.0),
      "critDamage" := Some(0.0),
      "lifeSteal" := Some(0.0),
      "spellVamp" := Some(0.0),
      "lethality" := Some(0.0),
      "armorPenetrationPercent" := Some(0.0),
      "magicPenetration" := Some(0.0),
      "magicPenetrationPercent" := Some(0.0),
      "cooldownReduction" := Some(0.0),
      "abilityHaste" := Some(0.0),
      "healthRegen" := Some(0.0),
      "healthRegenPerLevel" := Some(0.0),
      "manaRegen" := Some(0.0),
      "manaRegenPerLevel" := Some(0.0),
      "tenacity" := Some(0.0),
      "goldPer10" := Some(0.0)
  ]

  /** `{ ...defaults, ...stats }`. */
  function FillDefaults(stats: StatObject): StatObject {
    Defaults + stats
  }

  /** The filled object has every default key and every input key; input
      keys keep their input values and the other default keys get 0. */
  lemma FillDefaultsSpec(stats: StatObject)
    ensures FillDefaults(stats).Keys == Defaults.Keys + stats.Keys
    ensures forall k :: k in stats ==> FillDefaults(stats)[k] == stats[k]
    ensures forall k :: k in Defaults && k !in stats ==> FillDefaults(stats)[k] == Some(0.0)
  {
  }

  /** Filling in the defaults twice is the same as once. */
  lemma FillDefaultsIdempotent(stats: StatObject)
    ensures FillDefaults(FillDefaults(stats)) == FillDefaults(stats)
  {
  }

  /** After default filling only an explicit `null` can make a required stat
      missing. */
  lemma FilledValid(stats: StatObject)
    ensures |MissingOf(FillDefaults(stats), RequiredStats)| == 0 <==>
      forall k :: 0 <= k < |RequiredStats| && RequiredStats[k] in stats ==> stats[RequiredStats[k]].Some?
  {
    var f := FillDefaults(stats);
    MissingEmptyIff(f, RequiredStats);
    RequiredHaveDefaults();
    FillDefaultsSpec(stats);
    forall k | 0 <= k < |RequiredStats|
      ensures !IsMissing(f, RequiredStats[k]) <==> (RequiredStats[k] in stats ==> stats[RequiredStats[k]].Some?)
    {
      var n := RequiredStats[k];
      assert n in Defaults;
      if n !in stats {
        assert f[n] == Some(0.0);
      }
    }
  }

  /** Every required stat has a default. */
  lemma RequiredHaveDefaults()
    ensures forall k :: 0 <= k < |RequiredStats| ==> RequiredStats[k] in Defaults
  {
    forall k | 0 <= k < |RequiredStats| ensures RequiredStats[k] in Defaults {
      assert RequiredStats[k] in Defaults.Keys;
    }
  }
}
