/** The vendor-to-engine stat vocabulary: the mapping table, `convertStats`,
    which renames and rescales a vendor stat object, and
    `convertToRiotFormat`, which undoes it where the table allows. The table
    is a parameter of the specification functions, so that what is proved
    about them holds for any table; the methods use `StatMappings`. */
module StatTable {
  import opened Wrappers
  import opened Strings
  import opened Dicts

  /** A mapping table: vendor key to engine key, in declaration order. */
  type Table = Entries<string>

  /** `STAT_MAPPINGS`, vendor key to engine key, in declaration order. It is
      written in blocks of eight so that facts about it can be proved a block
      at a time. */
  const StatMappings: Table := Block0 + Block1 + Block2 + Block3 + Block4 + Block5 + Block6 + Block7

  const Block0: Table := [
    ("FlatPhysicalDamageMod", "attackDamage"),
    ("FlatMagicDamageMod", "abilityPower"),
    ("FlatArmorMod", "armor"),
    ("FlatSpellBlockMod", "magicResist"),
    ("FlatHPPoolMod", "health"),
    ("FlatMPPoolMod", "mana"),
    ("FlatHPRegenMod", "healthRegen"),
    ("FlatMPRegenMod", "manaRegen")
  ]
  const Block1: Table := [
    ("FlatMovementSpeedMod", "movementSpeed"),
    ("FlatEnergyPoolMod", "energy"),
    ("FlatEnergyRegenMod", "energyRegen"),
    ("PercentPhysicalDamageMod", "attackDamagePercent"),
    ("PercentMagicDamageMod", "abilityPowerPercent"),
    ("PercentHPPoolMod", "healthPercent"),
    ("PercentMPPoolMod", "manaPercent"),
    ("PercentMovementSpeedMod", "movementSpeedPercent")
  ]
  const Block2: Table := [
    ("PercentAttackSpeedMod", "attackSpeed"),
    ("PercentArmorMod", "armorPercent"),
    ("PercentSpellBlockMod", "magicResistPercent"),
    ("PercentHPRegenMod", "healthRegenPercent"),
    ("PercentMPRegenMod", "manaRegenPercent"),
    ("FlatCritChanceMod", "critChance"),
    ("FlatCritDamageMod", "critDamage"),
    ("PercentCritDamageMod", "critDamagePercent")
  ]
  const Block3: Table := [
    ("FlatArmorPenetrationMod", "lethality"),
    ("rFlatArmorPenetrationMod", "lethality"),
    ("rPercentArmorPenetrationMod", "armorPenetrationPercent"),
    ("PercentArmorPenetrationMod", "armorPenetrationPercent"),
    ("FlatMagicPenetrationMod", "magicPenetration"),
    ("rFlatMagicPenetrationMod", "magicPenetration"),
    ("rPercentMagicPenetrationMod", "magicPenetrationPercent"),
    ("PercentMagicPenetrationMod", "magicPenetrationPercent")
  ]
  const Block4: Table := [
    ("PercentLifeStealMod", "lifeSteal"),
    ("PercentSpellVampMod", "spellVamp"),
    ("rPercentCooldownMod", "cooldownReduction"),
    ("rPercentCooldownModPerLevel", "cooldownReductionPerLevel"),
    ("FlatAbilityHasteMod", "abilityHaste"),
    ("FlatAttackSpeedMod", "attackSpeedFlat"),
    ("rPercentAttackSpeedModPerLevel", "attackSpeedPerLevel"),
    ("rFlatGoldPer10Mod", "goldPer10")
  ]
  const Block5: Table := [
    ("FlatEXPBonus", "experienceFlat"),
    ("PercentEXPBonus", "experiencePercent"),
    ("rFlatPhysicalDamageModPerLevel", "attackDamagePerLevel"),
    ("rFlatMagicDamageModPerLevel", "abilityPowerPerLevel"),
    ("rFlatArmorModPerLevel", "armorPerLevel"),
    ("rFlatSpellBlockModPerLevel", "magicResistPerLevel"),
    ("rFlatHPModPerLevel", "healthPerLevel"),
    ("rFlatMPModPerLevel", "manaPerLevel")
  ]
  const Block6: Table := [
    ("rFlatHPRegenModPerLevel", "healthRegenPerLevel"),
    ("rFlatMPRegenModPerLevel", "manaRegenPerLevel"),
    ("rFlatMovementSpeedModPerLevel", "movementSpeedPerLevel"),
    ("FlatBlockMod", "block"),
    ("PercentBlockMod", "blockPercent"),
    ("FlatDodgeMod", "dodge"),
    ("PercentDodgeMod", "dodgePercent"),
    ("rFlatTimeDeadMod", "timeDeadReduction")
  ]
  const Block7: Table := [
    ("rPercentTimeDeadMod", "timeDeadReductionPercent")
  ]

  /** No engine key of `table` is empty or starts with `_`. */
  predicate CanonicalNames(table: Table) {
    forall j :: 0 <= j < |table| ==> |table[j].1| > 0 && table[j].1[0] != '_'
  }

  lemma CanonicalAppend(a: Table, b: Table)
    requires CanonicalNames(a) && CanonicalNames(b)
    ensures CanonicalNames(a + b)
  {
    forall j | 0 <= j < |a + b| ensures |(a + b)[j].1| > 0 && (a + b)[j].1[0] != '_' {
      if j >= |a| { assert (a + b)[j] == b[j - |a|]; }
    }
  }

  /** Every engine key in `STAT_MAPPINGS` is a plain name, so none collides
      with the `_unmapped_` keys `convertStats` invents. */
  lemma StatMappingsCanonical()
    ensures CanonicalNames(StatMappings)
  {
    BlocksCanonicalLow();
    BlocksCanonicalHigh();
    CanonicalAppend(Block0, Block1);
    CanonicalAppend(Block0 + Block1, Block2);
    CanonicalAppend(Block0 + Block1 + Block2, Block3);
    CanonicalAppend(Block0 + Block1 + Block2 + Block3, Block4);
    CanonicalAppend(Block0 + Block1 + Block2 + Block3 + Block4, Block5);
    CanonicalAppend(Block0 + Block1 + Block2 + Block3 + Block4 + Block5, Block6);
    CanonicalAppend(Block0 + Block1 + Block2 + Block3 + Block4 + Block5 + Block6, Block7);
  }

  lemma BlocksCanonicalLow()
    ensures CanonicalNames(Block0) && CanonicalNames(Block1) && CanonicalNames(Block2) && CanonicalNames(Block3)
  {
  }

  lemma BlocksCanonicalHigh()
    ensures CanonicalNames(Block4) && CanonicalNames(Block5) && CanonicalNames(Block6) && CanonicalNames(Block7)
  {
  }

  /** `STAT_MAPPINGS[riotKey]`. */
  function MappedName(table: Table, riotKey: string): Option<string> {
    Get(table, riotKey)
  }

  const UnmappedPrefix := "_unmapped_"

  /** The vendor keys whose values are fractions that the engine keeps in
      percent units: those containing `Percent` or `Crit`. */
  predicate HasRescaleMarker(key: string) {
    Contains(key, "Percent") || Contains(key, "Crit")
  }

  /** The key under which `convertStats` stores a vendor entry. */
  function TargetName(table: Table, riotKey: string): string {
    match MappedName(table, riotKey)
    case Some(name) => name
    case None => UnmappedPrefix + riotKey
  }

  /** The value `convertStats` stores for a vendor entry. */
  function TargetValue(table: Table, riotKey: string, value: real): real {
    if MappedName(table, riotKey).Some? && HasRescaleMarker(riotKey) then value * 100.0 else value
  }

  function Target(table: Table, e: (string, real)): (string, real) {
    (TargetName(table, e.0), TargetValue(table, e.0, e.1))
  }

  lemma TargetParts(table: Table, e: (string, real), name: string, value: real)
    requires Target(table, e) == (name, value)
    ensures TargetName(table, e.0) == name && TargetValue(table, e.0, e.1) == value
  {
  }

  /** `e` is the converted form of some nonzero entry of `riot`. */
  ghost predicate ProducedBy(table: Table, riot: Entries<real>, e: (string, real)) {
    exists i :: 0 <= i < |riot| && riot[i].1 != 0.0 && e == Target(table, riot[i])
  }

  /** What `convertStats` returns for the entries of `riot`, processed in
      order: zero values are skipped, every other entry is written under its
      target name, and a later entry with the same target name overwrites an
      earlier one where it stands. */
  function Converted(table: Table, riot: Entries<real>): (out: Entries<real>)
    ensures DistinctKeys(out)
    decreases |riot|
  {
    if |riot| == 0 then []
    else
      var prev := Converted(table, riot[..|riot| - 1]);
      var last := riot[|riot| - 1];
      if last.1 == 0.0 then prev else Put(prev, TargetName(table, last.0), TargetValue(table, last.0, last.1))
  }

  /** `convertStats` never emits a zero value. */
  lemma {:induction false} ConvertedNoZero(table: Table, riot: Entries<real>)
    ensures forall j :: 0 <= j < |Converted(table, riot)| ==> Converted(table, riot)[j].1 != 0.0
    decreases |riot|
  {
    if |riot| > 0 {
      var last := riot[|riot| - 1];
      ConvertedNoZero(table, riot[..|riot| - 1]);
      if last.1 != 0.0 {
        assert TargetValue(table, last.0, last.1) != 0.0;
      }
    }
  }

  /** Every nonzero vendor entry leaves an entry under its target name. */
  lemma {:induction false} ConvertedCovers(table: Table, riot: Entries<real>)
    ensures forall i :: 0 <= i < |riot| && riot[i].1 != 0.0 ==> HasKey(Converted(table, riot), TargetName(table, riot[i].0))
    decreases |riot|
  {
    if |riot| > 0 {
      var init := riot[..|riot| - 1];
      ConvertedCovers(table, init);
      ConvertedKeepsKeys(table, riot);
      forall i | 0 <= i < |riot| && riot[i].1 != 0.0 ensures HasKey(Converted(table, riot), TargetName(table, riot[i].0)) {
        if i < |init| {
          assert init[i] == riot[i];
        }
      }
    }
  }

  /** The last vendor entry removes no key and adds its target name unless
      it is zero. */
  lemma ConvertedKeepsKeys(table: Table, riot: Entries<real>)
    requires |riot| > 0
    ensures forall k :: HasKey(Converted(table, riot[..|riot| - 1]), k) ==> HasKey(Converted(table, riot), k)
    ensures var last := riot[|riot| - 1]; last.1 != 0.0 ==> HasKey(Converted(table, riot), TargetName(table, last.0))
  {
    var prev := Converted(table, riot[..|riot| - 1]);
    forall k | HasKey(prev, k) ensures HasKey(Converted(table, riot), k) {
      assert Get(prev, k).Some?;
    }
  }

  /** Every emitted entry is the converted form of some nonzero vendor
      entry: `convertStats` invents nothing. */
  lemma {:induction false} ConvertedProduced(table: Table, riot: Entries<real>)
    ensures forall j :: 0 <= j < |Converted(table, riot)| ==> ProducedBy(table, riot, Converted(table, riot)[j])
    decreases |riot|
  {
    if |riot| > 0 {
      var init := riot[..|riot| - 1];
      var prev := Converted(table, init);
      var last := riot[|riot| - 1];
      ConvertedProduced(table, init);
      assert forall i :: 0 <= i < |init| ==> init[i] == riot[i];
      assert forall e :: ProducedBy(table, init, e) ==> ProducedBy(table, riot, e);
      if last.1 != 0.0 {
        var t := Target(table, last);
        assert ProducedBy(table, riot, t);
        var out := Put(prev, t.0, t.1);
        forall j | 0 <= j < |out| ensures ProducedBy(table, riot, out[j]) {
          if out[j].0 == t.0 {
            GetAt(out, j);
          } else {
            assert j < |prev| && out[j] == prev[j];
          }
        }
      }
    }
  }

  /** `convertStats`: the vendor entries in the engine's vocabulary. */
  method ConvertStats(riotStats: Entries<real>) returns (convertedStats: Entries<real>)
    ensures convertedStats == Converted(StatMappings, riotStats)
  {
    convertedStats := [];
    var i := 0;
    while i < |riotStats|
      invariant 0 <= i <= |riotStats|
      invariant convertedStats == Converted(StatMappings, riotStats[..i])
    {
      var (riotStat, value) := riotStats[i];
      ConvertedStep(StatMappings, riotStats, i);
      if value != 0.0 {
        var mappedStat := MappedName(StatMappings, riotStat);
        if mappedStat.Some? {
          if HasRescaleMarker(riotStat) {
            convertedStats := Put(convertedStats, mappedStat.value, value * 100.0);
          } else {
            convertedStats := Put(convertedStats, mappedStat.value, value);
          }
        } else {
          convertedStats := Put(convertedStats, UnmappedPrefix + riotStat, value);
        }
      }
      i := i + 1;
    }
    assert riotStats[..i] == riotStats;
  }

  /** One more vendor entry is written under its target name unless it is
      zero. */
  lemma ConvertedStep(table: Table, riot: Entries<real>, i: nat)
    requires i < |riot|
    ensures var prev := Converted(table, riot[..i]);
      Converted(table, riot[..i + 1]) ==
        if riot[i].1 == 0.0 then prev else Put(prev, TargetName(table, riot[i].0), TargetValue(table, riot[i].0, riot[i].1))
  {
    assert riot[..i + 1][..i] == riot[..i];
  }

  /** No nonzero entry of `riot` after position `i` has target name `name`. */
  ghost predicate NoLaterWriter(table: Table, riot: Entries<real>, i: nat, name: string) {
    forall j :: i < j < |riot| && riot[j].1 != 0.0 ==> TargetName(table, riot[j].0) != name
  }

  /** A nonzero vendor entry whose target name no later nonzero entry shares
      ends up in the output with its converted value. */
  lemma {:induction false} ConvertedValue(table: Table, riot: Entries<real>, i: nat, name: string, value: real)
    requires i < |riot| && riot[i].1 != 0.0 && Target(table, riot[i]) == (name, value)
    requires NoLaterWriter(table, riot, i, name)
    ensures Get(Converted(table, riot), name) == Some(value)
    decreases |riot|
  {
    var n := |riot| - 1;
    if i < n {
      var init := riot[..n];
      assert init[i] == riot[i];
      NoLaterWriterInit(table, riot, i, name);
      ConvertedValue(table, init, i, name, value);
      ConvertedOther(table, riot, name);
    } else {
      ConvertedValueLast(table, riot, name, value);
    }
  }

  /** Dropping the last entry keeps `NoLaterWriter`, and the last entry
      does not write `name`. */
  lemma NoLaterWriterInit(table: Table, riot: Entries<real>, i: nat, name: string)
    requires i < |riot| - 1 && NoLaterWriter(table, riot, i, name)
    ensures NoLaterWriter(table, riot[..|riot| - 1], i, name)
    ensures var last := riot[|riot| - 1]; last.1 == 0.0 || TargetName(table, last.0) != name
  {
    var init := riot[..|riot| - 1];
    forall j | i < j < |init| ensures init[j] == riot[j] { }
  }

  /** The last entry, when nonzero, is found with its converted value. */
  lemma ConvertedValueLast(table: Table, riot: Entries<real>, name: string, value: real)
    requires |riot| > 0 && riot[|riot| - 1].1 != 0.0 && Target(table, riot[|riot| - 1]) == (name, value)
    ensures Get(Converted(table, riot), name) == Some(value)
  {
    TargetParts(table, riot[|riot| - 1], name, value);
    ConvertedLast(table, riot);
  }

  /** A name the last vendor entry does not write keeps what the earlier
      entries left under it. */
  lemma ConvertedOther(table: Table, riot: Entries<real>, name: string)
    requires |riot| > 0
    requires var last := riot[|riot| - 1]; last.1 == 0.0 || TargetName(table, last.0) != name
    ensures Get(Converted(table, riot), name) == Get(Converted(table, riot[..|riot| - 1]), name)
  {
  }

  /** A nonzero last vendor entry is found under its target name. */
  lemma ConvertedLast(table: Table, riot: Entries<real>)
    requires |riot| > 0 && riot[|riot| - 1].1 != 0.0
    ensures var last := riot[|riot| - 1];
      Get(Converted(table, riot), TargetName(table, last.0)) == Some(TargetValue(table, last.0, last.1))
  {
  }

  /** A mapped vendor key is stored under its engine name, multiplied by 100
      when the key contains `Percent` or `Crit` and unchanged otherwise
      (as long as no later nonzero entry maps to the same name). */
  lemma MappedKept(table: Table, riot: Entries<real>, i: nat, name: string)
    requires i < |riot| && riot[i].1 != 0.0
    requires MappedName(table, riot[i].0) == Some(name)
    requires NoLaterWriter(table, riot, i, name)
    ensures HasRescaleMarker(riot[i].0) ==> Get(Converted(table, riot), name) == Some(riot[i].1 * 100.0)
    ensures !HasRescaleMarker(riot[i].0) ==> Get(Converted(table, riot), name) == Some(riot[i].1)
  {
    ConvertedValue(table, riot, i, name, TargetValue(table, riot[i].0, riot[i].1));
  }

  /** A vendor key missing from a table of plain engine names keeps its
      value under `_unmapped_` + key, so no entry of an object with unique
      keys is lost. */
  lemma UnmappedKeptIn(table: Table, riot: Entries<real>, i: nat)
    requires CanonicalNames(table)
    requires DistinctKeys(riot) && i < |riot| && riot[i].1 != 0.0
    requires MappedName(table, riot[i].0).None?
    ensures Get(Converted(table, riot), UnmappedPrefix + riot[i].0) == Some(riot[i].1)
  {
    var name := UnmappedPrefix + riot[i].0;
    forall j | i < j < |riot| && riot[j].1 != 0.0
      ensures TargetName(table, riot[j].0) != name
    {
      match MappedName(table, riot[j].0)
      case None =>
        assert (UnmappedPrefix + riot[j].0)[10..] == riot[j].0;
        assert (UnmappedPrefix + riot[i].0)[10..] == riot[i].0;
      case Some(mapped) =>
        var p := Find(table, riot[j].0);
        assert table[p].1 == mapped;
        assert name[0] == '_';
    }
    ConvertedValue(table, riot, i, name, riot[i].1);
  }

  /** The same for `STAT_MAPPINGS` itself. */
  lemma UnmappedKept(riot: Entries<real>, i: nat)
    requires DistinctKeys(riot) && i < |riot| && riot[i].1 != 0.0
    requires MappedName(StatMappings, riot[i].0).None?
    ensures Get(Converted(StatMappings, riot), UnmappedPrefix + riot[i].0) == Some(riot[i].1)
  {
    StatMappingsCanonical();
    UnmappedKeptIn(StatMappings, riot, i);
  }

  // ---- Reverse conversion ----

  /** The last position of `table` whose engine key is `name`, or -1. */
  function LastSourceIndex(table: Table, name: string): (r: int)
    ensures -1 <= r < |table|
    ensures r >= 0 ==> table[r].1 == name && forall j :: r < j < |table| ==> table[j].1 != name
    ensures r == -1 ==> forall j :: 0 <= j < |table| ==> table[j].1 != name
  {
    if |table| == 0 then -1
    else if table[|table| - 1].1 == name then |table| - 1
    else LastSourceIndex(table[..|table| - 1], name)
  }

  /** `reverseMapping`: the table's assignments `reverse[engineKey] =
      vendorKey`, in order. */
  function ReverseMapping(table: Table): (rev: Entries<string>)
    ensures DistinctKeys(rev)
    decreases |table|
  {
    if |table| == 0 then []
    else
      var (riotKey, calcKey) := table[|table| - 1];
      Put(ReverseMapping(table[..|table| - 1]), calcKey, riotKey)
  }

  /** The reverse mapping sends each engine key of the table to the vendor
      key listed last for it, and knows no other key. */
  lemma {:induction false} ReverseMappingGet(table: Table, name: string)
    ensures LastSourceIndex(table, name) < 0 ==> Get(ReverseMapping(table), name) == None
    ensures LastSourceIndex(table, name) >= 0 ==>
      Get(ReverseMapping(table), name) == Some(table[LastSourceIndex(table, name)].0)
    decreases |table|
  {
    if |table| > 0 {
      ReverseMappingGet(table[..|table| - 1], name);
    }
  }

  /** The value `convertToRiotFormat` stores under a vendor key. */
  function RiotValue(riotKey: string, value: real): real {
    if HasRescaleMarker(riotKey) then value / 100.0 else value
  }

  /** What `convertToRiotFormat` returns for the entries of `stats`, given the
      reverse mapping: entries without a (non-empty) vendor key are dropped,
      the others are written under it, later ones overwriting earlier ones. */
  function ToRiot(rev: Entries<string>, stats: Entries<real>): (out: Entries<real>)
    ensures DistinctKeys(out)
    decreases |stats|
  {
    if |stats| == 0 then []
    else
      var prev := ToRiot(rev, stats[..|stats| - 1]);
      var (calcStat, value) := stats[|stats| - 1];
      match Get(rev, calcStat)
      case Some(riotStat) => if riotStat != "" then Put(prev, riotStat, RiotValue(riotStat, value)) else prev
      case None => prev
  }

  /** `convertToRiotFormat`. */
  method ConvertToRiotFormat(calculatorStats: Entries<real>) returns (riotStats: Entries<real>)
    ensures riotStats == ToRiot(ReverseMapping(StatMappings), calculatorStats)
  {
    var reverseMapping := BuildReverseMapping(StatMappings);
    riotStats := ApplyReverseMapping(reverseMapping, calculatorStats);
  }

  /** The second loop of `convertToRiotFormat`: every engine entry with a
      non-empty vendor key is written under it, divided by 100 when the key
      marks a percentage. */
  method ApplyReverseMapping(reverseMapping: Entries<string>, calculatorStats: Entries<real>) returns (riotStats: Entries<real>)
    ensures riotStats == ToRiot(reverseMapping, calculatorStats)
  {
    riotStats := [];
    var i := 0;
    while i < |calculatorStats|
      invariant 0 <= i <= |calculatorStats|
      invariant riotStats == ToRiot(reverseMapping, calculatorStats[..i])
    {
      var (calcStat, value) := calculatorStats[i];
      ToRiotStep(reverseMapping, calculatorStats, i);
      var riotStat := Get(reverseMapping, calcStat);
      if riotStat.Some? && riotStat.value != "" {
        if HasRescaleMarker(riotStat.value) {
          assert RiotValue(riotStat.value, value) == value / 100.0;
          riotStats := Put(riotStats, riotStat.value, value / 100.0);
        } else {
          assert RiotValue(riotStat.value, value) == value;
          riotStats := Put(riotStats, riotStat.value, value);
        }
      }
      i := i + 1;
    }
    assert calculatorStats[..i] == calculatorStats;
  }

  /** The first loop of `convertToRiotFormat`: `reverseMapping[calcKey] =
      riotKey` for every row of the table, in order. */
  method BuildReverseMapping(table: Table) returns (reverseMapping: Entries<string>)
    ensures reverseMapping == ReverseMapping(table)
  {
    reverseMapping := [];
    var i := 0;
    while i < |table|
      invariant 0 <= i <= |table|
      invariant reverseMapping == ReverseMapping(table[..i])
    {
      var (riotKey, calcKey) := table[i];
      ReverseStep(table, i);
      reverseMapping := Put(reverseMapping, calcKey, riotKey);
      i := i + 1;
    }
    assert table[..i] == table;
  }

  /** One more table row adds one assignment to the reverse mapping. */
  lemma ReverseStep(table: Table, i: nat)
    requires i < |table|
    ensures ReverseMapping(table[..i + 1]) == Put(ReverseMapping(table[..i]), table[i].1, table[i].0)
  {
    assert table[..i + 1][..i] == table[..i];
  }

  /** One more engine entry is stored under its vendor key, if it has one. */
  lemma ToRiotStep(rev: Entries<string>, stats: Entries<real>, i: nat)
    requires i < |stats|
    ensures var prev, r := ToRiot(rev, stats[..i]), Get(rev, stats[i].0);
      (r.Some? && r.value != "" ==> ToRiot(rev, stats[..i + 1]) == Put(prev, r.value, RiotValue(r.value, stats[i].1))) &&
      (!(r.Some? && r.value != "") ==> ToRiot(rev, stats[..i + 1]) == prev)
  {
    assert stats[..i + 1][..i] == stats[..i];
  }

  /** An engine entry with a vendor key that no later entry shares is stored
      under that key with its value converted back. */
  lemma {:induction false} ToRiotValue(rev: Entries<string>, stats: Entries<real>, i: nat, riotKey: string)
    requires i < |stats| && riotKey != "" && Get(rev, stats[i].0) == Some(riotKey)
    requires forall j :: i < j < |stats| ==> Get(rev, stats[j].0) != Some(riotKey)
    ensures Get(ToRiot(rev, stats), riotKey) == Some(RiotValue(riotKey, stats[i].1))
    decreases |stats|
  {
    var n := |stats| - 1;
    var prev := ToRiot(rev, stats[..n]);
    if i < n {
      var init := stats[..n];
      assert init[i] == stats[i];
      assert forall j :: i < j < |init| ==> init[j] == stats[j];
      ToRiotValue(rev, init, i, riotKey);
      var last := stats[n];
      match Get(rev, last.0)
      case Some(r) =>
        assert r != riotKey;
        if r != "" {
          assert ToRiot(rev, stats) == Put(prev, r, RiotValue(r, last.1));
        }
      case None =>
    }
  }

  /** In a table with unique vendor keys, a vendor key is the reverse image
      of at most one engine key: its own. */
  lemma ReverseOnlyFrom(table: Table, k: string, name: string, other: string)
    requires DistinctKeys(table) && MappedName(table, k) == Some(name) && other != name
    ensures Get(ReverseMapping(table), other) != Some(k)
  {
    var f := Find(table, k);
    ReverseMappingGet(table, other);
    var s := LastSourceIndex(table, other);
    if s >= 0 {
      assert s != f;
      assert table[s].0 != k;
    }
  }

  /** Converting a vendor stat object and converting the result back
      restores the value of a nonzero entry whose key is the table's last
      listed source of its engine name (and whose engine name no later
      nonzero entry shares): the division by 100 happens exactly where the
      multiplication did. */
  lemma RoundTrip(table: Table, riot: Entries<real>, i: nat, name: string)
    requires DistinctKeys(table)
    requires i < |riot| && riot[i].1 != 0.0 && riot[i].0 != ""
    requires MappedName(table, riot[i].0) == Some(name)
    requires LastSourceIndex(table, name) >= 0 && table[LastSourceIndex(table, name)].0 == riot[i].0
    requires NoLaterWriter(table, riot, i, name)
    ensures Get(ToRiot(ReverseMapping(table), Converted(table, riot)), riot[i].0) == Some(riot[i].1)
  {
    var k := riot[i].0;
    var v := TargetValue(table, k, riot[i].1);
    var rev := ReverseMapping(table);
    var out := Converted(table, riot);
    ConvertedValue(table, riot, i, name, v);
    var p := Find(out, name);
    assert out[p] == (name, v);
    ReverseMappingGet(table, name);
    assert Get(rev, out[p].0) == Some(k);
    forall q | p < q < |out| ensures Get(rev, out[q].0) != Some(k) {
      assert out[q].0 != name;
      ReverseOnlyFrom(table, k, name, out[q].0);
    }
    ToRiotValue(rev, out, p, k);
    assert RiotValue(k, v) == riot[i].1;
  }
}
