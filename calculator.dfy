/** The stat calculator of one champion: base stats grown to the current
    level, item stat deltas folded in one entry at a time, rune shards and
    buffs added, then the derived cooldown reduction and effective health;
    and the damage formulas that read the items' penetration. The running
    stat totals are a map from engine stat name to value. */
module Calculator {
  import opened Wrappers
  import opened Strings
  import opened Dicts
  import opened GameData
  import StatTable

  type Stats = map<string, real>

  /** `stats[k] || 0`: a stat the totals do not hold counts as 0. */
  function StatOf(stats: Stats, k: string): real {
    if k in stats then stats[k] else 0.0
  }

  /** `stats[k] += d`. */
  function Add(stats: Stats, k: string, d: real): Stats {
    stats[k := StatOf(stats, k) + d]
  }

  // ---------------------------------------------------------------------
  // Growth with level

  /** The per-level growth factor `(level - 1) * (0.7025 + 0.0175 * (level - 1))`. */
  function GrowthMultiplier(level: real): real {
    (level - 1.0) * (0.7025 + 0.0175 * (level - 1.0))
  }

  /** `calculateBaseStat`: a stat at the given level. */
  function BaseStat(level: real, base: real, growth: real): real {
    base + growth * GrowthMultiplier(level)
  }

  /** A stat is its base value at level 1 and base plus seventeen growths
      at level 18, and it does not shrink as the level rises when its
      growth is non-negative. */
  lemma BaseStatGrowth(base: real, growth: real, l1: real, l2: real)
    ensures BaseStat(1.0, base, growth) == base
    ensures BaseStat(18.0, base, growth) == base + 17.0 * growth
    ensures 1.0 <= l1 <= l2 && growth >= 0.0 ==> BaseStat(l1, base, growth) <= BaseStat(l2, base, growth)
  {
    assert GrowthMultiplier(18.0) == 17.0;
    if 1.0 <= l1 <= l2 && growth >= 0.0 {
      var a, b := l1 - 1.0, l2 - 1.0;
      assert GrowthMultiplier(l2) - GrowthMultiplier(l1) == (b - a) * (0.7025 + 0.0175 * (a + b));
      assert (b - a) * (0.7025 + 0.0175 * (a + b)) >= 0.0;
      assert growth * (GrowthMultiplier(l2) - GrowthMultiplier(l1)) >= 0.0;
    }
  }

  // ---------------------------------------------------------------------
  // Item sums and maxima

  /** `items.reduce((sum, item) => sum + (item.stats?.[key] || 0), 0)`. */
  function SumStat(items: seq<Item>, key: string): real {
    if |items| == 0 then 0.0
    else SumStat(items[..|items| - 1], key) + ItemStat(items[|items| - 1], key)
  }

  /** The sum over a concatenation is the sum of the sums. */
  lemma {:induction false} SumStatAppend(a: seq<Item>, b: seq<Item>, key: string)
    ensures SumStat(a + b, key) == SumStat(a, key) + SumStat(b, key)
    decreases |b|
  {
    if |b| == 0 {
      assert a + b == a;
    } else {
      var b' := b[..|b| - 1];
      assert (a + b)[..|a + b| - 1] == a + b';
      SumStatAppend(a, b', key);
    }
  }

  /** With no negative `key` stat the sum is at least every item's value
      (so never negative), and it is 0 when no item has the stat. */
  lemma {:induction false} SumStatBounds(items: seq<Item>, key: string)
    ensures (forall i :: 0 <= i < |items| ==> ItemStat(items[i], key) >= 0.0) ==>
      0.0 <= SumStat(items, key) && forall i :: 0 <= i < |items| ==> ItemStat(items[i], key) <= SumStat(items, key)
    ensures (forall i :: 0 <= i < |items| ==> ItemStat(items[i], key) == 0.0) ==> SumStat(items, key) == 0.0
    decreases |items|
  {
    if |items| > 0 {
      var init := items[..|items| - 1];
      SumStatBounds(init, key);
      assert forall i :: 0 <= i < |init| ==> init[i] == items[i];
    }
  }

  /** The largest non-zero `key` stat among the items, or `None` when no
      item has one. */
  function TopStat(items: seq<Item>, key: string): Option<real> {
    if |items| == 0 then None
    else
      var t := TopStat(items[..|items| - 1], key);
      var v := ItemStat(items[|items| - 1], key);
      if v == 0.0 then t
      else match t
        case None => Some(v)
        case Some(m) => Some(if v > m then v else m)
  }

  /** `Math.max` over the items whose `key` stat is truthy, or 0 when there
      are none: the percentage penetration getters. */
  function MaxStat(items: seq<Item>, key: string): real {
    TopStat(items, key).GetOr(0.0)
  }

  /** The percentage getters' result: 0 when no item has a non-zero `key`
      stat, and otherwise the largest such value, which some item has. */
  lemma MaxStatSpec(items: seq<Item>, key: string)
    ensures !HasNonZero(items, key) ==> MaxStat(items, key) == 0.0
    ensures HasNonZero(items, key) ==>
      (forall i :: 0 <= i < |items| && ItemStat(items[i], key) != 0.0 ==> ItemStat(items[i], key) <= MaxStat(items, key)) &&
      (exists i :: 0 <= i < |items| && ItemStat(items[i], key) == MaxStat(items, key) != 0.0)
  {
    TopStatSpec(items, key);
  }

  /** Some item has a non-zero `key` stat. */
  ghost predicate HasNonZero(items: seq<Item>, key: string) {
    exists i :: 0 <= i < |items| && ItemStat(items[i], key) != 0.0
  }

  /** `TopStat` is the maximum of the non-zero values, attained by one of
      them, and absent exactly when every item's value is zero. */
  lemma {:induction false} TopStatSpec(items: seq<Item>, key: string)
    ensures TopStat(items, key).None? <==> !HasNonZero(items, key)
    ensures TopStat(items, key).Some? ==>
      (forall i :: 0 <= i < |items| && ItemStat(items[i], key) != 0.0 ==> ItemStat(items[i], key) <= TopStat(items, key).value) &&
      (exists i :: 0 <= i < |items| && ItemStat(items[i], key) == TopStat(items, key).value != 0.0)
    decreases |items|
  {
    if |items| > 0 {
      var init := items[..|items| - 1];
      TopStatSpec(init, key);
      assert forall i :: 0 <= i < |init| ==> init[i] == items[i];
      if !HasNonZero(init, key) && ItemStat(items[|items| - 1], key) == 0.0 {
        forall i | 0 <= i < |items| ensures ItemStat(items[i], key) == 0.0 {
          if i < |init| { assert init[i] == items[i]; }
        }
      }
      if TopStat(items, key).Some? {
        var top := TopStat(items, key).value;
        forall i | 0 <= i < |items| && ItemStat(items[i], key) != 0.0
          ensures ItemStat(items[i], key) <= top
        {
          if i < |init| { assert ItemStat(init[i], key) != 0.0; }
        }
        if ItemStat(items[|items| - 1], key) != 0.0 && (TopStat(init, key).None? || ItemStat(items[|items| - 1], key) > TopStat(init, key).value) {
          assert ItemStat(items[|items| - 1], key) == top;
        } else {
          var j :| 0 <= j < |init| && ItemStat(init[j], key) == TopStat(init, key).value != 0.0;
          assert ItemStat(items[j], key) == top;
        }
      }
    }
  }

  /** Percentage penetration does not stack: items that all carry the same
      non-zero value give that value, whereas the flat sum grows with every
      item. */
  lemma {:induction false} PercentPenNoStack(items: seq<Item>, key: string, v: real)
    requires |items| > 0 && v != 0.0
    requires forall i :: 0 <= i < |items| ==> ItemStat(items[i], key) == v
    ensures MaxStat(items, key) == v
    ensures SumStat(items, key) == |items| as real * v
    decreases |items|
  {
    var init := items[..|items| - 1];
    assert forall i :: 0 <= i < |init| ==> init[i] == items[i];
    if |init| > 0 {
      PercentPenNoStack(init, key, v);
      TopStatSpec(init, key);
    }
  }

  // ---------------------------------------------------------------------
  // Attack speed

  /** `calculateAttackSpeed`: the base attack speed (0.625 when the champion
      has none) scaled by the level and item bonuses, both percentages. */
  function AttackSpeed(cs: ChampionStats, level: real, items: seq<Item>): real {
    var baseAS := if cs.attackSpeed != 0.0 then cs.attackSpeed else 0.625;
    var levelBonus := cs.attackSpeedPerLevel * GrowthMultiplier(level) / 100.0;
    var itemBonus := SumStat(items, "attackSpeed") / 100.0;
    baseAS * (1.0 + levelBonus + itemBonus)
  }

  /** At level 1 every item attack speed percentage raises the base attack
      speed proportionally. */
  lemma AttackSpeedAtLevelOne(cs: ChampionStats, items: seq<Item>)
    requires cs.attackSpeed != 0.0
    ensures AttackSpeed(cs, 1.0, items) == cs.attackSpeed * (1.0 + SumStat(items, "attackSpeed") / 100.0)
  {
    assert GrowthMultiplier(1.0) == 0.0;
  }

  /** A champion without a base attack speed counts as 0.625, and at
      level 18 the level bonus is seventeen times the per-level percentage. */
  lemma AttackSpeedDefaults(cs: ChampionStats, level: real, items: seq<Item>)
    ensures var baseAS := if cs.attackSpeed != 0.0 then cs.attackSpeed else 0.625;
      AttackSpeed(cs, 18.0, items) == baseAS * (1.0 + 17.0 * cs.attackSpeedPerLevel / 100.0 + SumStat(items, "attackSpeed") / 100.0)
    ensures cs.attackSpeed == 0.0 ==> AttackSpeed(cs, level, items) == AttackSpeed(cs.(attackSpeed := 0.625), level, items)
  {
    assert GrowthMultiplier(18.0) == 17.0;
  }

  /** Attack speed does not fall as the level rises when the per-level
      growth is non-negative. */
  lemma AttackSpeedGrowth(cs: ChampionStats, l1: real, l2: real, items: seq<Item>)
    requires 1.0 <= l1 <= l2 && cs.attackSpeedPerLevel >= 0.0 && cs.attackSpeed >= 0.0
    ensures AttackSpeed(cs, l1, items) <= AttackSpeed(cs, l2, items)
  {
    var baseAS := if cs.attackSpeed != 0.0 then cs.attackSpeed else 0.625;
    BaseStatGrowth(0.0, cs.attackSpeedPerLevel, l1, l2);
    var lb1 := cs.attackSpeedPerLevel * GrowthMultiplier(l1) / 100.0;
    var lb2 := cs.attackSpeedPerLevel * GrowthMultiplier(l2) / 100.0;
    var ib := SumStat(items, "attackSpeed") / 100.0;
    assert lb1 <= lb2;
    MulMono(baseAS, 1.0 + lb1 + ib, 1.0 + lb2 + ib);
  }

  /** `0 <= c` and `x <= y` give `c * x <= c * y`. */
  lemma MulMono(c: real, x: real, y: real)
    requires 0.0 <= c && x <= y
    ensures c * x <= c * y
  {
    assert c * y - c * x == c * (y - x);
  }

  /** Each further item adds its percentage of the base attack speed, not
      of the running total. */
  lemma AttackSpeedItemAdds(cs: ChampionStats, level: real, items: seq<Item>, it: Item)
    ensures var baseAS := if cs.attackSpeed != 0.0 then cs.attackSpeed else 0.625;
      AttackSpeed(cs, level, items + [it]) == AttackSpeed(cs, level, items) + baseAS * ItemStat(it, "attackSpeed") / 100.0
  {
    assert (items + [it])[..|items + [it]| - 1] == items;
  }

  /** The stat totals before items, runes and buffs. */
  function BaseStats(cs: ChampionStats, level: real, items: seq<Item>): Stats {
    map[
      "health" := BaseStat(level, cs.health, cs.healthPerLevel),
      "mana" := BaseStat(level, cs.mana, cs.manaPerLevel),
      "armor" := BaseStat(level, cs.armor, cs.armorPerLevel),
      "magicResist" := BaseStat(level, cs.magicResist, cs.magicResistPerLevel),
      "attackDamage" := BaseStat(level, cs.attackDamage, cs.attackDamagePerLevel),
      "attackSpeed" := AttackSpeed(cs, level, items),
      "critChance" := BaseStat(level, cs.critChance, cs.critChancePerLevel),
      "healthRegen" := BaseStat(level, cs.healthRegen, cs.healthRegenPerLevel),
      "manaRegen" := BaseStat(level, cs.manaRegen, cs.manaRegenPerLevel),
      "movementSpeed" := cs.movementSpeed,
      "attackRange" := cs.attackRange,
      "abilityPower" := 0.0,
      "abilityHaste" := 0.0,
      "critDamage" := 175.0,
      "lethality" := 0.0,
      "armorPenetrationPercent" := 0.0,
      "magicPenetrationFlat" := 0.0,
      "magicPenetrationPercent" := 0.0,
      "lifeSteal" := 0.0,
      "omnivamp" := 0.0,
      "healAndShieldPower" := 0.0
    ]
  }

  // ---------------------------------------------------------------------
  // Items

  /** A key with `Percent` in it scales the stat named by the key with its
      first `Percent` removed. */
  predicate IsPercentKey(k: string) {
    Contains(k, "Percent") || EndsWith(k, "Percent")
  }

  function PercentBase(k: string): string {
    ReplaceFirst(k, "Percent", "")
  }

  /** One entry of an item's stats: unmapped keys are skipped, percentage
      keys multiply their base stat by `1 + value / 100` when the totals
      hold it (and do nothing otherwise), other keys are added. */
  function ApplyEntry(stats: Stats, k: string, v: real): Stats {
    if StartsWith(k, StatTable.UnmappedPrefix) then stats
    else if IsPercentKey(k) then Scale(stats, PercentBase(k), v)
    else Add(stats, k, v)
  }

  lemma ScaleIn(stats: Stats, b: string, v: real)
    requires b in stats
    ensures Scale(stats, b, v) == stats[b := Scaled(stats[b], v)]
  {
  }

  /** Scaling a stat the totals hold multiplies it. */
  lemma ScaleAt(stats: Stats, b: string, v: real, x: real)
    requires b in stats && stats[b] == x
    ensures StatOf(Scale(stats, b, v), b) == Scaled(x, v)
  {
  }

  /** `x * (1 + v / 100)`: `x` raised by `v` percent. */
  function Scaled(x: real, v: real): real {
    x * (1.0 + v / 100.0)
  }

  /** Raising by 0 percent changes nothing, raising a non-negative value
      by a non-negative percentage never lowers it, and lowering it by at
      most 100 percent leaves it between 0 and itself. */
  lemma ScaledBounds(x: real, v: real)
    ensures Scaled(x, 0.0) == x
    ensures x >= 0.0 && v >= 0.0 ==> Scaled(x, v) >= x
    ensures x >= 0.0 && -100.0 <= v <= 0.0 ==> 0.0 <= Scaled(x, v) <= x
  {
    if x >= 0.0 && v >= 0.0 {
      assert x * (v / 100.0) >= 0.0;
    }
    if x >= 0.0 && -100.0 <= v <= 0.0 {
      ScaleDown(x, 1.0 + v / 100.0);
    }
  }

  /** `if (stats[b] !== undefined) stats[b] *= (1 + v / 100)`. */
  function Scale(stats: Stats, b: string, v: real): Stats {
    if b in stats then stats[b := Scaled(stats[b], v)] else stats
  }

  /** The entries of one item's stats, in key order. */
  function ApplyEntries(stats: Stats, es: Entries<real>): Stats {
    if |es| == 0 then stats else ApplyEntry(ApplyEntries(stats, es[..|es| - 1]), es[|es| - 1].0, es[|es| - 1].1)
  }

  /** `applyItemPassives` for one passive: `Perfection` adds 35 to the crit
      damage, counting an absent or zero crit damage as 175. */
  function ApplyPassive(stats: Stats, p: Tag): Stats {
    if p.name == "Perfection" then
      var cd := StatOf(stats, "critDamage");
      stats["critDamage" := (if cd != 0.0 then cd else 175.0) + 35.0]
    else stats
  }

  function ApplyPassives(stats: Stats, ps: seq<Tag>): Stats {
    if |ps| == 0 then stats else ApplyPassive(ApplyPassives(stats, ps[..|ps| - 1]), ps[|ps| - 1])
  }

  /** One item: nothing when it has no stats object (its passives are then
      skipped too), else its entries and then its passives. */
  function ApplyItem(stats: Stats, item: Item): Stats {
    match item.stats
    case None => stats
    case Some(es) =>
      var s := ApplyEntries(stats, es);
      match item.passives
      case None => s
      case Some(ps) => ApplyPassives(s, ps)
  }

  /** `applyItemStats`: the items in order. */
  function ApplyItems(stats: Stats, items: seq<Item>): Stats {
    if |items| == 0 then stats else ApplyItem(ApplyItems(stats, items[..|items| - 1]), items[|items| - 1])
  }

  /** A key that is added rather than scaled or skipped. */
  predicate IsFlatKey(k: string) {
    !StartsWith(k, StatTable.UnmappedPrefix) && !IsPercentKey(k)
  }

  /** An item whose stats object has only flat keys. */
  predicate FlatItem(item: Item) {
    WellFormedItem(item) &&
    (item.stats.Some? ==> forall j :: 0 <= j < |item.stats.value| ==> IsFlatKey(item.stats.value[j].0))
  }

  /** `Get` on an object with one more entry. */
  lemma GetSnoc<V>(d: Entries<V>, x: (string, V), k: string)
    requires DistinctKeys(d + [x])
    ensures Get(d + [x], k) == if x.0 == k then Some(x.1) else Get(d, k)
  {
    var e := d + [x];
    assert forall j :: 0 <= j < |d| ==> e[j] == d[j];
    if x.0 == k {
      GetAt(e, |d|);
    } else if HasKey(d, k) {
      var i := Find(d, k);
      GetAt(e, i);
    } else {
      assert !HasKey(e, k) by {
        forall j | 0 <= j < |e| ensures e[j].0 != k {
          if j < |d| { assert e[j] == d[j]; }
        }
      }
    }
  }

  /** Flat entries with unique keys add each key's value once. */
  lemma {:induction false} FlatEntriesAdd(stats: Stats, es: Entries<real>, k: string)
    requires DistinctKeys(es)
    requires forall j :: 0 <= j < |es| ==> IsFlatKey(es[j].0)
    ensures StatOf(ApplyEntries(stats, es), k) == StatOf(stats, k) + Get(es, k).GetOr(0.0)
    decreases |es|
  {
    if |es| > 0 {
      var init := es[..|es| - 1];
      assert es == init + [es[|es| - 1]];
      assert forall j :: 0 <= j < |init| ==> init[j] == es[j];
      FlatEntriesAdd(stats, init, k);
      GetSnoc(init, es[|es| - 1], k);
      assert IsFlatKey(es[|es| - 1].0);
    }
  }

  /** For items with only flat keys, every flat stat other than the crit
      damage (which `Perfection` also changes) ends as its starting value
      plus the sum of the items' values. */
  lemma {:induction false} FlatItemsAdd(stats: Stats, items: seq<Item>, k: string)
    requires forall i :: 0 <= i < |items| ==> FlatItem(items[i])
    requires k != "critDamage"
    ensures StatOf(ApplyItems(stats, items), k) == StatOf(stats, k) + SumStat(items, k)
    decreases |items|
  {
    if |items| > 0 {
      var init := items[..|items| - 1];
      var last := items[|items| - 1];
      assert forall i :: 0 <= i < |init| ==> init[i] == items[i];
      FlatItemsAdd(stats, init, k);
      assert FlatItem(last);
      var s := ApplyItems(stats, init);
      if last.stats.Some? {
        FlatEntriesAdd(s, last.stats.value, k);
        if last.passives.Some? {
          PassivesKeep(ApplyEntries(s, last.stats.value), last.passives.value, k);
        }
      }
    }
  }

  /** Passives change nothing but the crit damage. */
  lemma {:induction false} PassivesKeep(stats: Stats, ps: seq<Tag>, k: string)
    requires k != "critDamage"
    ensures StatOf(ApplyPassives(stats, ps), k) == StatOf(stats, k)
    decreases |ps|
  {
    if |ps| > 0 {
      PassivesKeep(stats, ps[..|ps| - 1], k);
    }
  }

  /** Number of `Perfection` passives. */
  function CountPerfection(ps: seq<Tag>): nat {
    if |ps| == 0 then 0
    else CountPerfection(ps[..|ps| - 1]) + (if ps[|ps| - 1].name == "Perfection" then 1 else 0)
  }

  /** Every `Perfection` passive adds 35 to a positive crit damage. */
  lemma {:induction false} PerfectionStacks(stats: Stats, ps: seq<Tag>)
    requires StatOf(stats, "critDamage") > 0.0
    ensures StatOf(ApplyPassives(stats, ps), "critDamage") == StatOf(stats, "critDamage") + 35.0 * CountPerfection(ps) as real
    decreases |ps|
  {
    if |ps| > 0 {
      PerfectionStacks(stats, ps[..|ps| - 1]);
    }
  }

  /** A pattern whose first character does not occur in `s` is not in `s`. */
  lemma AbsentFirstChar(s: string, pat: string)
    requires |pat| > 0 && pat[0] !in s
    ensures !Contains(s, pat) && !EndsWith(s, pat)
  {
    forall j | 0 <= j <= |s| ensures !StartsWith(s[j..], pat) {
      if j < |s| { assert s[j..][0] == s[j]; }
    }
    ContainsIff(s, pat);
    if |pat| <= |s| {
      assert s[|s| - |pat|..][0] == s[|s| - |pat|];
    }
  }

  /** A stat name followed by `Percent` scales that stat, when its name has
      no `P` and does not start with the unmapped marker. */
  lemma PercentEntryScales(stats: Stats, b: string, v: real)
    requires 'P' !in b && !StartsWith(b + "Percent", StatTable.UnmappedPrefix)
    ensures ApplyEntry(stats, b + "Percent", v) == Scale(stats, b, v)
  {
    var k := b + "Percent";
    assert PercentBase(k) == b && IsPercentKey(k) by {
      forall j | 0 <= j < |b| ensures !StartsWith((b + "Percent" + "")[j..], "Percent") {
        assert (b + "Percent" + "")[j] == b[j];
      }
      ReplaceFirstAt(b, "Percent", "");
      assert b + "Percent" + "" == k;
      assert b + "" == b;
      assert StartsWith(k[|b|..], "Percent");
      ContainsIff(k, "Percent");
    }
  }

  /** Two entries are applied first to last. */
  lemma ApplyTwo(stats: Stats, x: (string, real), y: (string, real))
    ensures ApplyEntries(stats, [x, y]) == ApplyEntry(ApplyEntry(stats, x.0, x.1), y.0, y.1)
  {
    var es: Entries<real> := [x, y];
    assert es[..1] == [x] && es[..1][..0] == [];
    assert ApplyEntries(stats, es[..1]) == ApplyEntry(stats, x.0, x.1);
  }

  /** A plain stat name is added to, and its percentage key scales it. */
  lemma PlainAndPercentKeys(stats: Stats, b: string, flat: real, pct: real)
    requires |b| > 0 && b[0] != '_' && 'P' !in b
    ensures ApplyEntry(stats, b, flat) == Add(stats, b, flat)
    ensures ApplyEntry(stats, b + "Percent", pct) == Scale(stats, b, pct)
  {
    var p := b + "Percent";
    assert StatTable.UnmappedPrefix[0] == '_';
    assert p[0] == b[0];
    AbsentFirstChar(b, "Percent");
    PercentEntryScales(stats, b, pct);
  }

  /** The order of an item's entries matters: a flat bonus listed before
      the percentage bonus of the same stat is scaled by it, one listed
      after it is not. */
  lemma EntryOrderMatters(stats: Stats, b: string, flat: real, pct: real)
    requires |b| > 0 && b[0] != '_' && 'P' !in b && b in stats
    ensures StatOf(ApplyEntries(stats, [(b, flat), (b + "Percent", pct)]), b) == Scaled(stats[b] + flat, pct)
    ensures StatOf(ApplyEntries(stats, [(b + "Percent", pct), (b, flat)]), b) == Scaled(stats[b], pct) + flat
  {
    FlatThenPercentAt(stats, b, flat, pct, stats[b]);
    PercentThenFlat(stats, b, flat, pct);
  }

  lemma FlatThenPercentAt(stats: Stats, b: string, flat: real, pct: real, x: real)
    requires |b| > 0 && b[0] != '_' && 'P' !in b && b in stats && stats[b] == x
    ensures StatOf(ApplyEntries(stats, [(b, flat), (b + "Percent", pct)]), b) == Scaled(x + flat, pct)
  {
    FlatThenPercentEntries(stats, b, flat, pct);
    var s1 := Add(stats, b, flat);
    assert b in s1 && s1[b] == x + flat;
    ScaleAt(s1, b, pct, x + flat);
  }

  lemma FlatThenPercentEntries(stats: Stats, b: string, flat: real, pct: real)
    requires |b| > 0 && b[0] != '_' && 'P' !in b
    ensures ApplyEntries(stats, [(b, flat), (b + "Percent", pct)]) == Scale(Add(stats, b, flat), b, pct)
  {
    var p := b + "Percent";
    ApplyTwo(stats, (b, flat), (p, pct));
    PlainAndPercentKeys(stats, b, flat, pct);
    var s1 := ApplyEntry(stats, b, flat);
    PlainAndPercentKeys(s1, b, flat, pct);
  }

  lemma PercentThenFlat(stats: Stats, b: string, flat: real, pct: real)
    requires |b| > 0 && b[0] != '_' && 'P' !in b && b in stats
    ensures StatOf(ApplyEntries(stats, [(b + "Percent", pct), (b, flat)]), b) == Scaled(stats[b], pct) + flat
  {
    var p := b + "Percent";
    ApplyTwo(stats, (p, pct), (b, flat));
    PlainAndPercentKeys(stats, b, flat, pct);
    ScaleIn(stats, b, pct);
    var s2 := Scale(stats, b, pct);
    assert s2[b] == Scaled(stats[b], pct);
    PlainAndPercentKeys(s2, b, flat, pct);
    var r := ApplyEntries(stats, [(p, pct), (b, flat)]);
    assert r == s2[b := s2[b] + flat];
  }

  /** A stat name whose only `P` starts a capitalised word other than
      `Percent` (its next-but-one letter is not `r`) keeps its whole name
      as the base of its percentage key. */
  lemma PercentAfterP(a: string, e: string)
    requires 'P' !in a && 'P' !in e && |e| >= 2 && e[1] != 'r'
    ensures IsPercentKey(a + "P" + e + "Percent")
    ensures PercentBase(a + "P" + e + "Percent") == a + "P" + e
  {
    var p := a + "P" + e;
    var t := p + "Percent" + "";
    forall j | 0 <= j < |p| ensures !StartsWith(t[j..], "Percent") {
      if j < |a| {
        assert t[j] == a[j];
      } else if j == |a| {
        assert t[j..][2] == e[1];
      } else {
        assert t[j] == e[j - |a| - 1];
      }
    }
    ReplaceFirstAt(p, "Percent", "");
    assert t == p + "Percent";
    assert p + "" == p;
    ContainsIff(t, "Percent");
    assert StartsWith(t[|p|..], "Percent");
  }

  /** How `armorPenetrationPercent` is spelt around its one `P`. */
  lemma ArmorPenSpelling()
    ensures "enetration"[1] == 'n' && 'P' !in "armor" && 'P' !in "enetration"
    ensures "armor" + "P" + "enetration" == "armorPenetration"
    ensures "armor" + "P" + "enetration" + "Percent" == "armorPenetrationPercent"
  {
  }

  /** An item's `armorPenetrationPercent` never reaches the stat totals:
      it names the base stat `armorPenetration`, which the totals do not
      hold, so the entry is skipped. */
  lemma ArmorPenPercentIgnored(stats: Stats, v: real)
    requires "armorPenetration" !in stats
    ensures ApplyEntry(stats, "armorPenetrationPercent", v) == stats
  {
    ArmorPenSpelling();
    PercentAfterP("armor", "enetration");
    assert !StartsWith("armorPenetrationPercent", StatTable.UnmappedPrefix) by {
      assert "armorPenetrationPercent"[0] != StatTable.UnmappedPrefix[0];
    }
  }

  /** The base totals of the stats the lemmas below read. */
  lemma BaseStatsAt(cs: ChampionStats, level: real, items: seq<Item>)
    ensures var b := BaseStats(cs, level, items);
      StatOf(b, "attackSpeed") == AttackSpeed(cs, level, items) &&
      StatOf(b, "attackDamage") == BaseStat(level, cs.attackDamage, cs.attackDamagePerLevel) &&
      StatOf(b, "health") == BaseStat(level, cs.health, cs.healthPerLevel) &&
      StatOf(b, "critDamage") == 175.0 &&
      StatOf(b, "abilityHaste") == 0.0
  {
  }

  /** The base totals indeed have no `armorPenetration`. */
  lemma BaseStatsLackArmorPen(cs: ChampionStats, level: real, items: seq<Item>)
    ensures "armorPenetration" !in BaseStats(cs, level, items)
    ensures "armorPenetrationPercent" in BaseStats(cs, level, items)
  {
  }

  /** For items with only flat keys, an item's attack speed is counted
      twice: once as a percentage inside the base attack speed and once
      more as a flat addition to it. */
  lemma AttackSpeedCountedTwice(cs: ChampionStats, level: real, items: seq<Item>)
    requires forall i :: 0 <= i < |items| ==> FlatItem(items[i])
    ensures StatOf(ApplyItems(BaseStats(cs, level, items), items), "attackSpeed")
         == AttackSpeed(cs, level, items) + SumStat(items, "attackSpeed")
  {
    FlatItemsAdd(BaseStats(cs, level, items), items, "attackSpeed");
    BaseStatsAt(cs, level, items);
  }

  // ---------------------------------------------------------------------
  // Rune stat shards

  /** Adaptive force: 5.4 attack damage when it exceeds ability power,
      otherwise 9 ability power. */
  function Adaptive(stats: Stats): Stats {
    if StatOf(stats, "attackDamage") > StatOf(stats, "abilityPower") then Add(stats, "attackDamage", 5.4)
    else Add(stats, "abilityPower", 9.0)
  }

  function ApplyOffense(stats: Stats, shard: Option<string>): Stats {
    if shard == Some("adaptiveForce") then Adaptive(stats)
    else if shard == Some("attackSpeed") then stats["attackSpeed" := StatOf(stats, "attackSpeed") * 1.10]
    else if shard == Some("abilityHaste") then Add(stats, "abilityHaste", 8.0)
    else stats
  }

  function ApplyFlex(stats: Stats, shard: Option<string>): Stats {
    if shard == Some("adaptiveForce") then Adaptive(stats)
    else if shard == Some("movementSpeed") then Add(stats, "movementSpeed", 2.0)
    else stats
  }

  /** The health shard: 15 at level 1 growing linearly to 155 at level 18. */
  function HealthShard(level: real): real {
    15.0 + 140.0 * (level - 1.0) / 17.0
  }

  function ApplyDefense(stats: Stats, shard: Option<string>, level: real): Stats {
    if shard == Some("health") then Add(stats, "health", HealthShard(level))
    else if shard == Some("armor") then Add(stats, "armor", 6.0)
    else if shard == Some("magicResist") then Add(stats, "magicResist", 8.0)
    else stats
  }

  /** `applyRuneStats`: the offense shard, then the flex shard (which sees
      the offense shard's effect), then the defense shard. */
  function ApplyShards(stats: Stats, shards: StatShards, level: real): Stats {
    ApplyDefense(ApplyFlex(ApplyOffense(stats, shards.offense), shards.flex), shards.defense, level)
  }

  datatype StatShards = StatShards(offense: Option<string>, flex: Option<string>, defense: Option<string>)

  /** The health shard gives 15 at level 1, 155 at level 18, and grows with
      the level. */
  lemma HealthShardRange(l1: real, l2: real)
    ensures HealthShard(1.0) == 15.0 && HealthShard(18.0) == 155.0
    ensures l1 <= l2 ==> HealthShard(l1) <= HealthShard(l2)
  {
  }

  /** Two adaptive shards go to the same stat: the flex shard's comparison
      sees the offense shard's bonus, which only widens the lead of the
      stat it went to. */
  lemma DoubleAdaptive(stats: Stats, level: real)
    ensures var r := ApplyShards(stats, StatShards(Some("adaptiveForce"), Some("adaptiveForce"), None), level);
      if StatOf(stats, "attackDamage") > StatOf(stats, "abilityPower")
      then r == stats["attackDamage" := StatOf(stats, "attackDamage") + 10.8]
      else r == stats["abilityPower" := StatOf(stats, "abilityPower") + 18.0]
  {
    var s1 := ApplyOffense(stats, Some("adaptiveForce"));
    if StatOf(stats, "attackDamage") > StatOf(stats, "abilityPower") {
      assert StatOf(s1, "attackDamage") == StatOf(stats, "attackDamage") + 5.4;
      assert StatOf(s1, "abilityPower") == StatOf(stats, "abilityPower");
    } else {
      assert StatOf(s1, "abilityPower") == StatOf(stats, "abilityPower") + 9.0;
      assert StatOf(s1, "attackDamage") == StatOf(stats, "attackDamage");
    }
  }

  /** Shards the engine does not know, and absent ones, change nothing. */
  lemma UnknownShardsNoop(stats: Stats, shards: StatShards, level: real)
    requires shards.offense !in {Some("adaptiveForce"), Some("attackSpeed"), Some("abilityHaste")}
    requires shards.flex !in {Some("adaptiveForce"), Some("movementSpeed")}
    requires shards.defense !in {Some("health"), Some("armor"), Some("magicResist")}
    ensures ApplyShards(stats, shards, level) == stats
  {
  }

  // ---------------------------------------------------------------------
  // Buffs

  datatype Buffs = Buffs(baron: bool, elderDragon: bool, dragonSoul: Option<string>, dragonStacks: real)

  /** `applyDragonStats`: per stack 4 attack damage, 6 ability power, 3
      armor and 3 magic resist. */
  function ApplyDragonStats(stats: Stats, stacks: real): Stats {
    Add(Add(Add(Add(stats, "attackDamage", stacks * 4.0), "abilityPower", stacks * 6.0), "armor", stacks * 3.0), "magicResist", stacks * 3.0)
  }

  /** `applyBuffs`: Baron gives 25 attack damage and 40 ability power;
      a positive number of dragon stacks adds the dragon stats. */
  function ApplyBuffs(stats: Stats, buffs: Buffs): Stats {
    var s := if buffs.baron then Add(Add(stats, "attackDamage", 25.0), "abilityPower", 40.0) else stats;
    if buffs.dragonStacks > 0.0 then ApplyDragonStats(s, buffs.dragonStacks) else s
  }

  /** The dragon stats of four distinct stat names, one addition each. */
  function AddFour(stats: Stats, k1: string, k2: string, k3: string, k4: string, s: real): Stats {
    Add(Add(Add(Add(stats, k1, s * 4.0), k2, s * 6.0), k3, s * 3.0), k4, s * 3.0)
  }

  /** One stat after the four additions. */
  lemma AddFourAt(stats: Stats, k1: string, k2: string, k3: string, k4: string, s: real, j: string)
    requires k1 != k2 && k1 != k3 && k1 != k4 && k2 != k3 && k2 != k4 && k3 != k4
    ensures j in AddFour(stats, k1, k2, k3, k4, s) <==> j in stats || j == k1 || j == k2 || j == k3 || j == k4
    ensures StatOf(AddFour(stats, k1, k2, k3, k4, s), j) ==
      StatOf(stats, j) + (if j == k1 then s * 4.0 else if j == k2 then s * 6.0 else if j == k3 || j == k4 then s * 3.0 else 0.0)
  {
  }

  /** Adding the dragon stats for `a` and then `b` stacks adds them for
      `a + b`, whatever the four stat names, as long as they differ. */
  lemma AddFourTwice(stats: Stats, k1: string, k2: string, k3: string, k4: string, a: real, b: real)
    requires k1 != k2 && k1 != k3 && k1 != k4 && k2 != k3 && k2 != k4 && k3 != k4
    ensures AddFour(AddFour(stats, k1, k2, k3, k4, a), k1, k2, k3, k4, b) == AddFour(stats, k1, k2, k3, k4, a + b)
  {
    var m := AddFour(stats, k1, k2, k3, k4, a);
    var l, r := AddFour(m, k1, k2, k3, k4, b), AddFour(stats, k1, k2, k3, k4, a + b);
    forall j
      ensures j in l <==> j in r
      ensures j in l ==> l[j] == r[j]
    {
      AddFourAt(stats, k1, k2, k3, k4, a, j);
      AddFourAt(m, k1, k2, k3, k4, b, j);
      AddFourAt(stats, k1, k2, k3, k4, a + b, j);
    }
  }

  /** Dragon stacks add up: applying `a` and then `b` stacks is applying
      `a + b`. */
  lemma DragonStacksAdd(stats: Stats, a: real, b: real)
    ensures ApplyDragonStats(ApplyDragonStats(stats, a), b) == ApplyDragonStats(stats, a + b)
  {
    var k1, k2, k3, k4 := "attackDamage", "abilityPower", "armor", "magicResist";
    assert k1[1] != k2[1] && k1[1] != k3[1] && k1[1] != k4[1];
    assert k2[1] != k3[1] && k2[1] != k4[1] && k3[0] != k4[0];
    AddFourTwice(stats, k1, k2, k3, k4, a, b);
  }

  /** Without Baron and dragon stacks the buffs change nothing; the elder
      dragon and the dragon soul have no stat effect. */
  lemma NoBuffsNoop(stats: Stats, buffs: Buffs)
    requires !buffs.baron && buffs.dragonStacks <= 0.0
    ensures ApplyBuffs(stats, buffs) == stats
  {
  }

  // ---------------------------------------------------------------------
  // Derived values

  /** A JavaScript division whose result may be infinite or NaN. */
  datatype Quotient = Finite(value: real) | NonFinite

  /** `abilityHasteToCDR`: `ah / (ah + 100) * 100`, non-finite at -100. */
  function AbilityHasteToCDR(ah: real): Quotient {
    if ah + 100.0 == 0.0 then NonFinite else Finite(ah / (ah + 100.0) * 100.0)
  }

  /** `baseCooldown * (100 / (100 + ah))`. */
  function Cooldown(baseCooldown: real, ah: real): Quotient {
    if 100.0 + ah == 0.0 then NonFinite else Finite(baseCooldown * (100.0 / (100.0 + ah)))
  }

  /** Non-negative ability haste gives a cooldown reduction in [0, 100)
      that grows with the haste, and the cooldown formula shortens the
      cooldown by exactly that percentage; 100 haste halves it. */
  lemma CooldownReduction(ah: real, ah2: real, baseCooldown: real)
    requires 0.0 <= ah <= ah2
    ensures AbilityHasteToCDR(ah).Finite? && 0.0 <= AbilityHasteToCDR(ah).value < 100.0
    ensures AbilityHasteToCDR(ah).value <= AbilityHasteToCDR(ah2).value
    ensures Cooldown(baseCooldown, ah) == Finite(baseCooldown * (1.0 - AbilityHasteToCDR(ah).value / 100.0))
    ensures Cooldown(baseCooldown, 100.0) == Finite(baseCooldown / 2.0)
  {
    var c := AbilityHasteToCDR(ah).value;
    assert c == 100.0 - 100.0 * 100.0 / (ah + 100.0);
    assert AbilityHasteToCDR(ah2).value == 100.0 - 100.0 * 100.0 / (ah2 + 100.0);
    var x, y := 100.0 / (ah + 100.0), 100.0 / (ah2 + 100.0);
    assert y <= x by {
      assert (ah + 100.0) * x == 100.0;
      assert (ah2 + 100.0) * y == 100.0;
      assert x > 0.0;
      assert x * (ah2 + 100.0) >= x * (ah + 100.0);
      assert (x - y) * (ah2 + 100.0) == x * (ah2 + 100.0) - y * (ah2 + 100.0);
      assert (x - y) * (ah2 + 100.0) >= 0.0;
    }
  }

  datatype EffectiveHealth = EffectiveHealth(physical: real, magical: real)

  /** `calculateEffectiveHealth`: health scaled by `1 + resistance / 100`. */
  function EffectiveHealthOf(stats: Stats): EffectiveHealth {
    var h := StatOf(stats, "health");
    EffectiveHealth(h * (1.0 + StatOf(stats, "armor") / 100.0), h * (1.0 + StatOf(stats, "magicResist") / 100.0))
  }

  /** Effective health is the health with no resistances and twice it with
      100 of each; each resistance point adds one percent of health. */
  lemma EffectiveHealthScale(stats: Stats)
    ensures EffectiveHealthOf(stats).physical == StatOf(stats, "health") + StatOf(stats, "health") * StatOf(stats, "armor") / 100.0
    ensures EffectiveHealthOf(stats).magical == StatOf(stats, "health") + StatOf(stats, "health") * StatOf(stats, "magicResist") / 100.0
    ensures StatOf(stats, "armor") == 100.0 ==> EffectiveHealthOf(stats).physical == 2.0 * StatOf(stats, "health")
  {
  }

  // ---------------------------------------------------------------------
  // Damage

  function Max(a: real, b: real): real {
    if a >= b then a else b
  }

  /** The armor left after percentage reduction, percentage penetration,
      lethality scaled by the target level, and flat penetration. */
  function EffectiveArmor(targetArmor: real, percentReduction: real, percentPen: real, lethality: real, flatPen: real, targetLevel: real): (r: real)
    ensures r >= 0.0
  {
    var e0 := Max(0.0, targetArmor * (1.0 - percentReduction / 100.0));
    var e1 := e0 * (1.0 - percentPen / 100.0);
    var e2 := if lethality != 0.0 then Max(0.0, e1 - lethality * (0.6 + 0.4 * targetLevel / 18.0)) else e1;
    Max(0.0, e2 - flatPen)
  }

  /** The magic resist left after percentage and flat penetration. */
  function EffectiveMagicResist(targetMR: real, percentPen: real, flatPen: real): (r: real)
    ensures r >= 0.0
  {
    Max(0.0, targetMR * (1.0 - percentPen / 100.0) - flatPen)
  }

  /** Damage after a non-negative resistance: `raw * 100 / (100 + resistance)`. */
  function Mitigate(raw: real, resistance: real): real
    requires resistance >= 0.0
  {
    raw * (100.0 / (100.0 + resistance))
  }

  /** Mitigated non-negative damage lies between 0 and the raw damage; it
      is the raw damage at resistance 0, half of it at 100, and shrinks as
      the resistance grows. */
  lemma MitigateBounds(raw: real, r1: real, r2: real)
    requires 0.0 <= r1 <= r2
    ensures Mitigate(raw, 0.0) == raw
    ensures Mitigate(raw, 100.0) == raw / 2.0
    ensures raw >= 0.0 ==> 0.0 <= Mitigate(raw, r2) <= Mitigate(raw, r1) <= raw
  {
    assert 100.0 / (100.0 + r2) <= 100.0 / (100.0 + r1) <= 1.0 by {
      assert (100.0 + r1) * (100.0 / (100.0 + r1)) == 100.0;
      assert (100.0 + r2) * (100.0 / (100.0 + r2)) == 100.0;
    }
    if raw >= 0.0 {
      assert raw * (100.0 / (100.0 + r2)) <= raw * (100.0 / (100.0 + r1));
      assert raw * (100.0 / (100.0 + r1)) <= raw * 1.0;
    }
  }

  /** `calculatePhysicalDamage` with the engine's penetration: lethality and
      percentage penetration from the items, no reduction and no flat
      penetration. */
  function PhysicalDamage(raw: real, targetArmor: real, targetLevel: real, lethality: real, percentPen: real): real {
    Mitigate(raw, EffectiveArmor(targetArmor, 0.0, percentPen, lethality, 0.0, targetLevel))
  }

  /** `calculateMagicDamage` with the items' flat and percentage magic
      penetration. */
  function MagicDamage(raw: real, targetMR: real, flatPen: real, percentPen: real): real {
    Mitigate(raw, EffectiveMagicResist(targetMR, percentPen, flatPen))
  }

  /** With non-negative lethality and target level: against no armor the
      damage is the raw damage; against 100 armor and no penetration it is
      halved; and penetration of at most 100 percent never leaves more
      armor than the target has. */
  lemma PhysicalDamageFacts(raw: real, targetArmor: real, targetLevel: real, lethality: real, percentPen: real)
    requires lethality >= 0.0 && targetLevel >= 0.0
    ensures PhysicalDamage(raw, 0.0, targetLevel, lethality, percentPen) == raw
    ensures PhysicalDamage(raw, 100.0, targetLevel, 0.0, 0.0) == raw / 2.0
    ensures targetArmor >= 0.0 && 0.0 <= percentPen <= 100.0 ==>
      EffectiveArmor(targetArmor, 0.0, percentPen, lethality, 0.0, targetLevel) <= targetArmor
  {
    MitigateBounds(raw, 0.0, 100.0);
    var f := 0.6 + 0.4 * targetLevel / 18.0;
    assert lethality * f >= 0.0;
    assert EffectiveArmor(0.0, 0.0, percentPen, lethality, 0.0, targetLevel) == 0.0;
    assert EffectiveArmor(100.0, 0.0, 0.0, 0.0, 0.0, targetLevel) == 100.0;
    if targetArmor >= 0.0 && 0.0 <= percentPen <= 100.0 {
      ScaleDown(targetArmor, 1.0 - percentPen / 100.0);
    }
  }

  /** A non-negative value scaled by a factor between 0 and 1 stays
      between 0 and itself. */
  lemma ScaleDown(x: real, q: real)
    requires x >= 0.0 && 0.0 <= q <= 1.0
    ensures 0.0 <= x * q <= x
  {
  }

  /** More lethality never leaves more armor. */
  lemma LethalityMonotone(targetArmor: real, percentPen: real, l1: real, l2: real, targetLevel: real)
    requires 0.0 <= l1 <= l2 && targetLevel >= 0.0
    ensures EffectiveArmor(targetArmor, 0.0, percentPen, l2, 0.0, targetLevel) <= EffectiveArmor(targetArmor, 0.0, percentPen, l1, 0.0, targetLevel)
  {
    var f := 0.6 + 0.4 * targetLevel / 18.0;
    assert l1 * f <= l2 * f;
  }

  /** With non-negative flat penetration: against no magic resist the
      damage is the raw damage; against 100 magic resist and no
      penetration it is halved; non-negative damage is never increased. */
  lemma MagicDamageFacts(raw: real, targetMR: real, flatPen: real, percentPen: real)
    requires flatPen >= 0.0
    ensures MagicDamage(raw, 0.0, flatPen, percentPen) == raw
    ensures MagicDamage(raw, 100.0, 0.0, 0.0) == raw / 2.0
    ensures raw >= 0.0 ==> 0.0 <= MagicDamage(raw, targetMR, flatPen, percentPen) <= raw
  {
    MitigateBounds(raw, 0.0, 100.0);
    MitigateBounds(raw, 0.0, EffectiveMagicResist(targetMR, percentPen, flatPen));
  }

  /** The expected damage factor of critical strikes. */
  function CritMultiplier(critChance: real, critDamage: real): real {
    1.0 + critChance / 100.0 * (critDamage / 100.0 - 1.0)
  }

  /** No crit chance leaves the damage as is; full crit chance multiplies
      it by the crit damage percentage. */
  lemma CritMultiplierEnds(critDamage: real)
    ensures CritMultiplier(0.0, critDamage) == 1.0
    ensures CritMultiplier(100.0, critDamage) == critDamage / 100.0
  {
  }

  /** `calculateAutoAttackDPS` on given final totals: mitigated attack
      damage, times the crit factor, times attack speed. */
  function Dps(stats: Stats, targetArmor: real, targetLevel: real, lethality: real, percentPen: real): real {
    PhysicalDamage(StatOf(stats, "attackDamage"), targetArmor, targetLevel, lethality, percentPen)
      * CritMultiplier(StatOf(stats, "critChance"), StatOf(stats, "critDamage"))
      * StatOf(stats, "attackSpeed")
  }

  /** With crit chance between 0 and 100 percent and crit damage of at
      least 100 percent, the crit factor lies between 1 and the crit damage
      percentage. */
  lemma CritMultiplierBounds(critChance: real, critDamage: real)
    requires 0.0 <= critChance <= 100.0 && critDamage >= 100.0
    ensures 1.0 <= CritMultiplier(critChance, critDamage) <= critDamage / 100.0
  {
    var c, d := critChance / 100.0, critDamage / 100.0 - 1.0;
    assert 0.0 <= c <= 1.0 && d >= 0.0;
    assert 0.0 <= c * d <= d;
  }

  /** For non-negative attack damage and attack speed, a crit chance
      between 0 and 100 and a crit damage of at least 100, with the item
      penetration the engine passes: the DPS is never negative and never
      more than the unmitigated attack damage times the crit factor times
      the attack speed; with no crit chance it is the mitigated attack
      damage times the attack speed. */
  lemma DpsBounds(stats: Stats, targetArmor: real, targetLevel: real, lethality: real, percentPen: real)
    requires StatOf(stats, "attackDamage") >= 0.0 && StatOf(stats, "attackSpeed") >= 0.0
    requires 0.0 <= StatOf(stats, "critChance") <= 100.0 && StatOf(stats, "critDamage") >= 100.0
    ensures var ad, asp := StatOf(stats, "attackDamage"), StatOf(stats, "attackSpeed");
      var c := CritMultiplier(StatOf(stats, "critChance"), StatOf(stats, "critDamage"));
      0.0 <= Dps(stats, targetArmor, targetLevel, lethality, percentPen) <= ad * c * asp
    ensures StatOf(stats, "critChance") == 0.0 ==>
      Dps(stats, targetArmor, targetLevel, lethality, percentPen) ==
        PhysicalDamage(StatOf(stats, "attackDamage"), targetArmor, targetLevel, lethality, percentPen) * StatOf(stats, "attackSpeed")
  {
    var ad, asp := StatOf(stats, "attackDamage"), StatOf(stats, "attackSpeed");
    var c := CritMultiplier(StatOf(stats, "critChance"), StatOf(stats, "critDamage"));
    var m := PhysicalDamage(ad, targetArmor, targetLevel, lethality, percentPen);
    MitigateBounds(ad, 0.0, EffectiveArmor(targetArmor, 0.0, percentPen, lethality, 0.0, targetLevel));
    CritMultiplierBounds(StatOf(stats, "critChance"), StatOf(stats, "critDamage"));
    ProductBounds(m, ad, c, asp);
    CritMultiplierEnds(StatOf(stats, "critDamage"));
  }

  /** Scaling `0 <= m <= a` by factors `c >= 1` and `s >= 0`. */
  lemma ProductBounds(m: real, a: real, c: real, s: real)
    requires 0.0 <= m <= a && c >= 1.0 && s >= 0.0
    ensures 0.0 <= m * c * s <= a * c * s
  {
    assert 0.0 <= m * c <= a * c;
  }

  /** 100 attack damage against 50 armor, no crit, 1.25 attacks per second:
      about 83.3 damage per second. */
  lemma DpsOneHundredAttackDamage(stats: Stats, targetLevel: real)
    requires StatOf(stats, "attackDamage") == 100.0 && StatOf(stats, "critChance") == 0.0 && StatOf(stats, "attackSpeed") == 1.25
    ensures Dps(stats, 50.0, targetLevel, 0.0, 0.0) == 250.0 / 3.0
  {
  }

  // ---------------------------------------------------------------------
  // The calculator object

  datatype Runes = Runes(keystone: Option<string>, primaryTree: seq<string>, secondaryTree: seq<string>, statShards: StatShards)

  const NoRunes := Runes(None, [], [], StatShards(None, None, None))
  const NoBuffs := Buffs(false, false, None, 0.0)
  const MaxItems := 6

  /** The final totals with the derived values `calculateFinalStats` adds. */
  datatype FinalStats = FinalStats(stats: Stats, cooldownReduction: Quotient, effectiveHealth: EffectiveHealth)

  /** `calculateFinalStats` as a function of the calculator's state: base
      stats, then items, then rune shards, then buffs, then the derived
      values. */
  function FinalStatsOf(champion: Champion, level: real, items: seq<Item>, runes: Runes, buffs: Buffs): FinalStats {
    var s := ApplyBuffs(ApplyShards(ApplyItems(BaseStats(champion.stats, level, items), items), runes.statShards, level), buffs);
    FinalStats(s, AbilityHasteToCDR(StatOf(s, "abilityHaste")), EffectiveHealthOf(s))
  }

  /** A fresh calculator reports the champion's level-1 base stats: its
      attack damage, 175 crit damage and its base attack speed, with no
      ability haste and so no cooldown reduction. */
  lemma FreshCalculatorStats(champion: Champion)
    requires champion.stats.attackSpeed != 0.0
    ensures var f := FinalStatsOf(champion, 1.0, [], NoRunes, NoBuffs);
      f.stats == BaseStats(champion.stats, 1.0, []) &&
      StatOf(f.stats, "attackDamage") == champion.stats.attackDamage &&
      StatOf(f.stats, "health") == champion.stats.health &&
      StatOf(f.stats, "critDamage") == 175.0 &&
      StatOf(f.stats, "attackSpeed") == champion.stats.attackSpeed &&
      f.cooldownReduction == Finite(0.0)
  {
    var b := BaseStats(champion.stats, 1.0, []);
    assert ApplyItems(b, []) == b;
    UnknownShardsNoop(b, NoRunes.statShards, 1.0);
    NoBuffsNoop(b, NoBuffs);
    assert FinalStatsOf(champion, 1.0, [], NoRunes, NoBuffs).stats == b;
    BaseStatsAt(champion.stats, 1.0, []);
    assert AbilityHasteToCDR(0.0) == Finite(0.0);
    BaseStatGrowth(champion.stats.attackDamage, champion.stats.attackDamagePerLevel, 1.0, 1.0);
    BaseStatGrowth(champion.stats.health, champion.stats.healthPerLevel, 1.0, 1.0);
    AttackSpeedAtLevelOne(champion.stats, []);
  }

  /** `Math.max(1, Math.min(18, level))`. */
  function Clamp(level: real): (r: real)
    ensures 1.0 <= r <= 18.0
    ensures 1.0 <= level <= 18.0 ==> r == level
    ensures level < 1.0 ==> r == 1.0
    ensures level > 18.0 ==> r == 18.0
  {
    Max(1.0, if level <= 18.0 then level else 18.0)
  }

  /** The argument of `removeItem`: its `id` and `name` properties, `None`
      where the argument has none (as a bare id string has neither). */
  datatype ItemQuery = ItemQuery(id: Option<string>, name: Option<string>)

  /** `item.id === itemData.id || item.name === itemData.name`; two
      missing properties are equal. */
  predicate Matches(item: Item, q: ItemQuery) {
    item.id == q.id || item.name == q.name
  }

  /** `findIndex` of the first matching item, or -1. */
  function FirstMatch(items: seq<Item>, q: ItemQuery): (r: int)
    ensures -1 <= r < |items|
    ensures r >= 0 ==> Matches(items[r], q) && forall j :: 0 <= j < r ==> !Matches(items[j], q)
    ensures r == -1 ==> forall j :: 0 <= j < |items| ==> !Matches(items[j], q)
  {
    if |items| == 0 then -1
    else if Matches(items[0], q) then 0
    else
      var r := FirstMatch(items[1..], q);
      if r < 0 then
        assert forall j :: 1 <= j < |items| ==> items[j] == items[1..][j - 1];
        -1
      else r + 1
  }

  /** An argument with neither `id` nor `name` (what a bare id string
      gives) matches only items lacking one of them, so it removes nothing
      from items that have both. */
  lemma BareIdMatchesNothing(items: seq<Item>)
    requires forall j :: 0 <= j < |items| ==> items[j].id.Some? && items[j].name.Some?
    ensures FirstMatch(items, ItemQuery(None, None)) == -1
  {
  }

  /** `runeIds.slice(0, n)`. */
  function Take(s: seq<string>, n: nat): (r: seq<string>)
    ensures |r| == (if |s| <= n then |s| else n)
    ensures r == s[..|r|]
  {
    if |s| <= n then s else s[..n]
  }

  /** The callback `applyItemStats` runs on each `[statName, value]` entry
      of an item: unmapped keys are skipped, a percentage key multiplies
      its base stat when the totals have it, any other key is added to. */
  method ApplyStatEntry(stats0: Stats, statName: string, value: real) returns (stats: Stats)
    ensures stats == ApplyEntry(stats0, statName, value)
  {
    stats := stats0;
    if StartsWith(statName, StatTable.UnmappedPrefix) {
    } else if Contains(statName, "Percent") || EndsWith(statName, "Percent") {
      var baseStat := ReplaceFirst(statName, "Percent", "");
      assert baseStat == PercentBase(statName);
      if baseStat in stats {
        var scaled := Scaled(stats[baseStat], value);
        stats := stats[baseStat := scaled];
        ScaleIn(stats0, baseStat, value);
      }
    } else if statName in stats {
      stats := stats[statName := stats[statName] + value];
    } else {
      stats := stats[statName := 0.0 + value];
    }
  }

  class ChampionCalculator {
    const champion: Champion
    var level: real
    var items: seq<Item>
    var runes: Runes
    var buffs: Buffs

    /** The level stays in [1, 18] and at most six items are held. */
    ghost predicate Valid()
      reads this
    {
      1.0 <= level <= 18.0 && |items| <= MaxItems
    }

    constructor(championData: Champion)
      ensures champion == championData && level == 1.0 && items == [] && runes == NoRunes && buffs == NoBuffs
      ensures Valid()
    {
      champion := championData;
      level := 1.0;
      items := [];
      runes := NoRunes;
      buffs := NoBuffs;
    }

    method SetLevel(newLevel: real)
      modifies this
      ensures level == Clamp(newLevel)
      ensures items == old(items) && runes == old(runes) && buffs == old(buffs)
      ensures old(Valid()) ==> Valid()
    {
      level := Clamp(newLevel);
    }

    /** Appends the item unless six are held already. */
    method AddItem(itemData: Item) returns (added: bool)
      modifies this
      ensures added <==> |old(items)| < MaxItems
      ensures items == (if added then old(items) + [itemData] else old(items))
      ensures level == old(level) && runes == old(runes) && buffs == old(buffs)
      ensures old(Valid()) ==> Valid()
    {
      if |items| >= MaxItems {
        return false;
      }
      items := items + [itemData];
      return true;
    }

    /** Removes the first item with the argument's id or name. */
    method RemoveItem(itemData: ItemQuery) returns (removed: bool)
      modifies this
      ensures var i := FirstMatch(old(items), itemData);
        removed == (i >= 0) &&
        items == (if i >= 0 then old(items)[..i] + old(items)[i + 1..] else old(items))
      ensures level == old(level) && runes == old(runes) && buffs == old(buffs)
      ensures old(Valid()) ==> Valid()
    {
      var index := FirstMatch(items, itemData);
      if index != -1 {
        items := items[..index] + items[index + 1..];
        return true;
      }
      return false;
    }

    method ClearItems()
      modifies this
      ensures items == [] && level == old(level) && runes == old(runes) && buffs == old(buffs)
      ensures old(Valid()) ==> Valid()
    {
      items := [];
    }

    method SetKeystone(keystoneId: Option<string>)
      modifies this
      ensures runes == old(runes).(keystone := keystoneId)
      ensures level == old(level) && items == old(items) && buffs == old(buffs)
    {
      runes := runes.(keystone := keystoneId);
    }

    /** Keeps the first three runes. */
    method SetPrimaryRunes(runeIds: seq<string>)
      modifies this
      ensures runes == old(runes).(primaryTree := Take(runeIds, 3))
      ensures level == old(level) && items == old(items) && buffs == old(buffs)
    {
      runes := runes.(primaryTree := Take(runeIds, 3));
    }

    /** Keeps the first two runes. */
    method SetSecondaryRunes(runeIds: seq<string>)
      modifies this
      ensures runes == old(runes).(secondaryTree := Take(runeIds, 2))
      ensures level == old(level) && items == old(items) && buffs == old(buffs)
    {
      runes := runes.(secondaryTree := Take(runeIds, 2));
    }

    method SetStatShards(offense: Option<string>, flex: Option<string>, defense: Option<string>)
      modifies this
      ensures runes == old(runes).(statShards := StatShards(offense, flex, defense))
      ensures level == old(level) && items == old(items) && buffs == old(buffs)
    {
      runes := runes.(statShards := StatShards(offense, flex, defense));
    }

    /** `applyItemStats`: folds every entry of every item with a stats
        object into a copy of the totals, then that item's passives. */
    method ApplyItemStats(baseStats: Stats) returns (stats: Stats)
      ensures stats == ApplyItems(baseStats, items)
    {
      stats := baseStats;
      var i := 0;
      while i < |items|
        invariant 0 <= i <= |items|
        invariant stats == ApplyItems(baseStats, items[..i])
      {
        var item := items[i];
        assert items[..i + 1][..i] == items[..i];
        if item.stats.Some? {
          var es := item.stats.value;
          ghost var before := stats;
          var j := 0;
          while j < |es|
            invariant 0 <= j <= |es|
            invariant stats == ApplyEntries(before, es[..j])
          {
            assert es[..j + 1][..j] == es[..j];
            stats := ApplyStatEntry(stats, es[j].0, es[j].1);
            j := j + 1;
          }
          assert es[..|es|] == es;
          if item.passives.Some? {
            stats := ApplyItemPassives(stats, item.passives.value);
          }
        }
        i := i + 1;
      }
      assert items[..|items|] == items;
    }

    /** `applyItemPassives`: each `Perfection` passive adds 35 crit damage. */
    method ApplyItemPassives(stats0: Stats, passives: seq<Tag>) returns (stats: Stats)
      ensures stats == ApplyPassives(stats0, passives)
    {
      stats := stats0;
      for i := 0 to |passives|
        invariant stats == ApplyPassives(stats0, passives[..i])
      {
        assert passives[..i + 1][..i] == passives[..i];
        if passives[i].name == "Perfection" {
          var cd := if "critDamage" in stats && stats["critDamage"] != 0.0 then stats["critDamage"] else 175.0;
          stats := stats["critDamage" := cd + 35.0];
        }
      }
      assert passives[..|passives|] == passives;
    }

    /** `applyRuneStats`: the three stat shards on a copy of the totals. */
    method ApplyRuneStats(baseStats: Stats) returns (stats: Stats)
      ensures stats == ApplyShards(baseStats, runes.statShards, level)
    {
      stats := baseStats;
      var shards := runes.statShards;
      if shards.offense == Some("adaptiveForce") {
        stats := Adaptive(stats);
      } else if shards.offense == Some("attackSpeed") {
        stats := stats["attackSpeed" := StatOf(stats, "attackSpeed") * 1.10];
      } else if shards.offense == Some("abilityHaste") {
        stats := Add(stats, "abilityHaste", 8.0);
      }
      assert stats == ApplyOffense(baseStats, shards.offense);
      ghost var afterOffense := stats;
      if shards.flex == Some("adaptiveForce") {
        stats := Adaptive(stats);
      } else if shards.flex == Some("movementSpeed") {
        stats := Add(stats, "movementSpeed", 2.0);
      }
      assert stats == ApplyFlex(afterOffense, shards.flex);
      ghost var afterFlex := stats;
      if shards.defense == Some("health") {
        stats := Add(stats, "health", 15.0 + 140.0 * (level - 1.0) / 17.0);
      } else if shards.defense == Some("armor") {
        stats := Add(stats, "armor", 6.0);
      } else if shards.defense == Some("magicResist") {
        stats := Add(stats, "magicResist", 8.0);
      }
      assert stats == ApplyDefense(afterFlex, shards.defense, level);
    }

    /** `calculateFinalStats`. */
    method CalculateFinalStats() returns (fs: FinalStats)
      ensures fs == FinalStatsOf(champion, level, items, runes, buffs)
    {
      var stats := BaseStats(champion.stats, level, items);
      var statsWithItems := ApplyItemStats(stats);
      var statsWithRunes := ApplyRuneStats(statsWithItems);
      var finalStats := ApplyBuffs(statsWithRunes, buffs);
      fs := FinalStats(finalStats, AbilityHasteToCDR(StatOf(finalStats, "abilityHaste")), EffectiveHealthOf(finalStats));
    }

    /** `getLethality`: lethality adds up over the items, so it is at least
        any one item's and 0 when no item has any. */
    function GetLethality(): (r: real)
      reads this
      ensures (forall i :: 0 <= i < |items| ==> ItemStat(items[i], "lethality") >= 0.0) ==>
        0.0 <= r && forall i :: 0 <= i < |items| ==> ItemStat(items[i], "lethality") <= r
      ensures (forall i :: 0 <= i < |items| ==> ItemStat(items[i], "lethality") == 0.0) ==> r == 0.0
    {
      SumStatBounds(items, "lethality");
      SumStat(items, "lethality")
    }

    /** `getArmorPenPercent`: the highest percentage, not a sum; 0 when no
        item has one. */
    function GetArmorPenPercent(): (r: real)
      reads this
      ensures !HasNonZero(items, "armorPenetrationPercent") ==> r == 0.0
      ensures HasNonZero(items, "armorPenetrationPercent") ==>
        (forall i :: 0 <= i < |items| && ItemStat(items[i], "armorPenetrationPercent") != 0.0 ==>
          ItemStat(items[i], "armorPenetrationPercent") <= r) &&
        (exists i :: 0 <= i < |items| && ItemStat(items[i], "armorPenetrationPercent") == r != 0.0)
    {
      MaxStatSpec(items, "armorPenetrationPercent");
      MaxStat(items, "armorPenetrationPercent")
    }

    /** `getMagicPenFlat`: flat magic penetration adds up over the items. */
    function GetMagicPenFlat(): (r: real)
      reads this
      ensures (forall i :: 0 <= i < |items| ==> ItemStat(items[i], "magicPenetration") >= 0.0) ==>
        0.0 <= r && forall i :: 0 <= i < |items| ==> ItemStat(items[i], "magicPenetration") <= r
      ensures (forall i :: 0 <= i < |items| ==> ItemStat(items[i], "magicPenetration") == 0.0) ==> r == 0.0
    {
      SumStatBounds(items, "magicPenetration");
      SumStat(items, "magicPenetration")
    }

    /** `getMagicPenPercent`: the highest percentage; 0 when no item has
        one. */
    function GetMagicPenPercent(): (r: real)
      reads this
      ensures !HasNonZero(items, "magicPenetrationPercent") ==> r == 0.0
      ensures HasNonZero(items, "magicPenetrationPercent") ==>
        (forall i :: 0 <= i < |items| && ItemStat(items[i], "magicPenetrationPercent") != 0.0 ==>
          ItemStat(items[i], "magicPenetrationPercent") <= r) &&
        (exists i :: 0 <= i < |items| && ItemStat(items[i], "magicPenetrationPercent") == r != 0.0)
    {
      MaxStatSpec(items, "magicPenetrationPercent");
      MaxStat(items, "magicPenetrationPercent")
    }

    /** `calculatePhysicalDamage(rawDamage, targetArmor, targetLevel)`: never
        negative damage from non-negative raw damage, and never more. */
    function CalculatePhysicalDamage(rawDamage: real, targetArmor: real, targetLevel: real): (r: real)
      reads this
      ensures rawDamage >= 0.0 ==> 0.0 <= r <= rawDamage
    {
      var e := EffectiveArmor(targetArmor, 0.0, GetArmorPenPercent(), GetLethality(), 0.0, targetLevel);
      MitigateBounds(rawDamage, 0.0, e);
      PhysicalDamage(rawDamage, targetArmor, targetLevel, GetLethality(), GetArmorPenPercent())
    }

    /** `calculateMagicDamage(rawDamage, targetMR)`. */
    function CalculateMagicDamage(rawDamage: real, targetMR: real): (r: real)
      reads this
      ensures rawDamage >= 0.0 ==> 0.0 <= r <= rawDamage
    {
      var e := EffectiveMagicResist(targetMR, GetMagicPenPercent(), GetMagicPenFlat());
      MitigateBounds(rawDamage, 0.0, e);
      MagicDamage(rawDamage, targetMR, GetMagicPenFlat(), GetMagicPenPercent())
    }

    /** `calculateAutoAttackDPS(targetArmor, targetLevel)`. */
    method CalculateAutoAttackDPS(targetArmor: real, targetLevel: real) returns (dps: real)
      ensures dps == Dps(FinalStatsOf(champion, level, items, runes, buffs).stats, targetArmor, targetLevel, GetLethality(), GetArmorPenPercent())
    {
      var stats := CalculateFinalStats();
      dps := DpsOf(stats.stats, targetArmor, targetLevel);
    }

    /** The body of `calculateAutoAttackDPS` once the final totals are known. */
    method DpsOf(s: Stats, targetArmor: real, targetLevel: real) returns (dps: real)
      ensures dps == Dps(s, targetArmor, targetLevel, GetLethality(), GetArmorPenPercent())
    {
      var autoAttackDamage := CalculatePhysicalDamage(StatOf(s, "attackDamage"), targetArmor, targetLevel);
      assert autoAttackDamage == PhysicalDamage(StatOf(s, "attackDamage"), targetArmor, targetLevel, GetLethality(), GetArmorPenPercent());
      var critMultiplier := CritMultiplier(StatOf(s, "critChance"), StatOf(s, "critDamage"));
      dps := autoAttackDamage * critMultiplier * StatOf(s, "attackSpeed");
    }

    /** `calculateCooldown(baseCooldown, abilityHaste)`: an absent or zero
        haste argument means the calculator's own final ability haste. */
    method CalculateCooldown(baseCooldown: real, abilityHaste: Option<real>) returns (r: Quotient)
      ensures abilityHaste.Some? && abilityHaste.value != 0.0 ==> r == Cooldown(baseCooldown, abilityHaste.value)
      ensures abilityHaste.None? || abilityHaste.value == 0.0 ==>
        r == Cooldown(baseCooldown, StatOf(FinalStatsOf(champion, level, items, runes, buffs).stats, "abilityHaste"))
    {
      var ah: real;
      if abilityHaste.Some? && abilityHaste.value != 0.0 {
        ah := abilityHaste.value;
      } else {
        var fs := CalculateFinalStats();
        ah := StatOf(fs.stats, "abilityHaste");
      }
      r := Cooldown(baseCooldown, ah);
    }

    /** `calculateHealingPower(baseHeal)`: scaled by the heal and shield
        power percentage. */
    method CalculateHealingPower(baseHeal: real) returns (r: real)
      ensures r == Scaled(baseHeal, StatOf(FinalStatsOf(champion, level, items, runes, buffs).stats, "healAndShieldPower"))
    {
      var stats := CalculateFinalStats();
      var healPower := StatOf(stats.stats, "healAndShieldPower");
      r := Scaled(baseHeal, healPower);
    }
  }
}
