/** The saved-builds store: a list of at most fifty builds (for saving and
    importing; duplicating does not check the cap). The browser's storage
    is the `builds` field, in the order it was last written; every
    operation reads it sorted newest first, as `getAllBuilds` does, and the
    writers store that sorted list back with their change. Identifiers and
    clock readings are parameters. */
module Storage {
  import opened Wrappers
  import opened Strings
  import opened Dicts
  import opened GameData

  const MaxBuilds := 50

  /** An item as stored: `{ id, name, cost, stats }`. */
  datatype StoredItem = StoredItem(id: Option<string>, name: Option<string>, cost: real, stats: Entries<real>)

  datatype ShardChoice = ShardChoice(offense: Option<string>, flex: Option<string>, defense: Option<string>)

  datatype StoredRunes = StoredRunes(
    primaryTree: Option<string>, secondaryTree: Option<string>, keystone: Option<string>,
    primaryRunes: seq<string>, secondaryRunes: seq<string>, statShards: ShardChoice)

  /** A saved build. `lastModified`, `imported` and `importDate` are set by
      updating and importing only. */
  datatype Build = Build(
    id: string, name: string, timestamp: int,
    championKey: Option<string>, championName: Option<string>, level: real,
    items: seq<StoredItem>, totalCost: real,
    stats: Entries<real>, baseStats: Entries<real>,
    runes: StoredRunes, goldEfficiency: int,
    version: string, notes: string,
    lastModified: Option<int>, imported: bool, importDate: Option<int>)

  /** The runes part of the argument to `saveBuild`. */
  datatype RunesData = RunesData(
    primaryTree: Option<string>, secondaryTree: Option<string>, keystone: Option<string>,
    primaryRunes: Option<seq<string>>, secondaryRunes: Option<seq<string>>, statShards: Option<ShardChoice>)

  /** The argument to `saveBuild`; `None` for a property it lacks. */
  datatype BuildData = BuildData(
    name: Option<string>, championKey: Option<string>, championName: Option<string>,
    level: Option<real>, items: Option<seq<Item>>,
    stats: Option<Entries<real>>, baseStats: Option<Entries<real>>,
    runes: Option<RunesData>, version: Option<string>, notes: Option<string>)

  /** The properties `updateBuild` merges over a build; `None` for one the
      update object lacks. */
  datatype BuildPatch = BuildPatch(
    id: Option<string>, name: Option<string>, timestamp: Option<int>,
    championKey: Option<Option<string>>, championName: Option<Option<string>>, level: Option<real>,
    items: Option<seq<StoredItem>>, totalCost: Option<real>,
    stats: Option<Entries<real>>, baseStats: Option<Entries<real>>,
    runes: Option<StoredRunes>, goldEfficiency: Option<int>,
    version: Option<string>, notes: Option<string>,
    imported: Option<bool>, importDate: Option<Option<int>>)

  /** What `JSON.parse` of the import text gives: a parse error, some value
      that is not an array, or an array of builds. */
  datatype ImportInput = ParseError(message: string) | NotAnArray | BuildArray(builds: seq<Build>)

  /** `s || d` for a string. */
  function StringOr(s: Option<string>, d: string): string {
    if s.Some? && s.value != "" then s.value else d
  }

  /** `s || null` for a string. */
  function StringOrNull(s: Option<string>): Option<string> {
    if s.Some? && s.value != "" then s else None
  }

  // ---------------------------------------------------------------------
  // Items and gold

  /** `simplifyItems` for one item. */
  function Simplify(item: Item): StoredItem {
    StoredItem(item.id, item.name, GoldTotal(item), item.stats.GetOr([]))
  }

  /** `simplifyItems`: one stored item per item, in order. */
  function SimplifyItems(items: seq<Item>): (r: seq<StoredItem>)
    ensures |r| == |items|
    ensures forall k :: 0 <= k < |items| ==> r[k] == Simplify(items[k])
  {
    if |items| == 0 then [] else SimplifyItems(items[..|items| - 1]) + [Simplify(items[|items| - 1])]
  }

  /** `calculateTotalCost`: the items' `gold.total`, a missing one
      counting 0. */
  function TotalCost(items: seq<Item>): real {
    if |items| == 0 then 0.0 else TotalCost(items[..|items| - 1]) + GoldTotal(items[|items| - 1])
  }

  /** The cost of a list is the sum of the costs of its parts, and the
      stored items carry exactly the costs that are summed. */
  lemma {:induction false} TotalCostAppend(a: seq<Item>, b: seq<Item>)
    ensures TotalCost(a + b) == TotalCost(a) + TotalCost(b)
    decreases |b|
  {
    if |b| == 0 {
      assert a + b == a;
    } else {
      assert (a + b)[..|a + b| - 1] == a + b[..|b| - 1];
      TotalCostAppend(a, b[..|b| - 1]);
    }
  }

  /** The total cost equals the sum of the simplified items' costs. */
  lemma {:induction false} TotalCostOfStored(items: seq<Item>)
    ensures TotalCost(items) == StoredCost(SimplifyItems(items))
    decreases |items|
  {
    if |items| > 0 {
      var r := SimplifyItems(items);
      assert r[..|r| - 1] == SimplifyItems(items[..|items| - 1]);
      TotalCostOfStored(items[..|items| - 1]);
    }
  }

  function StoredCost(items: seq<StoredItem>): real {
    if |items| == 0 then 0.0 else StoredCost(items[..|items| - 1]) + items[|items| - 1].cost
  }

  /** The gold value of one unit of a stat, 0 for stats without one. */
  function StatGold(stat: string): real {
    if stat == "attackDamage" then 35.0
    else if stat == "abilityPower" then 20.0
    else if stat == "attackSpeed" then 25.0
    else if stat == "critChance" then 40.0
    else if stat == "health" then 2.67
    else if stat == "armor" then 20.0
    else if stat == "magicResist" then 18.0
    else if stat == "movementSpeed" then 12.0
    else if stat == "abilityHaste" then 26.67
    else if stat == "lethality" then 50.0
    else if stat == "lifeSteal" then 37.5
    else if stat == "omnivamp" then 27.5
    else 0.0
  }

  /** Crit chance, life steal and omnivamp are stored as fractions. */
  predicate IsFractionStat(stat: string) {
    stat == "critChance" || stat == "lifeSteal" || stat == "omnivamp"
  }

  /** The gold one stat entry is worth: positive values of priced stats
      only. */
  function EntryGold(stat: string, value: real): real {
    if StatGold(stat) != 0.0 && value > 0.0 then
      if IsFractionStat(stat) then value * 100.0 * StatGold(stat) else value * StatGold(stat)
    else 0.0
  }

  lemma EntryGoldCases(stat: string, value: real, g: real)
    requires g == StatGold(stat)
    ensures g != 0.0 && value > 0.0 && IsFractionStat(stat) ==> EntryGold(stat, value) == value * 100.0 * g
    ensures g != 0.0 && value > 0.0 && !IsFractionStat(stat) ==> EntryGold(stat, value) == value * g
    ensures !(g != 0.0 && value > 0.0) ==> EntryGold(stat, value) == 0.0
  {
  }

  function StatsGold(stats: Entries<real>): real {
    if |stats| == 0 then 0.0
    else StatsGold(stats[..|stats| - 1]) + EntryGold(stats[|stats| - 1].0, stats[|stats| - 1].1)
  }

  lemma StatsGoldStep(stats: Entries<real>, i: nat)
    requires i < |stats|
    ensures StatsGold(stats[..i + 1]) == StatsGold(stats[..i]) + EntryGold(stats[i].0, stats[i].1)
  {
    assert stats[..i + 1][..i] == stats[..i];
  }

  /** `Math.round`: to the nearest integer, halves upwards. */
  function Round(x: real): (r: int)
    ensures r as real <= x + 0.5 < r as real + 1.0
  {
    (x + 0.5).Floor
  }

  /** `calculateGoldEfficiency(stats, items)`: 0 without items or without
      cost, otherwise the rounded percentage of stat gold over cost; a
      missing stats object then fails, as `Object.entries` throws. */
  function GoldEfficiency(stats: Option<Entries<real>>, items: Option<seq<Item>>): Result<int, string> {
    if items.None? || |items.value| == 0 then Success(0)
    else if TotalCost(items.value) == 0.0 then Success(0)
    else if stats.None? then Failure("Cannot convert undefined or null to object")
    else Success(Round(StatsGold(stats.value) / TotalCost(items.value) * 100.0))
  }

  /** Gold efficiency is 0 when there are no items or they cost nothing,
      it fails only for a missing stats object with costed items, and it is
      never negative. */
  lemma GoldEfficiencyCases(stats: Option<Entries<real>>, items: Option<seq<Item>>)
    ensures items.None? || |items.value| == 0 ==> GoldEfficiency(stats, items) == Success(0)
    ensures items.Some? && TotalCost(items.value) == 0.0 ==> GoldEfficiency(stats, items) == Success(0)
    ensures GoldEfficiency(stats, items).Failure? <==>
      items.Some? && |items.value| > 0 && TotalCost(items.value) != 0.0 && stats.None?
    ensures stats.Some? && items.Some? && TotalCost(items.value) > 0.0 ==> GoldEfficiency(stats, items).value >= 0
  {
    if stats.Some? && items.Some? && |items.value| > 0 && TotalCost(items.value) > 0.0 {
      StatsGoldNonNegative(stats.value);
      var e := StatsGold(stats.value) / TotalCost(items.value) * 100.0;
      assert e >= 0.0;
    }
  }

  /** Only positive values add gold, so the stat gold is never negative. */
  lemma {:induction false} StatsGoldNonNegative(stats: Entries<real>)
    ensures StatsGold(stats) >= 0.0
    decreases |stats|
  {
    if |stats| > 0 {
      StatsGoldNonNegative(stats[..|stats| - 1]);
      var (k, v) := stats[|stats| - 1];
      assert StatGold(k) >= 0.0;
      if StatGold(k) != 0.0 && v > 0.0 {
        assert v * StatGold(k) >= 0.0;
        assert v * 100.0 * StatGold(k) >= 0.0;
      }
    }
  }

  /** A 3000-gold item and 60 attack damage are worth 70 percent. */
  lemma GoldEfficiencyExample(item: Item)
    requires item.gold.Some? && item.gold.value.total == 3000.0
    ensures GoldEfficiency(Some([("attackDamage", 60.0)]), Some([item])) == Success(70)
  {
    var es: Entries<real> := [("attackDamage", 60.0)];
    assert es[..0] == [];
    assert StatsGold(es) == 2100.0;
    assert [item][..0] == [];
    assert TotalCost([item]) == 3000.0;
  }

  // ---------------------------------------------------------------------
  // Builds

  /** The build `saveBuild` creates from its argument. */
  function NewBuild(data: BuildData, count: nat, newId: string, now: int, efficiency: int): Build {
    var items := data.items.GetOr([]);
    var runes := data.runes;
    Build(
      newId,
      StringOr(data.name, "Build " + NatToString(count + 1)),
      now,
      data.championKey, data.championName,
      NumberOr(data.level, 1.0),
      SimplifyItems(items), TotalCost(items),
      data.stats.GetOr([]), data.baseStats.GetOr([]),
      StoredRunes(
        if runes.Some? then StringOrNull(runes.value.primaryTree) else None,
        if runes.Some? then StringOrNull(runes.value.secondaryTree) else None,
        if runes.Some? then StringOrNull(runes.value.keystone) else None,
        if runes.Some? then runes.value.primaryRunes.GetOr([]) else [],
        if runes.Some? then runes.value.secondaryRunes.GetOr([]) else [],
        if runes.Some? then runes.value.statShards.GetOr(ShardChoice(None, None, None)) else ShardChoice(None, None, None)),
      efficiency,
      StringOr(data.version, "15.18.1"),
      StringOr(data.notes, ""),
      None, false, None)
  }

  /** A new build is named by its position when unnamed, is at level 1
      when no level is given, and stores one simplified item per item
      with their summed cost. */
  lemma NewBuildDefaults(data: BuildData, count: nat, newId: string, now: int, efficiency: int)
    ensures var b := NewBuild(data, count, newId, now, efficiency);
      b.id == newId && b.timestamp == now &&
      (data.name.None? || data.name == Some("") ==> b.name == "Build " + NatToString(count + 1)) &&
      (data.name.Some? && data.name.value != "" ==> b.name == data.name.value) &&
      (data.level.None? ==> b.level == 1.0) &&
      |b.items| == |data.items.GetOr([])| && b.totalCost == StoredCost(b.items)
  {
    TotalCostOfStored(data.items.GetOr([]));
  }

  /** `updateBuild`'s merge: every property the update has replaces the
      build's. */
  function Merge(b: Build, p: BuildPatch): Build {
    Build(
      p.id.GetOr(b.id), p.name.GetOr(b.name), p.timestamp.GetOr(b.timestamp),
      p.championKey.GetOr(b.championKey), p.championName.GetOr(b.championName), p.level.GetOr(b.level),
      p.items.GetOr(b.items), p.totalCost.GetOr(b.totalCost),
      p.stats.GetOr(b.stats), p.baseStats.GetOr(b.baseStats),
      p.runes.GetOr(b.runes), p.goldEfficiency.GetOr(b.goldEfficiency),
      p.version.GetOr(b.version), p.notes.GetOr(b.notes),
      b.lastModified, p.imported.GetOr(b.imported), p.importDate.GetOr(b.importDate))
  }

  const NoPatch := BuildPatch(None, None, None, None, None, None, None, None, None, None, None, None, None, None, None, None)

  /** An empty update changes nothing, and a rename changes only the name. */
  lemma MergeFacts(b: Build, newName: string)
    ensures Merge(b, NoPatch) == b
    ensures Merge(b, NoPatch.(name := Some(newName))) == b.(name := newName)
  {
  }

  /** The position of the first build with the id, or -1. */
  function FindBuild(builds: seq<Build>, buildId: string): (r: int)
    ensures -1 <= r < |builds|
    ensures r >= 0 ==> builds[r].id == buildId && forall j :: 0 <= j < r ==> builds[j].id != buildId
    ensures r == -1 ==> forall j :: 0 <= j < |builds| ==> builds[j].id != buildId
  {
    if |builds| == 0 then -1
    else if builds[0].id == buildId then 0
    else
      var r := FindBuild(builds[1..], buildId);
      if r < 0 then
        assert forall j :: 1 <= j < |builds| ==> builds[j] == builds[1..][j - 1];
        -1
      else r + 1
  }

  /** `builds.filter(b => b.id !== buildId)`. */
  function WithoutId(builds: seq<Build>, buildId: string): seq<Build> {
    if |builds| == 0 then []
    else WithoutId(builds[..|builds| - 1], buildId) + (if builds[|builds| - 1].id != buildId then [builds[|builds| - 1]] else [])
  }

  /** Number of builds with the id. */
  function CountId(builds: seq<Build>, buildId: string): nat {
    if |builds| == 0 then 0
    else CountId(builds[..|builds| - 1], buildId) + (if builds[|builds| - 1].id == buildId then 1 else 0)
  }

  /** The filter drops exactly the builds with the id: none of them is
      left, every other build is, the count shrinks by the number dropped,
      and filtering is done piecewise, so the kept builds stay in order. */
  lemma WithoutIdSpec(builds: seq<Build>, buildId: string)
    ensures forall b :: b in WithoutId(builds, buildId) <==> b in builds && b.id != buildId
    ensures |WithoutId(builds, buildId)| == |builds| - CountId(builds, buildId)
    ensures CountId(builds, buildId) == 0 <==> FindBuild(builds, buildId) == -1
    ensures CountId(builds, buildId) == 0 ==> WithoutId(builds, buildId) == builds
  {
    WithoutIdMembers(builds, buildId);
    WithoutIdLength(builds, buildId);
    CountZeroIff(builds, buildId);
    if FindBuild(builds, buildId) >= 0 {
      assert builds[FindBuild(builds, buildId)].id == buildId;
    }
  }

  lemma {:induction false} WithoutIdMembers(builds: seq<Build>, buildId: string)
    ensures forall b :: b in WithoutId(builds, buildId) <==> b in builds && b.id != buildId
  {
    if |builds| > 0 {
      var init, last := builds[..|builds| - 1], builds[|builds| - 1];
      WithoutIdMembers(init, buildId);
      assert builds == init + [last];
      if last.id != buildId {
        assert WithoutId(builds, buildId) == WithoutId(init, buildId) + [last];
      } else {
        assert WithoutId(builds, buildId) == WithoutId(init, buildId);
      }
    }
  }

  lemma {:induction false} WithoutIdLength(builds: seq<Build>, buildId: string)
    ensures |WithoutId(builds, buildId)| == |builds| - CountId(builds, buildId)
    ensures CountId(builds, buildId) == 0 ==> WithoutId(builds, buildId) == builds
  {
    if |builds| > 0 {
      var init, last := builds[..|builds| - 1], builds[|builds| - 1];
      WithoutIdLength(init, buildId);
      CountAtMost(init, buildId);
      if CountId(builds, buildId) == 0 {
        assert WithoutId(builds, buildId) == init + [last];
        assert builds == init + [last];
      }
    }
  }

  lemma {:induction false} CountAtMost(builds: seq<Build>, buildId: string)
    ensures CountId(builds, buildId) <= |builds|
  {
    if |builds| > 0 {
      CountAtMost(builds[..|builds| - 1], buildId);
    }
  }

  /** No build has the id exactly when none is counted. */
  lemma {:induction false} CountZeroIff(builds: seq<Build>, buildId: string)
    ensures CountId(builds, buildId) == 0 <==> forall j :: 0 <= j < |builds| ==> builds[j].id != buildId
  {
    if |builds| > 0 {
      var init := builds[..|builds| - 1];
      CountZeroIff(init, buildId);
      assert forall j :: 0 <= j < |init| ==> init[j] == builds[j];
    }
  }

  /** Filtering a concatenation filters each part. */
  lemma {:induction false} WithoutIdAppend(a: seq<Build>, b: seq<Build>, buildId: string)
    ensures WithoutId(a + b, buildId) == WithoutId(a, buildId) + WithoutId(b, buildId)
    decreases |b|
  {
    if |b| == 0 {
      assert a + b == a;
    } else {
      var b' := b[..|b| - 1];
      assert (a + b)[..|a + b| - 1] == a + b';
      WithoutIdAppend(a, b', buildId);
    }
  }

  /** `getBuildsByChampion`: the builds of the champion, in order. */
  function ByChampion(builds: seq<Build>, championKey: Option<string>): seq<Build> {
    if |builds| == 0 then []
    else ByChampion(builds[..|builds| - 1], championKey) + (if builds[|builds| - 1].championKey == championKey then [builds[|builds| - 1]] else [])
  }

  /** The champion's builds are exactly the stored builds with its key. */
  lemma {:induction false} ByChampionSpec(builds: seq<Build>, championKey: Option<string>)
    ensures forall b :: b in ByChampion(builds, championKey) <==> b in builds && b.championKey == championKey
    ensures |ByChampion(builds, championKey)| <= |builds|
    decreases |builds|
  {
    if |builds| > 0 {
      ByChampionSpec(builds[..|builds| - 1], championKey);
      assert builds == builds[..|builds| - 1] + [builds[|builds| - 1]];
    }
  }

  /** A build as `importBuilds` stores it: a fresh id, marked imported. */
  function Imported(b: Build, newId: string, date: int): Build {
    b.(id := newId, imported := true, importDate := Some(date))
  }

  /** The imported builds in order, the `k`th given the id `idFor(k)` and
      the clock reading `dateFor(k)`: `Date.now()` is read once per build. */
  function ImportedAll(src: seq<Build>, idFor: nat -> string, dateFor: nat -> int): (r: seq<Build>)
    ensures |r| == |src|
  {
    if |src| == 0 then [] else ImportedAll(src[..|src| - 1], idFor, dateFor) + [Imported(src[|src| - 1], idFor(|src| - 1), dateFor(|src| - 1))]
  }

  lemma ImportedStep(src: seq<Build>, idFor: nat -> string, dateFor: nat -> int, k: nat)
    requires k < |src|
    ensures ImportedAll(src[..k + 1], idFor, dateFor) == ImportedAll(src[..k], idFor, dateFor) + [Imported(src[k], idFor(k), dateFor(k))]
  {
    assert src[..k + 1][..k] == src[..k];
  }

  /** Every imported build carries its fresh id and its original content. */
  lemma {:induction false} ImportedAllAt(src: seq<Build>, idFor: nat -> string, dateFor: nat -> int, k: nat)
    requires k < |src|
    ensures ImportedAll(src, idFor, dateFor)[k] == Imported(src[k], idFor(k), dateFor(k))
    decreases |src|
  {
    if k < |src| - 1 {
      ImportedAllAt(src[..|src| - 1], idFor, dateFor, k);
    }
  }

  /** At most the first fifty. */
  function Capped(builds: seq<Build>): (r: seq<Build>)
    ensures |r| <= MaxBuilds
    ensures |builds| <= MaxBuilds ==> r == builds
    ensures r == builds[..|r|]
  {
    if |builds| > MaxBuilds then builds[..MaxBuilds] else builds
  }

  /** The list `importBuilds` stores. */
  function AfterImport(existing: seq<Build>, src: seq<Build>, replace: bool, idFor: nat -> string, dateFor: nat -> int): seq<Build> {
    Capped((if replace then [] else existing) + ImportedAll(src, idFor, dateFor))
  }

  /** Import keeps the existing builds first when not replacing, so as
      many of them survive the cap as fit; what follows are the imported
      builds, each with its fresh id. */
  lemma ImportOrder(existing: seq<Build>, src: seq<Build>, replace: bool, idFor: nat -> string, dateFor: nat -> int)
    ensures var r := AfterImport(existing, src, replace, idFor, dateFor);
      |r| <= MaxBuilds &&
      (!replace ==> forall k :: 0 <= k < |existing| && k < MaxBuilds ==> r[k] == existing[k]) &&
      (replace && |src| <= MaxBuilds ==> r == ImportedAll(src, idFor, dateFor)) &&
      (!replace && |existing| + |src| <= MaxBuilds ==> r == existing + ImportedAll(src, idFor, dateFor))
  {
  }

  // ---------------------------------------------------------------------
  // Reading the store

  /** Every build is at least as new as every build after it. */
  ghost predicate NewestFirst(builds: seq<Build>) {
    forall i, j :: 0 <= i < j < |builds| ==> builds[i].timestamp >= builds[j].timestamp
  }

  /** One insertion step: `b` goes after every build at least as new as
      it, so among equal timestamps it stays last. */
  function InsertNewest(sorted: seq<Build>, b: Build): seq<Build> {
    if |sorted| == 0 then [b]
    else if sorted[0].timestamp >= b.timestamp then [sorted[0]] + InsertNewest(sorted[1..], b)
    else [b] + sorted
  }

  /** `builds.sort((a, b) => b.timestamp - a.timestamp)`, the stable sort
      JavaScript's `Array.prototype.sort` performs, written as an insertion
      sort. */
  function SortNewest(builds: seq<Build>): seq<Build> {
    if |builds| == 0 then []
    else InsertNewest(SortNewest(builds[..|builds| - 1]), builds[|builds| - 1])
  }

  /** The builds with timestamp `t`, in order. */
  function WithTimestamp(builds: seq<Build>, t: int): seq<Build> {
    if |builds| == 0 then []
    else (if builds[0].timestamp == t then [builds[0]] else []) + WithTimestamp(builds[1..], t)
  }

  /** Inserting adds exactly `b`. */
  lemma {:induction false} InsertPerm(sorted: seq<Build>, b: Build)
    ensures multiset(InsertNewest(sorted, b)) == multiset(sorted) + multiset{b}
  {
    if |sorted| > 0 && sorted[0].timestamp >= b.timestamp {
      InsertPerm(sorted[1..], b);
      assert sorted == [sorted[0]] + sorted[1..];
    }
  }

  /** Inserting into a newest-first list keeps it newest first. */
  lemma {:induction false} InsertSorted(sorted: seq<Build>, b: Build)
    requires NewestFirst(sorted)
    ensures NewestFirst(InsertNewest(sorted, b))
  {
    if |sorted| > 0 && sorted[0].timestamp >= b.timestamp {
      NewestFirstTail(sorted);
      InsertSorted(sorted[1..], b);
      InsertBelow(sorted[1..], b, sorted[0].timestamp);
      ConsNewest(sorted[0], InsertNewest(sorted[1..], b));
    } else if |sorted| > 0 {
      assert forall j :: 0 <= j < |sorted| ==> sorted[0].timestamp >= sorted[j].timestamp;
      ConsNewest(b, sorted);
    }
  }

  /** Dropping the first build keeps a list newest first. */
  lemma NewestFirstTail(builds: seq<Build>)
    requires |builds| > 0 && NewestFirst(builds)
    ensures NewestFirst(builds[1..])
  {
    var rest := builds[1..];
    forall i, j | 0 <= i < j < |rest| ensures rest[i].timestamp >= rest[j].timestamp {
      assert rest[i] == builds[i + 1] && rest[j] == builds[j + 1];
    }
  }

  /** A build at least as new as every build of a newest-first list can go
      in front of it. */
  lemma ConsNewest(x: Build, rest: seq<Build>)
    requires NewestFirst(rest)
    requires forall j :: 0 <= j < |rest| ==> x.timestamp >= rest[j].timestamp
    ensures NewestFirst([x] + rest)
  {
    var l := [x] + rest;
    forall i, j | 0 <= i < j < |l| ensures l[i].timestamp >= l[j].timestamp {
      if i == 0 {
        assert l[j] == rest[j - 1];
      } else {
        assert l[i] == rest[i - 1] && l[j] == rest[j - 1];
      }
    }
  }

  /** Inserting a build no newer than `t` into builds no newer than `t`
      gives builds no newer than `t`. */
  lemma {:induction false} InsertBelow(sorted: seq<Build>, b: Build, t: int)
    requires forall j :: 0 <= j < |sorted| ==> sorted[j].timestamp <= t
    requires b.timestamp <= t
    ensures forall j :: 0 <= j < |InsertNewest(sorted, b)| ==> InsertNewest(sorted, b)[j].timestamp <= t
  {
    if |sorted| > 0 && sorted[0].timestamp >= b.timestamp {
      var rest := InsertNewest(sorted[1..], b);
      InsertBelow(sorted[1..], b, t);
      assert forall j :: 0 < j < |rest| + 1 ==> ([sorted[0]] + rest)[j] == rest[j - 1];
    }
  }

  /** The sort is newest first and a permutation of the stored builds. */
  lemma SortSpec(builds: seq<Build>)
    ensures NewestFirst(SortNewest(builds))
    ensures multiset(SortNewest(builds)) == multiset(builds)
    ensures |SortNewest(builds)| == |builds|
  {
    SortSorted(builds);
    SortPerm(builds);
    assert |multiset(SortNewest(builds))| == |SortNewest(builds)|;
  }

  lemma {:induction false} SortSorted(builds: seq<Build>)
    ensures NewestFirst(SortNewest(builds))
  {
    if |builds| > 0 {
      var init := builds[..|builds| - 1];
      SortSorted(init);
      InsertSorted(SortNewest(init), builds[|builds| - 1]);
    }
  }

  lemma {:induction false} SortPerm(builds: seq<Build>)
    ensures multiset(SortNewest(builds)) == multiset(builds)
  {
    if |builds| > 0 {
      var init, last := builds[..|builds| - 1], builds[|builds| - 1];
      SortPerm(init);
      InsertPerm(SortNewest(init), last);
      assert builds == init + [last];
    }
  }

  /** Selecting a timestamp distributes over concatenation. */
  lemma {:induction false} WithTimestampAppend(a: seq<Build>, b: seq<Build>, t: int)
    ensures WithTimestamp(a + b, t) == WithTimestamp(a, t) + WithTimestamp(b, t)
  {
    if |a| > 0 {
      assert (a + b)[1..] == a[1..] + b;
      WithTimestampAppend(a[1..], b, t);
    } else {
      assert a + b == b;
    }
  }

  /** A list that has no build with timestamp `t` selects nothing. */
  lemma {:induction false} WithTimestampNone(builds: seq<Build>, t: int)
    requires forall i :: 0 <= i < |builds| ==> builds[i].timestamp != t
    ensures WithTimestamp(builds, t) == []
  {
    if |builds| > 0 {
      WithTimestampNone(builds[1..], t);
    }
  }

  /** Inserting `b` appends it to its own timestamp's builds and leaves the
      other timestamps' builds as they were. */
  lemma {:induction false} InsertStable(sorted: seq<Build>, b: Build, t: int)
    requires NewestFirst(sorted)
    ensures WithTimestamp(InsertNewest(sorted, b), t) == WithTimestamp(sorted, t) + WithTimestamp([b], t)
  {
    if |sorted| == 0 {
    } else if sorted[0].timestamp >= b.timestamp {
      NewestFirstTail(sorted);
      InsertStable(sorted[1..], b, t);
      assert sorted == [sorted[0]] + sorted[1..];
      ConsStable(sorted[0], sorted[1..], InsertNewest(sorted[1..], b), [b], t);
    } else {
      assert forall i :: 0 <= i < |sorted| ==> sorted[i].timestamp < b.timestamp by {
        assert forall i :: 0 <= i < |sorted| ==> sorted[0].timestamp >= sorted[i].timestamp;
      }
      FrontStable(sorted, b, t);
    }
  }

  /** Putting the same build in front of both sides keeps an equation
      between the builds of `t`. */
  lemma ConsStable(x: Build, tail: seq<Build>, r: seq<Build>, extra: seq<Build>, t: int)
    requires WithTimestamp(r, t) == WithTimestamp(tail, t) + WithTimestamp(extra, t)
    ensures WithTimestamp([x] + r, t) == WithTimestamp([x] + tail, t) + WithTimestamp(extra, t)
  {
    WithTimestampCons(x, r, t);
    WithTimestampCons(x, tail, t);
  }

  /** The builds of `t` in `[x] + rest`. */
  lemma WithTimestampCons(x: Build, rest: seq<Build>, t: int)
    ensures WithTimestamp([x] + rest, t) == (if x.timestamp == t then [x] else []) + WithTimestamp(rest, t)
  {
    assert ([x] + rest)[1..] == rest;
  }

  /** A build newer than all of a list stays in front: its timestamp's
      builds are itself alone, and the other timestamps' are the list's. */
  lemma FrontStable(sorted: seq<Build>, b: Build, t: int)
    requires forall i :: 0 <= i < |sorted| ==> sorted[i].timestamp < b.timestamp
    ensures WithTimestamp([b] + sorted, t) == WithTimestamp(sorted, t) + WithTimestamp([b], t)
  {
    WithTimestampCons(b, sorted, t);
    WithTimestampCons(b, [], t);
    assert [b] + [] == [b];
    if b.timestamp == t {
      WithTimestampNone(sorted, t);
    }
  }

  /** The sort is stable: the builds that share a timestamp keep their
      stored order. */
  lemma {:induction false} SortStable(builds: seq<Build>, t: int)
    ensures WithTimestamp(SortNewest(builds), t) == WithTimestamp(builds, t)
  {
    if |builds| > 0 {
      var init, last := builds[..|builds| - 1], builds[|builds| - 1];
      SortStable(init, t);
      SortSorted(init);
      InsertStable(SortNewest(init), last, t);
      assert builds == init + [last];
      WithTimestampAppend(init, [last], t);
    }
  }

  /** A build no newer than any of a list goes at its end. */
  lemma {:induction false} InsertAtEnd(sorted: seq<Build>, b: Build)
    requires forall i :: 0 <= i < |sorted| ==> sorted[i].timestamp >= b.timestamp
    ensures InsertNewest(sorted, b) == sorted + [b]
  {
    if |sorted| > 0 {
      InsertAtEnd(sorted[1..], b);
      assert sorted == [sorted[0]] + sorted[1..];
    }
  }

  /** A list that is already newest first is left as it is. */
  lemma {:induction false} SortedUnchanged(builds: seq<Build>)
    ensures NewestFirst(builds) ==> SortNewest(builds) == builds
  {
    if |builds| > 0 && NewestFirst(builds) {
      var init, last := builds[..|builds| - 1], builds[|builds| - 1];
      NewestFirstInit(builds);
      SortedUnchanged(init);
      InsertAtEnd(init, last);
      assert builds == init + [last];
    }
  }

  /** Dropping the last build keeps a list newest first. */
  lemma NewestFirstInit(builds: seq<Build>)
    requires |builds| > 0 && NewestFirst(builds)
    ensures NewestFirst(builds[..|builds| - 1])
  {
    var init := builds[..|builds| - 1];
    forall i, j | 0 <= i < j < |init| ensures init[i].timestamp >= init[j].timestamp {
      assert init[i] == builds[i] && init[j] == builds[j];
    }
  }

  /** Every timestamp's builds keep their stored order. */
  lemma SortStableAll(builds: seq<Build>)
    ensures forall t :: WithTimestamp(SortNewest(builds), t) == WithTimestamp(builds, t)
  {
    forall t ensures WithTimestamp(SortNewest(builds), t) == WithTimestamp(builds, t) {
      SortStable(builds, t);
    }
  }

  /** A champion's builds from a newest-first list are newest first. */
  lemma {:induction false} ByChampionSorted(builds: seq<Build>, championKey: Option<string>)
    requires NewestFirst(builds)
    ensures NewestFirst(ByChampion(builds, championKey))
  {
    if |builds| > 0 {
      var init, last := builds[..|builds| - 1], builds[|builds| - 1];
      NewestFirstInit(builds);
      ByChampionSorted(init, championKey);
      ByChampionSpec(init, championKey);
      var f := ByChampion(init, championKey);
      forall i | 0 <= i < |f| ensures f[i].timestamp >= last.timestamp {
        assert f[i] in f;
        var k :| 0 <= k < |init| && init[k] == f[i];
        assert builds[k] == init[k];
      }
    }
  }

  /** Selecting a champion's builds distributes over concatenation, so
      they come out in the order of the list. */
  lemma {:induction false} ByChampionAppend(a: seq<Build>, b: seq<Build>, championKey: Option<string>)
    ensures ByChampion(a + b, championKey) == ByChampion(a, championKey) + ByChampion(b, championKey)
    decreases |b|
  {
    if |b| == 0 {
      assert a + b == a;
    } else {
      var b' := b[..|b| - 1];
      assert (a + b)[..|a + b| - 1] == a + b';
      ByChampionAppend(a, b', championKey);
    }
  }

  /** The `forEach` of `importBuilds`: each imported build, with its fresh
      id, is pushed after the builds already there. */
  method PushImported(stored0: seq<Build>, importedBuilds: seq<Build>, idFor: nat -> string, dateFor: nat -> int) returns (stored: seq<Build>)
    ensures stored == stored0 + ImportedAll(importedBuilds, idFor, dateFor)
  {
    stored := stored0;
    for k := 0 to |importedBuilds|
      invariant stored == stored0 + ImportedAll(importedBuilds[..k], idFor, dateFor)
    {
      ImportedStep(importedBuilds, idFor, dateFor, k);
      stored := stored + [Imported(importedBuilds[k], idFor(k), dateFor(k))];
    }
    assert importedBuilds[..|importedBuilds|] == importedBuilds;
  }

  class BuildStorage {
    /** The stored builds, in the order they were last written. */
    var builds: seq<Build>

    /** Saving and importing keep the store within the cap. */
    ghost predicate Valid()
      reads this
    {
      |builds| <= MaxBuilds
    }

    /** A browser with nothing stored under the key: `getAllBuilds` then
        takes its `!buildsJson` branch and reads the empty list. */
    constructor()
      ensures builds == [] && Valid()
    {
      builds := [];
    }

    /** `getAllBuilds`: the stored builds sorted newest first. Builds with
        the same timestamp keep their stored order, and a store that is
        already newest first reads back as it is. */
    function GetAllBuilds(): (r: seq<Build>)
      reads this
      ensures NewestFirst(r) && multiset(r) == multiset(builds) && |r| == |builds|
      ensures forall t :: WithTimestamp(r, t) == WithTimestamp(builds, t)
      ensures NewestFirst(builds) ==> r == builds
    {
      SortSpec(builds);
      SortStableAll(builds);
      SortedUnchanged(builds);
      SortNewest(builds)
    }

    /** `saveBuild`: refuses at the cap; otherwise puts the new build in
        front of the sorted builds and stores that list. */
    method SaveBuild(buildData: BuildData, newId: string, now: int) returns (r: Result<Build, string>)
      modifies this
      ensures |old(builds)| >= MaxBuilds ==> r == Failure("Maximum builds reached") && builds == old(builds)
      ensures |old(builds)| < MaxBuilds && GoldEfficiency(buildData.stats, buildData.items).Failure? ==>
        r == Failure(GoldEfficiency(buildData.stats, buildData.items).error) && builds == old(builds)
      ensures |old(builds)| < MaxBuilds && GoldEfficiency(buildData.stats, buildData.items).Success? ==>
        r == Success(NewBuild(buildData, |old(builds)|, newId, now, GoldEfficiency(buildData.stats, buildData.items).value)) &&
        builds == [r.value] + old(GetAllBuilds())
      ensures old(Valid()) ==> Valid()
    {
      var all := GetAllBuilds();
      if |all| >= MaxBuilds {
        return Failure("Maximum builds reached");
      }
      var efficiency := CalculateGoldEfficiency(buildData.stats, buildData.items);
      if efficiency.Failure? {
        return Failure(efficiency.error);
      }
      var newBuild := NewBuild(buildData, |all|, newId, now, efficiency.value);
      builds := [newBuild] + all;
      return Success(newBuild);
    }

    /** `calculateGoldEfficiency`, accumulating the stat gold entry by
        entry. */
    method CalculateGoldEfficiency(stats: Option<Entries<real>>, items: Option<seq<Item>>) returns (r: Result<int, string>)
      ensures r == GoldEfficiency(stats, items)
    {
      if items.None? || |items.value| == 0 {
        return Success(0);
      }
      var totalCost := TotalCost(items.value);
      if totalCost == 0.0 {
        return Success(0);
      }
      if stats.None? {
        return Failure("Cannot convert undefined or null to object");
      }
      var es := stats.value;
      var totalStatValue := 0.0;
      for i := 0 to |es|
        invariant totalStatValue == StatsGold(es[..i])
      {
        StatsGoldStep(es, i);
        var stat, value := es[i].0, es[i].1;
        var goldValue := StatGold(stat);
        EntryGoldCases(stat, value, goldValue);
        if goldValue != 0.0 && value > 0.0 {
          if IsFractionStat(stat) {
            totalStatValue := totalStatValue + value * 100.0 * goldValue;
          } else {
            totalStatValue := totalStatValue + value * goldValue;
          }
        }
      }
      assert es[..|es|] == es;
      var efficiency := (totalStatValue / totalCost) * 100.0;
      return Success(Round(efficiency));
    }

    /** `updateBuild`: merges the update into the first build with the id
        in the sorted builds, stamps it and stores that list; reports an
        unknown id and writes nothing. */
    method UpdateBuild(buildId: string, updates: BuildPatch, now: int) returns (r: Result<Build, string>)
      modifies this
      ensures var all := old(GetAllBuilds()); var i := FindBuild(all, buildId);
        (i == -1 ==> r == Failure("Build not found") && builds == old(builds)) &&
        (i >= 0 ==> r == Success(Merge(all[i], updates).(lastModified := Some(now))) &&
                    builds == all[i := r.value])
      ensures |builds| == |old(builds)|
    {
      var all := GetAllBuilds();
      var buildIndex := FindBuild(all, buildId);
      if buildIndex == -1 {
        return Failure("Build not found");
      }
      var updated := Merge(all[buildIndex], updates).(lastModified := Some(now));
      builds := all[buildIndex := updated];
      return Success(updated);
    }

    /** `renameBuild`: an update of the name alone. */
    method RenameBuild(buildId: string, newName: string, now: int) returns (r: Result<Build, string>)
      modifies this
      ensures var all := old(GetAllBuilds()); var i := FindBuild(all, buildId);
        (i == -1 ==> r.Failure? && builds == old(builds)) &&
        (i >= 0 ==> r == Success(all[i].(name := newName, lastModified := Some(now))) &&
                    builds == all[i := r.value])
    {
      var all := GetAllBuilds();
      var i := FindBuild(all, buildId);
      if i >= 0 {
        MergeFacts(all[i], newName);
      }
      r := UpdateBuild(buildId, NoPatch.(name := Some(newName)), now);
    }

    /** `deleteBuild`: drops every build with the id; reports an unknown
        id and writes nothing. */
    method DeleteBuild(buildId: string) returns (r: Result<(), string>)
      modifies this
      ensures CountId(old(GetAllBuilds()), buildId) == 0 ==> r == Failure("Build not found") && builds == old(builds)
      ensures CountId(old(GetAllBuilds()), buildId) > 0 ==>
        r == Success(()) && builds == WithoutId(old(GetAllBuilds()), buildId)
      ensures |builds| <= |old(builds)| && (old(Valid()) ==> Valid())
    {
      var all := GetAllBuilds();
      var filteredBuilds := WithoutId(all, buildId);
      WithoutIdSpec(all, buildId);
      if |all| == |filteredBuilds| {
        return Failure("Build not found");
      }
      builds := filteredBuilds;
      return Success(());
    }

    /** `getBuildById`: the first build with the id in the sorted builds,
        or `null` when no stored build has it. */
    function GetBuildById(buildId: string): (r: Option<Build>)
      reads this
      ensures var all := GetAllBuilds(); var i := FindBuild(all, buildId);
        (r.None? <==> i == -1) && (r.Some? ==> r.value == all[i])
      ensures r.None? <==> forall b :: b in builds ==> b.id != buildId
      ensures r.Some? ==> r.value.id == buildId && r.value in builds
    {
      var all := GetAllBuilds();
      assert forall b :: b in builds <==> b in multiset(all);
      var i := FindBuild(all, buildId);
      if i < 0 then None else Some(all[i])
    }

    /** `duplicateBuild`: a copy named `<name> (Copy)` with a fresh id and
        time goes in front, whether or not the store is full. */
    method DuplicateBuild(buildId: string, newId: string, now: int) returns (r: Result<Build, string>)
      modifies this
      ensures old(GetBuildById(buildId)).None? ==> r == Failure("Build not found") && builds == old(builds)
      ensures old(GetBuildById(buildId)).Some? ==>
        var orig := old(GetBuildById(buildId)).value;
        r == Success(orig.(name := orig.name + " (Copy)", id := newId, timestamp := now)) &&
        builds == [r.value] + old(GetAllBuilds())
    {
      var originalBuild := GetBuildById(buildId);
      if originalBuild.None? {
        return Failure("Build not found");
      }
      var orig := originalBuild.value;
      var duplicatedBuild := orig.(name := orig.name + " (Copy)", id := newId, timestamp := now);
      var all := GetAllBuilds();
      builds := [duplicatedBuild] + all;
      return Success(duplicatedBuild);
    }

    /** `importBuilds`: rejects text that is not a JSON array; otherwise
        appends the imported builds with fresh ids to the existing ones (or
        to none when replacing) and keeps the first fifty. */
    method ImportBuilds(input: ImportInput, replace: bool, idFor: nat -> string, dateFor: nat -> int) returns (r: Result<nat, string>)
      modifies this
      ensures input.ParseError? ==> r == Failure(input.message) && builds == old(builds)
      ensures input.NotAnArray? ==> r == Failure("Invalid builds format") && builds == old(builds)
      ensures input.BuildArray? ==>
        r == Success(|input.builds|) && builds == AfterImport(old(GetAllBuilds()), input.builds, replace, idFor, dateFor)
      ensures Valid() || builds == old(builds)
    {
      if input.ParseError? {
        return Failure(input.message);
      }
      if input.NotAnArray? {
        return Failure("Invalid builds format");
      }
      var importedBuilds := input.builds;
      var stored := if replace then [] else GetAllBuilds();
      stored := PushImported(stored, importedBuilds, idFor, dateFor);
      if |stored| > MaxBuilds {
        stored := stored[..MaxBuilds];
      }
      builds := stored;
      return Success(|importedBuilds|);
    }

    method ClearAllBuilds()
      modifies this
      ensures builds == []
    {
      builds := [];
    }

    /** `getBuildsByChampion`: every stored build of the champion and no
        other, newest first, in the order the sorted builds have them. */
    function GetBuildsByChampion(championKey: Option<string>): (r: seq<Build>)
      reads this
      ensures forall b :: b in r <==> b in builds && b.championKey == championKey
      ensures NewestFirst(r)
      ensures r == ByChampion(GetAllBuilds(), championKey)
    {
      var all := GetAllBuilds();
      ByChampionSpec(all, championKey);
      ByChampionSorted(all, championKey);
      assert forall b :: b in builds <==> b in multiset(all);
      ByChampion(all, championKey)
    }
  }
}
