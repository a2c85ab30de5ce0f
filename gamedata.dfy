/** The records the three parts of the engine exchange: a champion in the
    engine's vocabulary and an item as the mapper produces it and the
    calculator and the build store consume it. Fields a JavaScript object
    may lack are `Option`s; every number is a `real`. */
module GameData {
  import opened Wrappers
  import opened Dicts

  /** The twenty level-independent base stats of a champion, with their
      per-level growth coefficients. */
  datatype ChampionStats = ChampionStats(
    health: real, healthPerLevel: real,
    mana: real, manaPerLevel: real,
    movementSpeed: real,
    armor: real, armorPerLevel: real,
    magicResist: real, magicResistPerLevel: real,
    attackRange: real,
    healthRegen: real, healthRegenPerLevel: real,
    manaRegen: real, manaRegenPerLevel: real,
    critChance: real, critChancePerLevel: real,
    attackDamage: real, attackDamagePerLevel: real,
    attackSpeed: real, attackSpeedPerLevel: real)

  datatype Champion = Champion(
    id: Option<string>, key: Option<string>, name: Option<string>, title: Option<string>,
    tags: seq<string>, stats: ChampionStats, partype: string)

  datatype Gold = Gold(base: real, total: real, sell: real, purchasable: bool)

  /** A `<passive>` or `<active>` section of an item description. */
  datatype Tag = Tag(name: string, description: string)

  /** One `EffectNAmount` value of an item. */
  datatype Effect = Effect(index: int, value: real)

  /** An item. `stats` holds the item's stat deltas in the engine's
      vocabulary, in key order; whether it and `passives` are present
      matters to the calculator. */
  datatype Item = Item(
    id: Option<string>, name: Option<string>,
    description: string, plaintext: string,
    gold: Option<Gold>,
    stats: Option<Entries<real>>,
    from: seq<string>, into: seq<string>, tags: seq<string>,
    maps: map<string, bool>, depth: int,
    effects: Option<seq<Effect>>,
    passives: Option<seq<Tag>>, actives: Option<seq<Tag>>)

  /** `item.stats?.[key] || 0`. */
  function ItemStat(item: Item, key: string): real {
    match item.stats
    case None => 0.0
    case Some(es) => Get(es, key).GetOr(0.0)
  }

  /** `a || d` on an optional number, where 0 is falsy. */
  function NumberOr(a: Option<real>, d: real): real {
    if a.Some? && a.value != 0.0 then a.value else d
  }

  /** `item.gold?.total || 0`. */
  function GoldTotal(item: Item): real {
    match item.gold
    case None => 0.0
    case Some(g) => g.total
  }

  /** An item whose stats object, if it has one, has unique keys, as every
      JavaScript object does. */
  predicate WellFormedItem(item: Item) {
    item.stats.Some? ==> DistinctKeys(item.stats.value)
  }
}
