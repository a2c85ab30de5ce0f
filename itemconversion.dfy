/** Conversion of vendor item records: the `<passive>`/`<active>` tag
    scanner, the `EffectNAmount` effect list, `convertItem` and
    `convertAllItems`. */
module ItemConversion {
  import opened Wrappers
  import opened Strings
  import opened Dicts
  import opened GameData
  import opened StatTable

  // ---- The description tag scanner ----

  function OpenTag(tag: string): string { "<" + tag + ">" }

  function CloseTag(tag: string): string { "</" + tag + ">" }

  /** The longest prefix of `s` without `<`: all that `[^<]+` can cover. */
  function BodyRun(s: string): (r: string)
    ensures StartsWith(s, r) && '<' !in r
    ensures |r| < |s| ==> s[|r|] == '<'
  {
    if |s| == 0 || s[0] == '<' then ""
    else
      var rest := BodyRun(s[1..]);
      assert s[..1 + |rest|] == [s[0]] + s[1..][..|rest|];
      [s[0]] + rest
  }

  /** Before a `<`, the run of non-`<` characters is exactly `b`. */
  lemma {:induction false} BodyRunBefore(b: string, t: string)
    requires '<' !in b && |t| > 0 && t[0] == '<'
    ensures BodyRun(b + t) == b
  {
    if |b| > 0 {
      assert (b + t)[1..] == b[1..] + t;
      BodyRunBefore(b[1..], t);
      assert b == [b[0]] + b[1..];
    } else {
      assert b + t == t;
    }
  }

  /** The body of a match of `<tag>([^<]+)</tag>` that starts at the first
      character of `s`, if there is one. */
  function MatchAt(s: string, tag: string): (r: Option<string>)
    ensures r.Some? ==> |r.value| > 0 && '<' !in r.value
    ensures r.Some? ==> StartsWith(s, OpenTag(tag) + r.value + CloseTag(tag))
  {
    var open := OpenTag(tag);
    if StartsWith(s, open) then
      var b := BodyRun(s[|open|..]);
      var close := CloseTag(tag);
      if |b| > 0 && StartsWith(s[|open| + |b|..], close) then
        assert s[|open|..][..|b|] == b;
        assert s[..|open| + |b| + |close|] == open + b + close;
        Some(b)
      else None
    else None
  }

  /** The bodies the global regular expression finds in `s`: the leftmost
      match, then the next search resumes where that match ends. */
  function Scan(s: string, tag: string): (r: seq<string>)
    decreases |s|
  {
    if |s| == 0 then []
    else
      match MatchAt(s, tag)
      case Some(b) => [b] + Scan(s[|OpenTag(tag)| + |b| + |CloseTag(tag)|..], tag)
      case None => Scan(s[1..], tag)
  }

  /** A tag object: `name` is the body up to its first `:`, trimmed. */
  function MakeTag(body: string): Tag {
    Tag(Trim(BeforeFirst(body, ':')), body)
  }

  function TagsOf(bodies: seq<string>): (r: seq<Tag>)
    ensures |r| == |bodies|
  {
    if |bodies| == 0 then [] else [MakeTag(bodies[0])] + TagsOf(bodies[1..])
  }

  /** What `extractPassives`/`extractActives` return: nothing for a missing
      or empty description, otherwise one tag per match, in order. */
  function Tagged(description: Option<string>, tag: string): seq<Tag> {
    if description.None? || description.value == "" then [] else TagsOf(Scan(description.value, tag))
  }

  /** The regular-expression `exec` loop: `pos` plays `lastIndex`. */
  method ExtractTagged(description: Option<string>, tag: string) returns (found: seq<Tag>)
    ensures found == Tagged(description, tag)
  {
    found := [];
    if description.None? || description.value == "" {
      return;
    }
    var s := description.value;
    var pos := 0;
    assert s[0..] == s;
    while pos < |s|
      invariant 0 <= pos <= |s|
      invariant found + TagsOf(Scan(s[pos..], tag)) == TagsOf(Scan(s, tag))
      decreases |s| - pos
    {
      var m, next := Exec(s, pos, tag);
      if m.Some? {
        found := found + [m.value];
      }
      pos := next;
    }
    assert s[pos..] == [];
  }

  /** One attempt of the search at `pos`: a section starting there is
      returned with the position after it; otherwise the search moves one
      character on. */
  method Exec(s: string, pos: nat, tag: string) returns (m: Option<Tag>, next: nat)
    requires pos < |s|
    ensures pos < next <= |s|
    ensures m.Some? ==> TagsOf(Scan(s[pos..], tag)) == [m.value] + TagsOf(Scan(s[next..], tag))
    ensures m.None? ==> TagsOf(Scan(s[pos..], tag)) == TagsOf(Scan(s[next..], tag))
  {
    var b := MatchAt(s[pos..], tag);
    ExecStep(s, pos, tag);
    if b.Some? {
      next := pos + |OpenTag(tag)| + |b.value| + |CloseTag(tag)|;
      m := Some(MakeTag(b.value));
      assert TagsOf(Scan(s[pos..], tag)) == [m.value] + TagsOf(Scan(s[next..], tag));
    } else {
      next := pos + 1;
      m := None;
      assert TagsOf(Scan(s[pos..], tag)) == TagsOf(Scan(s[next..], tag));
    }
  }

  /** One step of the scan, read at position `pos` of `s`. */
  lemma ScanFrom(s: string, pos: nat, tag: string)
    requires pos < |s|
    ensures MatchAt(s[pos..], tag).Some? ==>
      var n := |OpenTag(tag)| + |MatchAt(s[pos..], tag).value| + |CloseTag(tag)|;
      pos + n <= |s| && Scan(s[pos..], tag) == [MatchAt(s[pos..], tag).value] + Scan(s[pos + n..], tag)
    ensures MatchAt(s[pos..], tag).None? ==> Scan(s[pos..], tag) == Scan(s[pos + 1..], tag)
  {
    var t := s[pos..];
    match MatchAt(t, tag)
    case Some(b) =>
      var n := |OpenTag(tag)| + |b| + |CloseTag(tag)|;
      assert t[n..] == s[pos + n..];
    case None =>
      assert t[1..] == s[pos + 1..];
  }

  /** One `exec` call at `pos`, in terms of the tags still to be found. */
  lemma ExecStep(s: string, pos: nat, tag: string)
    requires pos < |s|
    ensures MatchAt(s[pos..], tag).Some? ==>
      var b := MatchAt(s[pos..], tag).value;
      var next := pos + |OpenTag(tag)| + |b| + |CloseTag(tag)|;
      pos < next <= |s| && TagsOf(Scan(s[pos..], tag)) == [MakeTag(b)] + TagsOf(Scan(s[next..], tag))
    ensures MatchAt(s[pos..], tag).None? ==> TagsOf(Scan(s[pos..], tag)) == TagsOf(Scan(s[pos + 1..], tag))
  {
    ScanFrom(s, pos, tag);
    if MatchAt(s[pos..], tag).Some? {
      var b := MatchAt(s[pos..], tag).value;
      var next := pos + |OpenTag(tag)| + |b| + |CloseTag(tag)|;
      TagsOfCons(b, Scan(s[next..], tag));
    }
  }

  lemma TagsOfCons(b: string, rest: seq<string>)
    ensures TagsOf([b] + rest) == [MakeTag(b)] + TagsOf(rest)
  {
    assert ([b] + rest)[1..] == rest;
  }

  /** `extractPassives`. */
  method ExtractPassives(description: Option<string>) returns (passives: seq<Tag>)
    ensures passives == Tagged(description, "passive")
  {
    passives := ExtractTagged(description, "passive");
  }

  /** `extractActives`. */
  method ExtractActives(description: Option<string>) returns (actives: seq<Tag>)
    ensures actives == Tagged(description, "active")
  {
    actives := ExtractTagged(description, "active");
  }

  /** The description made of the given bodies, each wrapped in its tag. */
  function Wrapped(bodies: seq<string>, tag: string): string {
    if |bodies| == 0 then "" else OpenTag(tag) + bodies[0] + CloseTag(tag) + Wrapped(bodies[1..], tag)
  }

  /** A tagged section followed by anything is found first, and the scan
      resumes right after it. */
  lemma ScanSection(b: string, rest: string, tag: string)
    requires |b| > 0 && '<' !in b
    ensures Scan(OpenTag(tag) + b + CloseTag(tag) + rest, tag) == [b] + Scan(rest, tag)
  {
    var open, close := OpenTag(tag), CloseTag(tag);
    var s := open + b + close + rest;
    assert s[..|open|] == open;
    assert s[|open|..] == b + (close + rest);
    BodyRunBefore(b, close + rest);
    assert s[|open| + |b|..] == close + rest;
    assert (close + rest)[..|close|] == close;
    assert MatchAt(s, tag) == Some(b);
    assert s[|open| + |b| + |close|..] == rest;
  }

  /** The scanner recovers exactly the bodies of a description built by
      wrapping non-empty, `<`-free bodies in their tags. */
  lemma {:induction false} ScanWrapped(bodies: seq<string>, tag: string)
    requires forall k :: 0 <= k < |bodies| ==> |bodies[k]| > 0 && '<' !in bodies[k]
    ensures Scan(Wrapped(bodies, tag), tag) == bodies
  {
    if |bodies| > 0 {
      ScanSection(bodies[0], Wrapped(bodies[1..], tag), tag);
      ScanWrapped(bodies[1..], tag);
      assert OpenTag(tag) + bodies[0] + CloseTag(tag) + Wrapped(bodies[1..], tag) == Wrapped(bodies, tag);
    }
  }

  /** Text without a `<` holds no section. */
  lemma {:induction false} ScanPlain(s: string, tag: string)
    requires '<' !in s
    ensures Scan(s, tag) == []
    decreases |s|
  {
    if |s| > 0 {
      assert MatchAt(s, tag).None? by {
        assert OpenTag(tag)[0] == '<';
      }
      assert forall k :: 0 <= k < |s[1..]| ==> s[1..][k] == s[k + 1];
      ScanPlain(s[1..], tag);
    }
  }

  /** Every found body is non-empty and free of `<`. */
  lemma {:induction false} ScanBodies(s: string, tag: string)
    ensures forall b :: b in Scan(s, tag) ==> |b| > 0 && '<' !in b
    decreases |s|
  {
    if |s| > 0 {
      match MatchAt(s, tag)
      case Some(b) =>
        var rest := s[|OpenTag(tag)| + |b| + |CloseTag(tag)|..];
        ScanBodies(rest, tag);
        assert Scan(s, tag) == [b] + Scan(rest, tag);
      case None =>
        ScanBodies(s[1..], tag);
        assert Scan(s, tag) == Scan(s[1..], tag);
    }
  }

  /** Every found body appears in `s` wrapped in its tags. */
  lemma {:induction false} ScanFound(s: string, tag: string)
    ensures forall b :: b in Scan(s, tag) ==> Occurs(s, OpenTag(tag) + b + CloseTag(tag))
    decreases |s|
  {
    if |s| > 0 {
      match MatchAt(s, tag)
      case Some(b) =>
        var n := |OpenTag(tag)| + |b| + |CloseTag(tag)|;
        var rest := Scan(s[n..], tag);
        assert Scan(s, tag) == [b] + rest;
        ScanFound(s[n..], tag);
        forall b' | b' in [b] + rest ensures Occurs(s, OpenTag(tag) + b' + CloseTag(tag)) {
          if b' == b {
            assert s[0..] == s;
            assert StartsWith(s[0..], OpenTag(tag) + b + CloseTag(tag));
          } else {
            OccursInSuffix(s, n, OpenTag(tag) + b' + CloseTag(tag));
          }
        }
      case None =>
        ScanFound(s[1..], tag);
        forall b' | b' in Scan(s[1..], tag) ensures Occurs(s, OpenTag(tag) + b' + CloseTag(tag)) {
          OccursInSuffix(s, 1, OpenTag(tag) + b' + CloseTag(tag));
        }
    }
  }

  lemma OccursInSuffix(s: string, n: nat, pat: string)
    requires n <= |s| && Occurs(s[n..], pat)
    ensures Occurs(s, pat)
  {
    var j :| 0 <= j <= |s[n..]| && StartsWith(s[n..][j..], pat);
    assert s[n..][j..] == s[n + j..];
  }

  /** A tag's name holds no `:` and neither starts nor ends with white
      space; its description is the whole body. */
  lemma MakeTagName(body: string)
    ensures ':' !in MakeTag(body).name
    ensures |MakeTag(body).name| > 0 ==> !IsWhiteSpace(MakeTag(body).name[0])
    ensures MakeTag(body).description == body
  {
    var head := BeforeFirst(body, ':');
    var name := Trim(head);
    BeforeFirstSpec(body, ':');
    TrimSpec(head);
    var i :| TrimmedAt(head, name, i);
    forall k | 0 <= k < |name| ensures name[k] != ':' {
      assert name[k] == head[i + k];
    }
  }

  // ---- Effects ----

  /** `Effect${i}Amount`. */
  function EffectKey(i: nat): string {
    "Effect" + NatToString(i) + "Amount"
  }

  /** `parseFloat(value) || 0`, given what `parseFloat` made of the value
      (`None` for NaN). */
  function EffectValue(parsed: Option<real>): real {
    parsed.GetOr(0.0)
  }

  /** The effects `convertEffects` lists for indices 1 to `n`, in index
      order: one for each key that is present. */
  function EffectsUpTo(effects: Entries<Option<real>>, n: nat): seq<Effect> {
    if n == 0 then []
    else
      EffectsUpTo(effects, n - 1) +
        match Get(effects, EffectKey(n))
        case Some(p) => [Effect(n, EffectValue(p))]
        case None => []
  }

  /** `convertEffects`. */
  method ConvertEffects(effects: Entries<Option<real>>) returns (convertedEffects: seq<Effect>)
    ensures convertedEffects == EffectsUpTo(effects, 10)
  {
    convertedEffects := [];
    for i := 1 to 11
      invariant convertedEffects == EffectsUpTo(effects, i - 1)
    {
      var effectKey := EffectKey(i);
      var raw := Get(effects, effectKey);
      if raw.Some? {
        convertedEffects := convertedEffects + [Effect(i, EffectValue(raw.value))];
      }
    }
  }

  /** Every listed effect has an index in 1..n whose key is present, and
      the value `parseFloat(...) || 0` gives for it. */
  lemma {:induction false} EffectsSound(effects: Entries<Option<real>>, n: nat)
    ensures forall e :: e in EffectsUpTo(effects, n) ==>
      1 <= e.index <= n &&
      (Get(effects, EffectKey(e.index)) == Some(Some(e.value)) ||
       (Get(effects, EffectKey(e.index)) == Some(None) && e.value == 0.0))
  {
    if n > 0 {
      EffectsSound(effects, n - 1);
      var prev := EffectsUpTo(effects, n - 1);
      match Get(effects, EffectKey(n)) {
        case Some(p) =>
          var e := Effect(n, EffectValue(p));
          assert EffectsUpTo(effects, n) == prev + [e];
          assert p.Some? ==> e.value == p.value;
        case None =>
          assert EffectsUpTo(effects, n) == prev;
      }
    }
  }

  /** The listed effects come in strictly increasing index order. */
  lemma {:induction false} EffectsOrdered(effects: Entries<Option<real>>, n: nat)
    ensures forall k, l :: 0 <= k < l < |EffectsUpTo(effects, n)| ==>
      EffectsUpTo(effects, n)[k].index < EffectsUpTo(effects, n)[l].index
    ensures forall e :: e in EffectsUpTo(effects, n) ==> e.index <= n
  {
    if n > 0 {
      EffectsOrdered(effects, n - 1);
      var prev := EffectsUpTo(effects, n - 1);
      var r := EffectsUpTo(effects, n);
      assert forall k :: 0 <= k < |prev| ==> r[k] == prev[k];
      assert forall k :: 0 <= k < |prev| ==> prev[k] in prev;
    }
  }

  /** Every present key `Effect{i}Amount` with i in 1..n is listed. */
  lemma {:induction false} EffectsComplete(effects: Entries<Option<real>>, n: nat)
    ensures forall i :: 1 <= i <= n && HasKey(effects, EffectKey(i)) ==> HasIndex(EffectsUpTo(effects, n), i)
  {
    if n > 0 {
      EffectsComplete(effects, n - 1);
      var prev := EffectsUpTo(effects, n - 1);
      var r := EffectsUpTo(effects, n);
      assert forall k :: 0 <= k < |prev| ==> r[k] == prev[k];
      forall i | 1 <= i <= n && HasKey(effects, EffectKey(i)) ensures HasIndex(r, i) {
        if i < n {
          var k :| 0 <= k < |prev| && prev[k].index == i;
          assert r[k].index == i;
        } else {
          assert r[|prev|].index == n;
        }
      }
    }
  }

  ghost predicate HasIndex(es: seq<Effect>, i: int) {
    exists k :: 0 <= k < |es| && es[k].index == i
  }

  // ---- Items ----

  datatype RiotGold = RiotGold(base: Option<real>, total: Option<real>, sell: Option<real>, purchasable: Option<bool>)

  /** A vendor item record; `effect` holds what `parseFloat` makes of each
      effect value (`None` for NaN). */
  datatype RiotItem = RiotItem(
    id: Option<string>, itemId: Option<string>,
    name: Option<string>, description: Option<string>, plaintext: Option<string>,
    gold: Option<RiotGold>,
    stats: Option<Entries<real>>,
    effect: Option<Entries<Option<real>>>,
    from: Option<seq<string>>, into: Option<seq<string>>, tags: Option<seq<string>>,
    maps: Option<map<string, bool>>, depth: Option<int>,
    hideFromAll: bool)

  /** `a || b` on optional strings, where the empty string is falsy. */
  function IdOr(a: Option<string>, b: Option<string>): Option<string> {
    if a.Some? && a.value != "" then a else b
  }

  function IntOr(a: Option<int>, d: int): int {
    if a.Some? && a.value != 0 then a.value else d
  }

  /** The `gold` object `convertItem` builds: missing amounts become 0 and
      a missing `purchasable` becomes true. */
  function ConvertedGold(gold: Option<RiotGold>): Gold {
    match gold
    case None => Gold(0.0, 0.0, 0.0, true)
    case Some(g) => Gold(NumberOr(g.base, 0.0), NumberOr(g.total, 0.0), NumberOr(g.sell, 0.0), g.purchasable.GetOr(true))
  }

  /** What `convertItem` returns. */
  function ConvertedItem(table: Table, riotItem: Option<RiotItem>): Option<Item> {
    match riotItem
    case None => None
    case Some(it) =>
      Some(Item(
        id := IdOr(it.id, it.itemId),
        name := Some(it.name.GetOr("")),
        description := it.description.GetOr(""),
        plaintext := it.plaintext.GetOr(""),
        gold := Some(ConvertedGold(it.gold)),
        stats := Some(if it.stats.Some? then Converted(table, it.stats.value) else []),
        from := it.from.GetOr([]), into := it.into.GetOr([]), tags := it.tags.GetOr([]),
        maps := it.maps.GetOr(map[]),
        depth := IntOr(it.depth, 1),
        effects := if it.effect.Some? then Some(EffectsUpTo(it.effect.value, 10)) else None,
        passives := Some(Tagged(it.description, "passive")),
        actives := Some(Tagged(it.description, "active"))))
  }

  /** `convertItem`. */
  method ConvertItem(riotItem: Option<RiotItem>) returns (convertedItem: Option<Item>)
    ensures convertedItem == ConvertedItem(StatMappings, riotItem)
  {
    if riotItem.None? {
      return None;
    }
    var it := riotItem.value;
    var stats: Entries<real> := [];
    if it.stats.Some? {
      stats := ConvertStats(it.stats.value);
    }
    var effects: Option<seq<Effect>> := None;
    if it.effect.Some? {
      var es := ConvertEffects(it.effect.value);
      effects := Some(es);
    }
    var passives := ExtractPassives(it.description);
    var actives := ExtractActives(it.description);
    convertedItem := Some(Item(
      id := IdOr(it.id, it.itemId),
      name := Some(it.name.GetOr("")),
      description := it.description.GetOr(""),
      plaintext := it.plaintext.GetOr(""),
      gold := Some(ConvertedGold(it.gold)),
      stats := Some(stats),
      from := it.from.GetOr([]), into := it.into.GetOr([]), tags := it.tags.GetOr([]),
      maps := it.maps.GetOr(map[]),
      depth := IntOr(it.depth, 1),
      effects := effects,
      passives := Some(passives),
      actives := Some(actives)));
  }

  /** A converted item always has a gold object, a stats object with unique
      keys and no zero values, passive and active lists and a nonzero depth;
      it is purchasable unless the record says explicitly that it is not. */
  lemma ConvertedItemShape(table: Table, riotItem: RiotItem)
    ensures ConvertedItem(table, Some(riotItem)).Some?
    ensures var item := ConvertedItem(table, Some(riotItem)).value;
      item.gold.Some? && item.stats.Some? && item.passives.Some? && item.actives.Some? &&
      WellFormedItem(item) && item.depth != 0 &&
      (forall j :: 0 <= j < |item.stats.value| ==> item.stats.value[j].1 != 0.0) &&
      (item.gold.value.purchasable <==> !(riotItem.gold.Some? && riotItem.gold.value.purchasable == Some(false)))
  {
    if riotItem.stats.Some? {
      ConvertedNoZero(table, riotItem.stats.value);
    }
  }

  /** `convertAllItems` keeps an item unless it has a gold object whose
      `purchasable` is not true (a missing flag counts as false here) or it
      is hidden from all. */
  predicate Kept(item: RiotItem) {
    !(item.gold.Some? && item.gold.value.purchasable != Some(true)) && !item.hideFromAll
  }

  /** What `convertAllItems` returns: the kept items, converted, under their
      own keys. */
  function AllItems(table: Table, riotItems: Entries<RiotItem>): (out: Entries<Item>)
    ensures DistinctKeys(out)
    decreases |riotItems|
  {
    if |riotItems| == 0 then []
    else
      var prev := AllItems(table, riotItems[..|riotItems| - 1]);
      var (itemId, itemData) := riotItems[|riotItems| - 1];
      if Kept(itemData) then Put(prev, itemId, ConvertedItem(table, Some(itemData)).value) else prev
  }

  /** `convertAllItems`. */
  method ConvertAllItems(riotItems: Entries<RiotItem>) returns (convertedItems: Entries<Item>)
    ensures convertedItems == AllItems(StatMappings, riotItems)
  {
    convertedItems := [];
    var i := 0;
    while i < |riotItems|
      invariant 0 <= i <= |riotItems|
      invariant convertedItems == AllItems(StatMappings, riotItems[..i])
    {
      var (itemId, itemData) := riotItems[i];
      assert riotItems[..i + 1][..i] == riotItems[..i];
      if !(itemData.gold.Some? && itemData.gold.value.purchasable != Some(true)) && !itemData.hideFromAll {
        var converted := ConvertItem(Some(itemData));
        convertedItems := Put(convertedItems, itemId, converted.value);
      }
      i := i + 1;
    }
    assert riotItems[..i] == riotItems;
  }

  /** For an input with unique keys, each key maps to its converted item
      exactly when the item is kept, and to nothing otherwise. */
  lemma {:induction false} AllItemsGet(table: Table, riotItems: Entries<RiotItem>, i: nat)
    requires DistinctKeys(riotItems) && i < |riotItems|
    ensures Kept(riotItems[i].1) ==> Get(AllItems(table, riotItems), riotItems[i].0) == ConvertedItem(table, Some(riotItems[i].1))
    ensures !Kept(riotItems[i].1) ==> Get(AllItems(table, riotItems), riotItems[i].0) == None
    decreases |riotItems|
  {
    var n := |riotItems| - 1;
    var init := riotItems[..n];
    if i < n {
      assert init[i] == riotItems[i];
      assert DistinctKeys(init);
      AllItemsGet(table, init, i);
      assert riotItems[n].0 != riotItems[i].0;
      AllItemsOther(table, riotItems, riotItems[i].0);
    } else {
      assert !HasKey(init, riotItems[n].0);
      AllItemsAbsent(table, init, riotItems[n].0);
      AllItemsLast(table, riotItems);
    }
  }

  /** A key other than the last entry's is found where the earlier
      entries put it. */
  lemma AllItemsOther(table: Table, riotItems: Entries<RiotItem>, k: string)
    requires |riotItems| > 0 && k != riotItems[|riotItems| - 1].0
    ensures Get(AllItems(table, riotItems), k) == Get(AllItems(table, riotItems[..|riotItems| - 1]), k)
  {
  }

  /** The last entry's key holds its converted item when it is kept, and
      what the earlier entries put there otherwise. */
  lemma AllItemsLast(table: Table, riotItems: Entries<RiotItem>)
    requires |riotItems| > 0
    ensures var (id, it) := riotItems[|riotItems| - 1];
      (Kept(it) ==> Get(AllItems(table, riotItems), id) == ConvertedItem(table, Some(it))) &&
      (!Kept(it) ==> Get(AllItems(table, riotItems), id) == Get(AllItems(table, riotItems[..|riotItems| - 1]), id))
  {
    var (id, it) := riotItems[|riotItems| - 1];
    assert ConvertedItem(table, Some(it)).Some?;
  }

  /** A key the input lacks is absent from the output. */
  lemma {:induction false} AllItemsAbsent(table: Table, riotItems: Entries<RiotItem>, key: string)
    requires !HasKey(riotItems, key)
    ensures Get(AllItems(table, riotItems), key) == None
    decreases |riotItems|
  {
    if |riotItems| > 0 {
      var init := riotItems[..|riotItems| - 1];
      assert !HasKey(init, key) by {
        forall j | 0 <= j < |init| ensures init[j].0 != key { assert init[j] == riotItems[j]; }
      }
      AllItemsAbsent(table, init, key);
    }
  }

  /** An item whose gold object lacks `purchasable` is dropped by
      `convertAllItems`, although `convertItem` on its own would call it
      purchasable. */
  lemma MissingPurchasableDropped(table: Table, riotItems: Entries<RiotItem>, i: nat)
    requires DistinctKeys(riotItems) && i < |riotItems|
    requires riotItems[i].1.gold.Some? && riotItems[i].1.gold.value.purchasable.None?
    ensures Get(AllItems(table, riotItems), riotItems[i].0) == None
    ensures ConvertedItem(table, Some(riotItems[i].1)).value.gold.value.purchasable
  {
    AllItemsGet(table, riotItems, i);
  }
}
