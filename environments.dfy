/**
 * `environmentConfig`, `createEnvironmentData` and `groupBirdsByHabitat`:
 * the catalogue, in `getAllBirds` order, is sorted into per-habitat lists.
 * Each entry keeps the bird and gains the family's name and colour, its
 * habitat and (in `createEnvironmentData`) its environment's colour.
 */
module Environments {
  import opened Basics
  import opened Catalogue
  import opened Habitats

  datatype Size = Size(width: real, height: real, depth: real)

  /** One entry of `environmentConfig`. */
  datatype EnvConfig = EnvConfig(name: string, color: int, position: Vec3, size: Size,
                                 birdPositions: string, animationType: string)

  /** The `color` of `environmentConfig[Key(h)]`. */
  function EnvColor(h: Habitat): int
  {
    match h
    case Water => 0x4A90E2
    case Sky => 0x87CEEB
    case Tree => 0x228B22
    case TreeHigh => 0x2F5233
    case Garden => 0x9B59B6
    case Ground => 0x8B4513
  }

  /** `environmentConfig[Key(h)]`. */
  function Config(h: Habitat): (c: EnvConfig)
    ensures c.color == EnvColor(h)
  {
    match h
    case Water => EnvConfig("Water Environment", EnvColor(h), Vec3(-10.0, 0.0, -5.0), Size(6.0, 1.0, 6.0), "circular", "bobbing")
    case Sky => EnvConfig("Sky Environment", EnvColor(h), Vec3(0.0, 10.0, -10.0), Size(8.0, 2.0, 4.0), "scattered", "floating")
    case Tree => EnvConfig("Tree Environment", EnvColor(h), Vec3(-2.0, 3.0, 2.0), Size(6.0, 8.0, 6.0), "branches", "perching")
    case TreeHigh => EnvConfig("Tall Tree Environment", EnvColor(h), Vec3(6.0, 5.0, 0.0), Size(4.0, 12.0, 4.0), "trunk", "drumming")
    case Garden => EnvConfig("Garden Environment", EnvColor(h), Vec3(2.0, 1.0, 8.0), Size(5.0, 3.0, 5.0), "flowers", "hovering")
    case Ground => EnvConfig("Ground Environment", EnvColor(h), Vec3(-8.0, -1.0, 8.0), Size(6.0, 1.0, 6.0), "scattered", "pecking")
  }

  /** `Object.keys(environmentConfig)`, in declaration order. */
  const Keys: seq<Habitat> := [Water, Sky, Tree, TreeHigh, Garden, Ground]

  /** `{ ...bird, originalFamily, originalFamilyColor, habitat }`, plus
      `environmentColor` when the environment's colour is attached. */
  datatype HabitatBird = HabitatBird(bird: Bird, originalFamily: string, originalFamilyColor: string,
                                     habitat: Habitat, environmentColor: Option<int>)

  /** A classifier of birds by name and family name: `getBirdHabitat`,
      whose value `HabitatOf` gives. */
  type Classifier = (Bird, string) -> Habitat

  /** The record pushed for one listed bird. */
  function Sort(e: CatalogueBird, coloured: bool, classify: Classifier): (r: HabitatBird)
    ensures r.bird == e.bird && r.originalFamily == e.family && r.originalFamilyColor == e.familyColor
    ensures r.habitat == classify(e.bird, e.family)
    ensures r.environmentColor == if coloured then Some(EnvColor(r.habitat)) else None
  {
    var h := classify(e.bird, e.family);
    HabitatBird(e.bird, e.family, e.familyColor, h, if coloured then Some(EnvColor(h)) else None)
  }

  /** The records for a run of listed birds, in order. */
  function Sorted(entries: seq<CatalogueBird>, coloured: bool, classify: Classifier): (r: seq<HabitatBird>)
    ensures |r| == |entries|
  {
    if entries == [] then []
    else Sorted(entries[..|entries| - 1], coloured, classify) + [Sort(entries[|entries| - 1], coloured, classify)]
  }

  /** Record `k` is the record of listed bird `k`. */
  lemma {:induction false} SortedAt(entries: seq<CatalogueBird>, coloured: bool, classify: Classifier, k: nat)
    requires k < |entries|
    ensures Sorted(entries, coloured, classify)[k] == Sort(entries[k], coloured, classify)
    decreases |entries|
  {
    if k < |entries| - 1 {
      SortedAt(entries[..|entries| - 1], coloured, classify, k);
    }
  }

  /** The records of the whole catalogue, family by family, bird by bird,
      classified by `classify`. */
  function EntriesBy(families: seq<Family>, coloured: bool, classify: Classifier): seq<HabitatBird>
  {
    Sorted(GetAllBirds(families), coloured, classify)
  }

  /** The records of the whole catalogue, classified by `getBirdHabitat`. */
  function Entries(families: seq<Family>, coloured: bool): seq<HabitatBird>
  {
    EntriesBy(families, coloured, HabitatOf)
  }

  /** In `createEnvironmentData` every record carries the colour of its own
      habitat's environment. */
  lemma ColouredEntries(families: seq<Family>)
    ensures forall e :: e in Entries(families, true) ==> e.environmentColor == Some(EnvColor(e.habitat))
  {
    var listed := GetAllBirds(families);
    forall e | e in Entries(families, true)
      ensures e.environmentColor == Some(EnvColor(e.habitat))
    {
      var k :| 0 <= k < |listed| && Entries(families, true)[k] == e;
      SortedAt(listed, true, HabitatOf, k);
    }
  }

  /** The records of `entries` whose habitat is `h`, in order. */
  function InHabitat(entries: seq<HabitatBird>, h: Habitat): seq<HabitatBird>
  {
    if entries == [] then []
    else
      var last := entries[|entries| - 1];
      InHabitat(entries[..|entries| - 1], h) + if last.habitat == h then [last] else []
  }

  /** Appending a record extends exactly the list of its own habitat. */
  lemma InHabitatAppend(entries: seq<HabitatBird>, e: HabitatBird)
    ensures forall h :: InHabitat(entries + [e], h) == InHabitat(entries, h) + (if e.habitat == h then [e] else [])
  {
    assert (entries + [e])[..|entries|] == entries;
  }

  /** The list for `h` holds exactly the records of habitat `h`, and never
      more of them than there are records. */
  lemma {:induction false} InHabitatMembers(entries: seq<HabitatBird>, h: Habitat)
    ensures forall e :: e in InHabitat(entries, h) <==> e in entries && e.habitat == h
    ensures |InHabitat(entries, h)| <= |entries|
  {
    if entries != [] {
      var init := entries[..|entries| - 1];
      InHabitatMembers(init, h);
      assert entries == init + [entries[|entries| - 1]];
    }
  }

  /** The sum of the six list lengths. */
  function CountAll(entries: seq<HabitatBird>): nat
  {
    |InHabitat(entries, Water)| + |InHabitat(entries, Sky)| + |InHabitat(entries, Tree)| +
    |InHabitat(entries, TreeHigh)| + |InHabitat(entries, Garden)| + |InHabitat(entries, Ground)|
  }

  /** The six lists partition the records: their lengths add up to the
      number of records. */
  lemma {:induction false} CountsSum(entries: seq<HabitatBird>)
    ensures CountAll(entries) == |entries|
  {
    if entries != [] {
      var init := entries[..|entries| - 1];
      var e := entries[|entries| - 1];
      CountsSum(init);
      assert entries == init + [e];
      InHabitatAppend(init, e);
    }
  }

  /** `environments[envKey]`: the configuration spread out, the birds pushed
      so far, and the running count. */
  datatype Environment = Environment(config: EnvConfig, birds: seq<HabitatBird>, birdCount: nat)

  /** Every habitat has its environment, with its configuration, holding
      exactly the records of that habitat, counted. */
  predicate Distributed(envs: map<Habitat, Environment>, entries: seq<HabitatBird>)
  {
    Configured(envs) && Filled(envs, entries)
  }

  /** Every habitat has its environment, with its configuration. */
  predicate Configured(envs: map<Habitat, Environment>)
  {
    forall h: Habitat :: h in envs && envs[h].config == Config(h)
  }

  /** Every habitat has its environment, of its colour, holding exactly the
      records of that habitat, counted. */
  predicate Filled(envs: map<Habitat, Environment>, entries: seq<HabitatBird>)
  {
    forall h: Habitat :: h in envs && envs[h].config.color == EnvColor(h) &&
      envs[h].birds == InHabitat(entries, h) && envs[h].birdCount == |InHabitat(entries, h)|
  }

  /** No environment's configuration has changed since `envs0`. */
  predicate SameConfigs(envs: map<Habitat, Environment>, envs0: map<Habitat, Environment>)
  {
    forall h :: h in envs0 ==> h in envs && envs[h].config == envs0[h].config
  }

  /** Every habitat has a key. */
  lemma KeyOf(h: Habitat)
    ensures h in Keys
  {
    match h
    case Water =>
    case Sky =>
    case Tree =>
    case TreeHigh =>
    case Garden =>
    case Ground =>
  }

  /** The `Object.keys(environmentConfig).forEach(...)` of
      `createEnvironmentData`: every habitat gets its environment, its
      configuration spread out, with no birds and a count of 0. */
  method InitEnvironments() returns (environments: map<Habitat, Environment>)
    ensures Configured(environments) && Filled(environments, [])
  {
    environments := map[];
    for k := 0 to |Keys|
      invariant forall h :: h in Keys[..k] ==> h in environments && environments[h] == Environment(Config(h), [], 0)
    {
      var envKey := Keys[k];
      environments := environments[envKey := Environment(Config(envKey), [], 0)];
    }
    forall h: Habitat
      ensures h in environments && environments[h] == Environment(Config(h), [], 0)
    {
      KeyOf(h);
      assert Keys[..|Keys|] == Keys;
    }
  }

  /** Pushing one more record onto its habitat's environment, and counting
      it, keeps the environments distributed. */
  lemma DistributeStep(envs: map<Habitat, Environment>, entries: seq<HabitatBird>, r: HabitatBird)
    requires Filled(envs, entries)
    ensures var env := envs[r.habitat];
      Filled(envs[r.habitat := env.(birds := env.birds + [r], birdCount := env.birdCount + 1)], entries + [r])
  {
    InHabitatAppend(entries, r);
  }

  /** The records of `family`'s birds sit in `es` from position `start` on,
      in order. */
  predicate RecordsAt(es: seq<HabitatBird>, start: nat, family: Family, coloured: bool, classify: Classifier)
  {
    start + |family.birds| <= |es| &&
    forall j {:trigger family.birds[j]} :: 0 <= j < |family.birds| ==>
      es[start + j] == Sort(WithFamily(family.birds[j], family), coloured, classify)
  }

  /** The records of family `i` start at the family's offset. */
  lemma FamilyRecords(families: seq<Family>, i: nat, coloured: bool, classify: Classifier)
    requires i < |families|
    ensures RecordsAt(EntriesBy(families, coloured, classify), Offset(families, i), families[i], coloured, classify)
  {
    OffsetStep(families, i);
    OffsetBound(families, i + 1);
    forall j | 0 <= j < |families[i].birds|
      ensures EntriesBy(families, coloured, classify)[Offset(families, i) + j] ==
        Sort(WithFamily(families[i].birds[j], families[i]), coloured, classify)
    {
      AllBirdsAt(families, i, j);
      SortedAt(GetAllBirds(families), coloured, classify, Offset(families, i) + j);
    }
  }

  /** There are as many records as listed birds, which is where the
      offset past the last family points. */
  lemma EntriesLength(families: seq<Family>, coloured: bool, classify: Classifier)
    ensures |EntriesBy(families, coloured, classify)| == Offset(families, |families|)
  {
    assert families[..|families|] == families;
  }

  /** Where each family's records start, and past the last family the
      number of records. */
  function Offsets(families: seq<Family>): (r: seq<nat>)
    ensures |r| == |families| + 1
  {
    seq(|families| + 1, i requires 0 <= i <= |families| => Offset(families, i))
  }

  /** `es` holds the records of `families` one family after the other, the
      records of family `i` starting at `offsets[i]`. */
  predicate Layout(es: seq<HabitatBird>, offsets: seq<nat>, families: seq<Family>, coloured: bool, classify: Classifier)
  {
    |offsets| == |families| + 1 && offsets[0] == 0 && offsets[|families|] == |es| &&
    forall i :: 0 <= i < |families| ==>
      offsets[i + 1] == offsets[i] + |families[i].birds| && RecordsAt(es, offsets[i], families[i], coloured, classify)
  }

  /** The records of the catalogue are laid out family by family. */
  lemma LaidOut(families: seq<Family>, coloured: bool, classify: Classifier)
    ensures Layout(EntriesBy(families, coloured, classify), Offsets(families), families, coloured, classify)
  {
    EntriesLength(families, coloured, classify);
    assert families[..0] == [];
    forall i | 0 <= i < |families|
      ensures Offsets(families)[i + 1] == Offsets(families)[i] + |families[i].birds|
      ensures RecordsAt(EntriesBy(families, coloured, classify), Offsets(families)[i], families[i], coloured, classify)
    {
      OffsetStep(families, i);
      FamilyRecords(families, i, coloured, classify);
    }
  }

  /** Family `i` of a layout: where its records are, and where the next
      family's start. */
  lemma FamilyAt(es: seq<HabitatBird>, offsets: seq<nat>, families: seq<Family>, coloured: bool, classify: Classifier, i: nat)
    requires Layout(es, offsets, families, coloured, classify) && i < |families|
    ensures offsets[i + 1] == offsets[i] + |families[i].birds|
    ensures RecordsAt(es, offsets[i], families[i], coloured, classify)
  {
  }

  /** The first `n + 1` records are the first `n` and record `n`. */
  lemma PrefixStep<T>(s: seq<T>, n: nat)
    requires n < |s|
    ensures s[..n + 1] == s[..n] + [s[n]]
  {
  }

  /** `createEnvironmentData`, sorting the birds with `getBirdHabitat`. */
  method CreateEnvironmentData(families: seq<Family>, getBirdHabitat: Classifier) returns (envs: map<Habitat, Environment>)
    ensures Distributed(envs, EntriesBy(families, true, getBirdHabitat))
  {
    ghost var es := EntriesBy(families, true, getBirdHabitat);
    LaidOut(families, true, getBirdHabitat);
    envs := InitEnvironments();
    envs := DistributeFamilies(families, getBirdHabitat, es, Offsets(families), envs);
  }

  /** `birdFamilies.forEach(...)` in `createEnvironmentData`: the birds of
      every family pushed, family after family, into environments that start
      out empty. */
  method DistributeFamilies(families: seq<Family>, getBirdHabitat: Classifier, ghost es: seq<HabitatBird>,
                            ghost offsets: seq<nat>, envs0: map<Habitat, Environment>)
    returns (envs: map<Habitat, Environment>)
    requires Layout(es, offsets, families, true, getBirdHabitat)
    requires Filled(envs0, [])
    ensures Filled(envs, es) && SameConfigs(envs, envs0)
  {
    envs := envs0;
    assert es[..0] == [];
    for i := 0 to |families|
      invariant Filled(envs, es[..offsets[i]]) && SameConfigs(envs, envs0)
    {
      FamilyAt(es, offsets, families, true, getBirdHabitat, i);
      envs := DistributeFamily(families[i], getBirdHabitat, es, offsets[i], envs);
    }
    assert es[..|es|] == es;
  }

  /** `family.birds.forEach(...)` in `createEnvironmentData`: the birds of
      family `i` pushed after those of the families before it. */
  method DistributeFamily(family: Family, getBirdHabitat: Classifier, ghost es: seq<HabitatBird>, ghost start: nat,
                          envs0: map<Habitat, Environment>)
    returns (envs: map<Habitat, Environment>)
    requires RecordsAt(es, start, family, true, getBirdHabitat)
    requires Filled(envs0, es[..start])
    ensures Filled(envs, es[..start + |family.birds|]) && SameConfigs(envs, envs0)
  {
    envs := envs0;
    for j := 0 to |family.birds|
      invariant Filled(envs, es[..start + j]) && SameConfigs(envs, envs0)
    {
      envs := DistributeBird(family, family.birds[j], getBirdHabitat, es, start + j, envs);
    }
  }

  /** The callback `bird => {...}` of `createEnvironmentData`: `bird`, whose
      record is record `n` of `es`, pushed into the environment of its
      habitat, which counts one more bird. */
  method DistributeBird(family: Family, bird: Bird, getBirdHabitat: Classifier, ghost es: seq<HabitatBird>, ghost n: nat,
                        envs0: map<Habitat, Environment>)
    returns (envs: map<Habitat, Environment>)
    requires n < |es| && es[n] == Sort(WithFamily(bird, family), true, getBirdHabitat)
    requires Filled(envs0, es[..n])
    ensures Filled(envs, es[..n + 1]) && SameConfigs(envs, envs0)
  {
    var habitat := getBirdHabitat(bird, family.name);
    var env := envs0[habitat];
    var record := HabitatBird(bird, family.name, family.color, habitat, Some(env.config.color));
    PrefixStep(es, n);
    DistributeStep(envs0, es[..n], record);
    envs := envs0[habitat := env.(birds := env.birds + [record], birdCount := env.birdCount + 1)];
  }

  /** The environment counts add up to the number of records, and each
      count is the length of its list. */
  lemma EnvironmentCounts(envs: map<Habitat, Environment>, entries: seq<HabitatBird>)
    requires Distributed(envs, entries)
    ensures forall h :: envs[h].birdCount == |envs[h].birds|
    ensures envs[Water].birdCount + envs[Sky].birdCount + envs[Tree].birdCount + envs[TreeHigh].birdCount +
      envs[Garden].birdCount + envs[Ground].birdCount == |entries|
  {
    CountsSum(entries);
  }

  /** `createEnvironmentData` accounts for every bird of the catalogue. */
  lemma CatalogueCounted(families: seq<Family>, envs: map<Habitat, Environment>)
    requires Distributed(envs, Entries(families, true))
    ensures envs[Water].birdCount + envs[Sky].birdCount + envs[Tree].birdCount + envs[TreeHigh].birdCount +
      envs[Garden].birdCount + envs[Ground].birdCount == TotalBirds(families)
  {
    EnvironmentCounts(envs, Entries(families, true));
  }

  /** Every listed bird lands in exactly the environment of its habitat,
      tagged with its family and the environment's colour, and nowhere else. */
  lemma EnvironmentOfEachBird(families: seq<Family>, envs: map<Habitat, Environment>, k: nat, h: Habitat)
    requires Distributed(envs, Entries(families, true))
    requires k < |GetAllBirds(families)|
    ensures var e := GetAllBirds(families)[k];
      var r := HabitatBird(e.bird, e.family, e.familyColor, HabitatOf(e.bird, e.family), Some(EnvColor(HabitatOf(e.bird, e.family))));
      r in envs[h].birds <==> h == HabitatOf(e.bird, e.family)
  {
    var es := Entries(families, true);
    InHabitatMembers(es, h);
    SortedAt(GetAllBirds(families), true, HabitatOf, k);
    assert es[k] in es;
  }

  /** One of `groupBirdsByHabitat`'s four groups. */
  datatype Group = Group(birds: seq<HabitatBird>, color: int)

  /** The habitats `groupBirdsByHabitat` has a group for. */
  predicate HasGroup(h: Habitat)
  {
    h == Water || h == Sky || h == Tree || h == Ground
  }

  /** The colours `groupBirdsByHabitat` gives its groups. */
  function GroupColor(h: Habitat): int
  {
    match h
    case Water => 0x4A90E2
    case Sky => 0x87CEEB
    case Tree => 0x228B22
    case Ground => 0x8B4513
    case _ => 0
  }

  /** Each group has its environment's colour. */
  lemma GroupColorsMatchEnvironments()
    ensures forall h :: HasGroup(h) ==> GroupColor(h) == Config(h).color
  {
  }

  /** `groupBirdsByHabitat`'s outcome: the groups, or the `TypeError` it throws
      on the first record whose habitat has no group (`undefined.birds`). */
  datatype Grouping = Grouped(groups: map<Habitat, Group>) | TypeError(offender: HabitatBird)

  /** The four groups hold exactly the records of their habitat. */
  predicate Grouped4(groups: map<Habitat, Group>, entries: seq<HabitatBird>)
  {
    forall h: Habitat :: (h in groups <==> HasGroup(h)) &&
      (h in groups ==> groups[h] == Group(InHabitat(entries, h), GroupColor(h)))
  }

  /** Every record so far has a group. */
  predicate AllGrouped(entries: seq<HabitatBird>)
  {
    forall k :: 0 <= k < |entries| ==> HasGroup(entries[k].habitat)
  }

  const EmptyGroups: map<Habitat, Group> :=
    map[Water := Group([], 0x4A90E2), Sky := Group([], 0x87CEEB), Tree := Group([], 0x228B22), Ground := Group([], 0x8B4513)]

  lemma EmptyGrouped()
    ensures Grouped4(EmptyGroups, [])
  {
    forall h: Habitat
      ensures (h in EmptyGroups <==> HasGroup(h)) && (h in EmptyGroups ==> EmptyGroups[h] == Group([], GroupColor(h)))
    {
      match h
      case Water =>
      case Sky =>
      case Tree =>
      case TreeHigh =>
      case Garden =>
      case Ground =>
    }
  }

  /** Pushing one more record with a group keeps the groups exact. */
  lemma GroupStep(groups: map<Habitat, Group>, entries: seq<HabitatBird>, r: HabitatBird)
    requires Grouped4(groups, entries)
    requires r.habitat in groups
    ensures var g := groups[r.habitat];
      Grouped4(groups[r.habitat := g.(birds := g.birds + [r])], entries + [r])
  {
    InHabitatAppend(entries, r);
  }

  lemma StillAllGrouped(entries: seq<HabitatBird>, r: HabitatBird)
    requires AllGrouped(entries) && HasGroup(r.habitat)
    ensures AllGrouped(entries + [r])
  {
  }

  /** `offender` is the first record of `es` without a group. */
  predicate FirstUngrouped(es: seq<HabitatBird>, offender: HabitatBird)
  {
    exists k :: 0 <= k < |es| && es[k] == offender && !HasGroup(offender.habitat) &&
      forall k' :: 0 <= k' < k ==> HasGroup(es[k'].habitat)
  }

  /** When every record before position `n` has a group and record `n` does
      not, record `n` is the first offender. */
  lemma FirstOffender(es: seq<HabitatBird>, n: nat)
    requires n < |es| && AllGrouped(es[..n])
    requires !HasGroup(es[n].habitat)
    ensures FirstUngrouped(es, es[n])
    ensures !AllGrouped(es)
  {
    assert forall k' :: 0 <= k' < n ==> es[..n][k'] == es[k'];
  }

  /** Pushing record `n` into its group extends the grouping to the next
      prefix. */
  lemma GroupNext(es: seq<HabitatBird>, n: nat, groups: map<Habitat, Group>)
    requires n < |es| && es[n].habitat in groups
    requires Grouped4(groups, es[..n]) && AllGrouped(es[..n])
    ensures var g := groups[es[n].habitat];
      var groups' := groups[es[n].habitat := g.(birds := g.birds + [es[n]])];
      Grouped4(groups', es[..n + 1]) && AllGrouped(es[..n + 1])
  {
    PrefixStep(es, n);
    GroupStep(groups, es[..n], es[n]);
    StillAllGrouped(es[..n], es[n]);
  }

  /** `groupBirdsByHabitat`, sorting the birds with `getBirdHabitat`. */
  method GroupBirdsByHabitat(families: seq<Family>, getBirdHabitat: Classifier) returns (r: Grouping)
    ensures var es := EntriesBy(families, false, getBirdHabitat);
      r.Grouped? <==> AllGrouped(es)
    ensures var es := EntriesBy(families, false, getBirdHabitat);
      r.Grouped? ==> Grouped4(r.groups, es)
    ensures var es := EntriesBy(families, false, getBirdHabitat);
      r.TypeError? ==> FirstUngrouped(es, r.offender)
  {
    ghost var es := EntriesBy(families, false, getBirdHabitat);
    LaidOut(families, false, getBirdHabitat);
    EmptyGrouped();
    r := GroupFamilies(families, getBirdHabitat, es, Offsets(families), EmptyGroups);
  }

  /** `birdFamilies.forEach(...)` in `groupBirdsByHabitat`: the birds of
      every family pushed, family after family, into groups that start out
      empty, or the throw at the first bird without a group. */
  method GroupFamilies(families: seq<Family>, getBirdHabitat: Classifier, ghost es: seq<HabitatBird>,
                       ghost offsets: seq<nat>, groups0: map<Habitat, Group>)
    returns (r: Grouping)
    requires Layout(es, offsets, families, false, getBirdHabitat)
    requires Grouped4(groups0, [])
    ensures r.Grouped? <==> AllGrouped(es)
    ensures r.Grouped? ==> Grouped4(r.groups, es)
    ensures r.TypeError? ==> FirstUngrouped(es, r.offender)
  {
    var groups := groups0;
    assert es[..0] == [];
    for i := 0 to |families|
      invariant Grouped4(groups, es[..offsets[i]]) && AllGrouped(es[..offsets[i]])
    {
      FamilyAt(es, offsets, families, false, getBirdHabitat, i);
      r := GroupFamily(families[i], getBirdHabitat, es, offsets[i], groups);
      if r.TypeError? {
        return r;
      }
      groups := r.groups;
    }
    assert es[..|es|] == es;
    return Grouped(groups);
  }

  /** `family.birds.forEach(...)` in `groupBirdsByHabitat`: the birds of
      family `i` pushed after those of the families before it, or the throw
      at the first of them without a group. */
  method GroupFamily(family: Family, getBirdHabitat: Classifier, ghost es: seq<HabitatBird>, ghost start: nat,
                     groups0: map<Habitat, Group>)
    returns (r: Grouping)
    requires RecordsAt(es, start, family, false, getBirdHabitat)
    requires Grouped4(groups0, es[..start]) && AllGrouped(es[..start])
    ensures r.Grouped? ==>
      Grouped4(r.groups, es[..start + |family.birds|]) && AllGrouped(es[..start + |family.birds|])
    ensures r.TypeError? ==> !AllGrouped(es) && FirstUngrouped(es, r.offender)
  {
    var groups := groups0;
    for j := 0 to |family.birds|
      invariant Grouped4(groups, es[..start + j]) && AllGrouped(es[..start + j])
    {
      r := GroupBird(family, family.birds[j], getBirdHabitat, es, start + j, groups);
      if r.TypeError? {
        return r;
      }
      groups := r.groups;
    }
    return Grouped(groups);
  }

  /** The callback `bird => {...}` of `groupBirdsByHabitat`: `bird`, whose
      record is record `n` of `es`, pushed into the group of its habitat, or
      the throw when that habitat has no group. */
  method GroupBird(family: Family, bird: Bird, getBirdHabitat: Classifier, ghost es: seq<HabitatBird>, ghost n: nat,
                   groups0: map<Habitat, Group>)
    returns (r: Grouping)
    requires n < |es| && es[n] == Sort(WithFamily(bird, family), false, getBirdHabitat)
    requires Grouped4(groups0, es[..n]) && AllGrouped(es[..n])
    ensures r.Grouped? ==> Grouped4(r.groups, es[..n + 1]) && AllGrouped(es[..n + 1])
    ensures r.TypeError? ==> r.offender == es[n] && !AllGrouped(es) && FirstUngrouped(es, r.offender)
  {
    var habitat := getBirdHabitat(bird, family.name);
    var record := HabitatBird(bird, family.name, family.color, habitat, None);
    if habitat !in groups0 {
      FirstOffender(es, n);
      return TypeError(record);
    }
    GroupNext(es, n, groups0);
    var g := groups0[habitat];
    return Grouped(groups0[habitat := g.(birds := g.birds + [record])]);
  }

}
