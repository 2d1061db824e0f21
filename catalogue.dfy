/**
 * The static bird catalogue (`birdFamilies`) and its two lookups,
 * `getBirdById` (first match, `null` on a miss) and `getAllBirds` (flatten).
 */
module Catalogue {
  import opened Basics

  /** One catalogue entry. `name` is optional because the classifier
      guards against a bird without one. */
  datatype Bird = Bird(
    id: string,
    name: Option<string>,
    scientificName: string,
    size: string,
    wingspan: string,
    habitat: seq<string>,
    description: string,
    imageUrl: string,
    audioUrl: string,
    isEndangered: bool,
    funFact: string)

  datatype Family = Family(id: string, name: string, color: string, description: string, birds: seq<Bird>)

  /** `{...bird, family: family.name, familyColor: family.color}`. */
  datatype CatalogueBird = CatalogueBird(bird: Bird, family: string, familyColor: string)

  function WithFamily(b: Bird, f: Family): CatalogueBird
  {
    CatalogueBird(b, f.name, f.color)
  }

  // Raptors

  const RedTailedHawk: Bird := Bird("red-tailed-hawk", Some("Red-tailed Hawk"), "Buteo jamaicensis", "LARGE", "114-133 cm", ["Forest", "Desert", "Urban"],
    "A large hawk with broad wings and a distinctive rust-colored tail. Found across North America.",
    "/images/birds/red-tailed-hawk.jpg", "https://www.soundjay.com/misc/sounds-1015.mp3", false,
    "Can spot a mouse from 100 feet away!")

  const BaldEagle: Bird := Bird("bald-eagle", Some("Bald Eagle"), "Haliaeetus leucocephalus", "LARGE", "180-230 cm", ["Wetland", "Coast"],
    "America's national bird, known for its white head and tail feathers. Impressive wingspan up to 8 feet.",
    "/images/birds/bald-eagle.jpg", "https://www.soundjay.com/misc/sounds-1016.mp3", false,
    "Can live up to 30 years in the wild!")

  const PeregrineFalcon: Bird := Bird("peregrine-falcon", Some("Peregrine Falcon"), "Falco peregrinus", "MEDIUM", "74-120 cm", ["Urban", "Cliff", "Coast"],
    "The fastest bird in the world, reaching speeds over 240 mph in hunting dives.",
    "/images/birds/peregrine-falcon.jpg", "https://www.soundjay.com/misc/sounds-1017.mp3", false,
    "Fastest animal on Earth when diving!")

  // Songbirds

  const AmericanRobin: Bird := Bird("american-robin", Some("American Robin"), "Turdus migratorius", "SMALL", "31-40 cm", ["Urban", "Forest", "Garden"],
    "A common songbird with a bright red breast. Often seen hopping on lawns looking for worms.",
    "/images/birds/american-robin.jpg", "https://www.soundjay.com/misc/sounds-1018.mp3", false,
    "First bird to sing in the morning!")

  const NorthernCardinal: Bird := Bird("northern-cardinal", Some("Northern Cardinal"), "Cardinalis cardinalis", "SMALL", "25-31 cm", ["Forest", "Garden", "Urban"],
    "Brilliant red male cardinals are a favorite backyard bird. Non-migratory species.",
    "/images/birds/northern-cardinal.jpg", "https://www.soundjay.com/misc/sounds-1019.mp3", false,
    "Both males and females sing year-round!")

  const BlueJay: Bird := Bird("blue-jay", Some("Blue Jay"), "Cyanocitta cristata", "MEDIUM", "34-43 cm", ["Forest", "Urban", "Garden"],
    "Intelligent and noisy, blue jays are known for their bright blue coloring and loud calls.",
    "/images/birds/blue-jay.jpg", "https://www.soundjay.com/misc/sounds-1020.mp3", false,
    "Can mimic the calls of hawks to scare other birds!")

  const HouseSparrow: Bird := Bird("house-sparrow", Some("House Sparrow"), "Passer domesticus", "TINY", "19-25 cm", ["Urban", "Garden", "Farm"],
    "Small, social birds that live closely with humans in cities and towns worldwide.",
    "/images/birds/house-sparrow.jpg", "https://www.soundjay.com/misc/sounds-1021.mp3", false,
    "One of the most widespread bird species!")

  // Waterfowl

  const MallardDuck: Bird := Bird("mallard-duck", Some("Mallard Duck"), "Anas platyrhynchos", "MEDIUM", "81-98 cm", ["Wetland", "Lake", "River"],
    "The most common duck species, males have distinctive green heads. Found in wetlands worldwide.",
    "/images/birds/mallard-duck.jpg", "https://www.soundjay.com/misc/sounds-1022.mp3", false,
    "Ancestor of most domestic ducks!")

  const CanadaGoose: Bird := Bird("canada-goose", Some("Canada Goose"), "Branta canadensis", "LARGE", "127-185 cm", ["Wetland", "Lake", "Urban"],
    "Large geese with distinctive black heads and white chinstrap. Known for V-formation migration.",
    "/images/birds/canada-goose.jpg", "https://www.soundjay.com/misc/sounds-1023.mp3", false,
    "Can fly over 1,000 miles in a single day!")

  const WoodDuck: Bird := Bird("wood-duck", Some("Wood Duck"), "Aix sponsa", "SMALL", "66-73 cm", ["Wetland", "Forest", "Swamp"],
    "Stunningly beautiful ducks that nest in tree cavities near water.",
    "/images/birds/wood-duck.jpg", "https://www.soundjay.com/misc/sounds-1024.mp3", false,
    "Ducklings jump from nest 50 feet high!")

  // Hummingbirds

  const RubyThroatedHummingbird: Bird := Bird("ruby-throated-hummingbird", Some("Ruby-throated Hummingbird"), "Archilochus colubris", "TINY", "8-11 cm", ["Garden", "Forest", "Urban"],
    "The only hummingbird species in eastern North America. Can beat wings 80 times per second.",
    "/images/birds/ruby-throated-hummingbird.jpg", "https://www.soundjay.com/misc/sounds-1025.mp3", false,
    "Heart beats 1,260 times per minute!")

  const AnnasHummingbird: Bird := Bird("annas-hummingbird", Some("Anna's Hummingbird"), "Calypte anna", "TINY", "12 cm", ["Garden", "Urban", "Coast"],
    "Year-round resident of the Pacific Coast. Males have brilliant rose-red heads.",
    "/images/birds/annas-hummingbird.jpg", "https://www.soundjay.com/misc/sounds-1026.mp3", false,
    "Can fly backwards and upside down!")

  // Woodpeckers

  const DownyWoodpecker: Bird := Bird("downy-woodpecker", Some("Downy Woodpecker"), "Picoides pubescens", "SMALL", "25-31 cm", ["Forest", "Urban", "Garden"],
    "The smallest North American woodpecker. Common at backyard feeders.",
    "/images/birds/downy-woodpecker.jpg", "https://www.soundjay.com/misc/sounds-1027.mp3", false,
    "Tongue extends 2 inches past its beak!")

  const PileatedWoodpecker: Bird := Bird("pileated-woodpecker", Some("Pileated Woodpecker"), "Dryocopus pileatus", "LARGE", "66-75 cm", ["Forest", "Swamp"],
    "Largest woodpecker in North America. Creates rectangular holes in dead trees.",
    "/images/birds/pileated-woodpecker.jpg", "https://www.soundjay.com/misc/sounds-1028.mp3", false,
    "Inspired the Woody Woodpecker cartoon!")

  // The five families, in catalogue order

  const Raptors: Family := Family("raptors", "Raptors", "#e74c3c",
    "Birds of prey with sharp talons and keen eyesight",
    [RedTailedHawk, BaldEagle, PeregrineFalcon])

  const Songbirds: Family := Family("songbirds", "Songbirds", "#f39c12",
    "Melodious birds known for their beautiful songs",
    [AmericanRobin, NorthernCardinal, BlueJay, HouseSparrow])

  const Waterfowl: Family := Family("waterfowl", "Waterfowl", "#3498db",
    "Swimming birds adapted for life on water",
    [MallardDuck, CanadaGoose, WoodDuck])

  const Hummingbirds: Family := Family("hummingbirds", "Hummingbirds", "#9b59b6",
    "Tiny, fast-flying birds that can hover in place",
    [RubyThroatedHummingbird, AnnasHummingbird])

  const Woodpeckers: Family := Family("woodpeckers", "Woodpeckers", "#2ecc71",
    "Tree-climbing birds that excavate insects from bark",
    [DownyWoodpecker, PileatedWoodpecker])

  /** `birdFamilies`: five families, fourteen birds. */

  const BirdFamilies: seq<Family> := [Raptors, Songbirds, Waterfowl, Hummingbirds, Woodpeckers]

  /** Number of birds over all families. */
  function TotalBirds(families: seq<Family>): nat
  {
    if families == [] then 0 else |families[0].birds| + TotalBirds(families[1..])
  }

  /** `family.birds.find(b => b.id === id)`, as the index of the match. */
  function FindIndex(birds: seq<Bird>, id: string): (r: Option<nat>)
    ensures r.None? <==> forall j :: 0 <= j < |birds| ==> birds[j].id != id
    ensures r.Some? ==> r.value < |birds| && birds[r.value].id == id
    ensures r.Some? ==> forall j :: 0 <= j < r.value ==> birds[j].id != id
  {
    if birds == [] then None
    else if birds[0].id == id then Some(0)
    else match FindIndex(birds[1..], id)
      case None => None
      case Some(j) => Some(j + 1)
  }

  /** Bird `j` of family `i` is the first bird with this id in family-then-bird order. */
  predicate FirstMatch(families: seq<Family>, id: string, i: int, j: int)
  {
    0 <= i < |families| && 0 <= j < |families[i].birds| && families[i].birds[j].id == id &&
    (forall i', j' :: 0 <= i' < i && 0 <= j' < |families[i'].birds| ==> families[i'].birds[j'].id != id) &&
    (forall j' :: 0 <= j' < j ==> families[i].birds[j'].id != id)
  }

  /** `getBirdById(id)`, over an explicit catalogue: `None` models `null`. */
  function GetBirdById(families: seq<Family>, id: string): (r: Option<CatalogueBird>)
    ensures r.None? <==>
      forall i, j :: 0 <= i < |families| && 0 <= j < |families[i].birds| ==> families[i].birds[j].id != id
    ensures r.Some? ==>
      exists i, j :: FirstMatch(families, id, i, j) && r.value == WithFamily(families[i].birds[j], families[i])
  {
    if families == [] then None
    else match FindIndex(families[0].birds, id)
      case Some(j) =>
        assert FirstMatch(families, id, 0, j);
        Some(WithFamily(families[0].birds[j], families[0]))
      case None =>
        var r := GetBirdById(families[1..], id);
        if r.Some? then
          var i, j :| FirstMatch(families[1..], id, i, j) && r.value == WithFamily(families[1..][i].birds[j], families[1..][i]);
          assert FirstMatch(families, id, i + 1, j);
          r
        else r
  }

  /** One family's birds, each tagged with the family. */
  function Tagged(f: Family): (r: seq<CatalogueBird>)
    ensures |r| == |f.birds|
    ensures forall j :: 0 <= j < |f.birds| ==> r[j] == WithFamily(f.birds[j], f)
  {
    seq(|f.birds|, j requires 0 <= j < |f.birds| => WithFamily(f.birds[j], f))
  }

  /** `getAllBirds()`: the flatten of all families, in family-then-bird order. */
  function GetAllBirds(families: seq<Family>): (r: seq<CatalogueBird>)
    ensures |r| == TotalBirds(families)
  {
    if families == [] then [] else Tagged(families[0]) + GetAllBirds(families[1..])
  }

  /** Listing two runs of families one after the other lists their birds one
      after the other. */
  lemma {:induction false} AllBirdsAppend(a: seq<Family>, b: seq<Family>)
    ensures GetAllBirds(a + b) == GetAllBirds(a) + GetAllBirds(b)
  {
    if a == [] {
      assert a + b == b;
    } else {
      assert (a + b)[1..] == a[1..] + b;
      AllBirdsAppend(a[1..], b);
    }
  }

  /** The listing of the first `i + 1` families extends that of the first `i`
      by the tagged birds of family `i`. */
  lemma AllBirdsPrefix(families: seq<Family>, i: nat)
    requires i < |families|
    ensures GetAllBirds(families[..i + 1]) == GetAllBirds(families[..i]) + Tagged(families[i])
  {
    assert families[..i + 1] == families[..i] + [families[i]];
    AllBirdsAppend(families[..i], [families[i]]);
    assert GetAllBirds([families[i]]) == Tagged(families[i]) + GetAllBirds([]);
  }

  /** Where family `i` starts in the flat listing. */
  function Offset(families: seq<Family>, i: nat): nat
    requires i <= |families|
  {
    TotalBirds(families[..i])
  }

  /** Family `i + 1` starts right after the birds of family `i`, and past
      the last family the offset is the catalogue size. */
  lemma OffsetStep(families: seq<Family>, i: nat)
    requires i < |families|
    ensures Offset(families, i + 1) == Offset(families, i) + |families[i].birds|
    ensures Offset(families, |families|) == TotalBirds(families)
  {
    AllBirdsPrefix(families, i);
    assert families[..|families|] == families;
  }

  /** No family starts past the end of the listing. */
  lemma OffsetBound(families: seq<Family>, i: nat)
    requires i <= |families|
    ensures Offset(families, i) <= TotalBirds(families)
  {
    assert families == families[..i] + families[i..];
    AllBirdsAppend(families[..i], families[i..]);
  }

  /** Bird `j` of family `i` sits at `Offset(families, i) + j` of `getAllBirds()`,
      with every bird field kept and that family's name and colour added. */
  lemma {:induction false} AllBirdsAt(families: seq<Family>, i: nat, j: nat)
    requires i < |families| && j < |families[i].birds|
    ensures Offset(families, i) + j < |GetAllBirds(families)|
    ensures GetAllBirds(families)[Offset(families, i) + j] == WithFamily(families[i].birds[j], families[i])
  {
    if i == 0 {
      assert families[..0] == [];
    } else {
      var rest := families[1..];
      AllBirdsAt(rest, i - 1, j);
      assert families[..i][1..] == rest[..i - 1];
      assert Offset(families, i) == |families[0].birds| + Offset(rest, i - 1);
    }
  }

  /** Every entry of `getAllBirds()` comes from some bird of some family. */
  lemma {:induction false} AllBirdsFrom(families: seq<Family>, k: nat)
    requires k < |GetAllBirds(families)|
    ensures exists i, j :: (0 <= i < |families| && 0 <= j < |families[i].birds| &&
      k == Offset(families, i) + j &&
      GetAllBirds(families)[k] == WithFamily(families[i].birds[j], families[i]))
  {
    assert GetAllBirds(families) == Tagged(families[0]) + GetAllBirds(families[1..]);
    if k < |families[0].birds| {
      assert families[..0] == [];
      assert k == Offset(families, 0) + k;
      assert GetAllBirds(families)[k] == WithFamily(families[0].birds[k], families[0]);
    } else {
      var rest := families[1..];
      AllBirdsFrom(rest, k - |families[0].birds|);
      var i, j :| 0 <= i < |rest| && 0 <= j < |rest[i].birds| &&
        k - |families[0].birds| == Offset(rest, i) + j &&
        GetAllBirds(rest)[k - |families[0].birds|] == WithFamily(rest[i].birds[j], rest[i]);
      assert families[..i + 1][1..] == rest[..i];
      assert k == Offset(families, i + 1) + j;
    }
  }

  /** A first-match search over the flat listing: the reference `getBirdById`
      is compared against. */
  function FirstWithId(entries: seq<CatalogueBird>, id: string): (r: Option<CatalogueBird>)
    ensures r.None? <==> forall k :: 0 <= k < |entries| ==> entries[k].bird.id != id
    ensures r.Some? ==> exists k :: (0 <= k < |entries| && entries[k] == r.value && r.value.bird.id == id &&
      forall k' :: 0 <= k' < k ==> entries[k'].bird.id != id)
  {
    if entries == [] then None
    else if entries[0].bird.id == id then Some(entries[0])
    else
      var r := FirstWithId(entries[1..], id);
      if r.Some? then
        var k :| 0 <= k < |entries[1..]| && entries[1..][k] == r.value && r.value.bird.id == id &&
          forall k' :: 0 <= k' < k ==> entries[1..][k'].bird.id != id;
        assert entries[k + 1] == r.value;
        r
      else r
  }

  lemma {:induction false} FirstWithIdAppend(a: seq<CatalogueBird>, b: seq<CatalogueBird>, id: string)
    ensures FirstWithId(a + b, id) == if FirstWithId(a, id).Some? then FirstWithId(a, id) else FirstWithId(b, id)
  {
    if a != [] {
      assert (a + b)[1..] == a[1..] + b;
      FirstWithIdAppend(a[1..], b, id);
    } else {
      assert a + b == b;
    }
  }

  lemma {:induction false} FirstWithIdTagged(f: Family, id: string, n: nat)
    requires n <= |f.birds|
    ensures FirstWithId(Tagged(f)[n..], id) ==
      match FindIndex(f.birds[n..], id)
        case None => None
        case Some(j) => Some(WithFamily(f.birds[n + j], f))
    decreases |f.birds| - n
  {
    var t, b := Tagged(f)[n..], f.birds[n..];
    if n == |f.birds| {
      assert t == [] && b == [];
    } else if f.birds[n].id == id {
      assert t[0] == WithFamily(f.birds[n], f);
      assert FindIndex(b, id) == Some(0);
    } else {
      assert t[0].bird.id != id && b[0].id != id;
      assert t[1..] == Tagged(f)[n + 1..];
      assert b[1..] == f.birds[n + 1..];
      FirstWithIdTagged(f, id, n + 1);
      assert FirstWithId(t, id) == FirstWithId(t[1..], id);
      match FindIndex(b[1..], id)
      case None =>
      case Some(j) => assert f.birds[n + 1 + j] == b[j + 1];
    }
  }

  /** `getBirdById(id)` returns exactly the first entry of `getAllBirds()`
      carrying that id: the two exports agree. */
  lemma {:induction false} LookupAgreesWithListing(families: seq<Family>, id: string)
    ensures GetBirdById(families, id) == FirstWithId(GetAllBirds(families), id)
  {
    if families != [] {
      var f := families[0];
      FirstWithIdAppend(Tagged(f), GetAllBirds(families[1..]), id);
      FirstWithIdTagged(f, id, 0);
      assert Tagged(f)[0..] == Tagged(f) && f.birds[0..] == f.birds;
      LookupAgreesWithListing(families[1..], id);
    }
  }

  /** No two entries of a listing share an id. */
  predicate UniqueIds(entries: seq<CatalogueBird>)
  {
    forall a, b :: 0 <= a < b < |entries| ==> entries[a].bird.id != entries[b].bird.id
  }

  /** With unique ids, looking up any listed bird's id yields that very entry. */
  lemma LookupOfListedBird(families: seq<Family>, x: CatalogueBird)
    requires UniqueIds(GetAllBirds(families))
    requires x in GetAllBirds(families)
    ensures GetBirdById(families, x.bird.id) == Some(x)
  {
    LookupAgreesWithListing(families, x.bird.id);
    var all := GetAllBirds(families);
    var k :| 0 <= k < |all| && all[k] == x;
    var r := FirstWithId(all, x.bird.id);
    var m :| 0 <= m < |all| && all[m] == r.value && r.value.bird.id == x.bird.id &&
      forall k' :: 0 <= k' < m ==> all[k'].bird.id != x.bird.id;
    assert m == k;
  }

  /** The ids of one family, in order. */
  function FamilyIds(f: Family): seq<string>
  {
    seq(|f.birds|, j requires 0 <= j < |f.birds| => f.birds[j].id)
  }

  /** The ids of all families, in listing order. */
  function Ids(families: seq<Family>): (r: seq<string>)
    ensures |r| == TotalBirds(families)
  {
    if families == [] then [] else FamilyIds(families[0]) + Ids(families[1..])
  }

  lemma {:induction false} IdsOfListing(families: seq<Family>)
    ensures forall k :: 0 <= k < |Ids(families)| ==> Ids(families)[k] == GetAllBirds(families)[k].bird.id
  {
    if families != [] {
      IdsOfListing(families[1..]);
    }
  }

  /** The ids of the shipped catalogue, in listing order. */
  const ShippedIds: seq<string> := [
    "red-tailed-hawk", "bald-eagle", "peregrine-falcon",
    "american-robin", "northern-cardinal", "blue-jay", "house-sparrow",
    "mallard-duck", "canada-goose", "wood-duck",
    "ruby-throated-hummingbird", "annas-hummingbird",
    "downy-woodpecker", "pileated-woodpecker"]

  lemma RaptorsIds() ensures FamilyIds(Raptors) == ShippedIds[..3] { }
  lemma SongbirdsIds() ensures FamilyIds(Songbirds) == ShippedIds[3..7] { }
  lemma WaterfowlIds() ensures FamilyIds(Waterfowl) == ShippedIds[7..10] { }
  lemma HummingbirdsIds() ensures FamilyIds(Hummingbirds) == ShippedIds[10..12] { }
  lemma WoodpeckersIds() ensures FamilyIds(Woodpeckers) == ShippedIds[12..] { }

  lemma IdsOfFive(a: Family, b: Family, c: Family, d: Family, e: Family)
    ensures Ids([a, b, c, d, e]) == FamilyIds(a) + (FamilyIds(b) + (FamilyIds(c) + (FamilyIds(d) + FamilyIds(e))))
  {
    var s := [a, b, c, d, e];
    assert s[1..] == [b, c, d, e] && s[1..][1..] == [c, d, e] && s[1..][1..][1..] == [d, e] && s[1..][1..][1..][1..] == [e];
    assert Ids([e]) == FamilyIds(e) + Ids([]);
    assert Ids([d, e]) == FamilyIds(d) + Ids([e]);
    assert Ids([c, d, e]) == FamilyIds(c) + Ids([d, e]);
    assert Ids([b, c, d, e]) == FamilyIds(b) + Ids([c, d, e]);
  }

  lemma ShippedIdsDistinct()
    ensures forall x, y :: 0 <= x < y < |ShippedIds| ==> ShippedIds[x] != ShippedIds[y]
  {
  }

  /** Five families whose ids are those of the shipped catalogue list fourteen
      birds with pairwise distinct ids. */
  lemma UniqueIdsOfFive(a: Family, b: Family, c: Family, d: Family, e: Family)
    requires FamilyIds(a) == ShippedIds[..3] && FamilyIds(b) == ShippedIds[3..7]
    requires FamilyIds(c) == ShippedIds[7..10] && FamilyIds(d) == ShippedIds[10..12]
    requires FamilyIds(e) == ShippedIds[12..]
    ensures TotalBirds([a, b, c, d, e]) == 14
    ensures UniqueIds(GetAllBirds([a, b, c, d, e]))
  {
    IdsOfFive(a, b, c, d, e);
    assert ShippedIds == ShippedIds[..3] + (ShippedIds[3..7] + (ShippedIds[7..10] + (ShippedIds[10..12] + ShippedIds[12..])));
    IdsOfListing([a, b, c, d, e]);
    ShippedIdsDistinct();
  }

  /** The shipped catalogue has fourteen birds with pairwise distinct ids. */
  lemma ShippedIdsUnique()
    ensures TotalBirds(BirdFamilies) == 14
    ensures UniqueIds(GetAllBirds(BirdFamilies))
  {
    RaptorsIds(); SongbirdsIds(); WaterfowlIds(); HummingbirdsIds(); WoodpeckersIds();
    UniqueIdsOfFive(Raptors, Songbirds, Waterfowl, Hummingbirds, Woodpeckers);
  }

  /** For every bird `b` of the shipped `getAllBirds()`, `getBirdById(b.id)` is `b`. */
  lemma ShippedLookupRoundTrip(x: CatalogueBird)
    requires x in GetAllBirds(BirdFamilies)
    ensures GetBirdById(BirdFamilies, x.bird.id) == Some(x)
  {
    ShippedIdsUnique();
    LookupOfListedBird(BirdFamilies, x);
  }
}
