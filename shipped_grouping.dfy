/**
 * The shipped catalogue run through `groupBirdsByHabitat`: its four groups
 * have no room for the garden birds, and the hummingbirds are listed
 * before the woodpeckers, so on the shipped catalogue it throws, at the
 * Ruby-throated Hummingbird at the latest.
 */
module ShippedGrouping {
  import opened Catalogue
  import opened Habitats
  import opened Environments
  import opened ShippedHabitats

  /** Family `i` of `families` has a first bird, and the habitat
      `getBirdHabitat` gives it has no group. */
  predicate UngroupedFirstBird(families: seq<Family>, i: nat)
  {
    i < |families| && 0 < |families[i].birds| && !HasGroup(HabitatOf(families[i].birds[0], families[i].name))
  }

  /** A catalogue holding a bird whose habitat has no group cannot be
      grouped: `groupBirdsByHabitat` throws on it. */
  lemma UngroupedCatalogue(families: seq<Family>, i: nat)
    requires UngroupedFirstBird(families, i)
    ensures !AllGrouped(Entries(families, false))
  {
    AllBirdsAt(families, i, 0);
    SortedAt(GetAllBirds(families), false, HabitatOf, Offset(families, i));
  }

  /** The shipped hummingbird family opens with the Ruby-throated
      Hummingbird, a garden bird. */
  lemma HummingbirdsUngrouped()
    ensures 0 < |Hummingbirds.birds| && !HasGroup(HabitatOf(Hummingbirds.birds[0], Hummingbirds.name))
  {
    RubyThroatedHummingbirdHabitat();
  }

  /** `groupBirdsByHabitat` cannot group any catalogue that lists the
      shipped hummingbird family, the shipped catalogue (where it is family
      3) among them. */
  lemma ShippedGroupingThrows(families: seq<Family>, i: nat)
    requires i < |families| && families[i] == Hummingbirds
    ensures !AllGrouped(Entries(families, false))
  {
    HummingbirdsUngrouped();
    UngroupedCatalogue(families, i);
  }
}
