/**
 * `getBirdHabitat`: an ordered keyword search over the lower-cased bird
 * name and family name. Keyword tables are searched in both texts, in the
 * order woodpecker, hummingbird, water, sky, ground; then taxonomic family
 * tables are searched in the family name alone, in the same order; the
 * first hit decides, and `'tree'` is the default.
 */
module Habitats {
  import opened Basics
  import opened Text
  import opened Catalogue

  /** The six environments; the source names them by string keys. */
  datatype Habitat = Water | Sky | Tree | TreeHigh | Garden | Ground

  /** The source's string key of each habitat. */
  function Key(h: Habitat): string
  {
    match h
    case Water => "water"
    case Sky => "sky"
    case Tree => "tree"
    case TreeHigh => "treeHigh"
    case Garden => "garden"
    case Ground => "ground"
  }

  /** The ten word tables of the classifier. */
  datatype Table =
    | WoodpeckerKeywords | HummingbirdKeywords | WaterKeywords | SkyKeywords | GroundKeywords
    | WoodpeckerFamilies | HummingbirdFamilies | WaterFamilies | SkyFamilies | GroundFamilies

  /** The words of each table, in the order the source lists them (long
      tables written in groups of ten). Keyword tables are searched in the
      bird name and the family name; family tables in the family name only. */
  function Words(t: Table): seq<string>
  {
    match t
    case WoodpeckerKeywords =>
      ["woodpecker", "pecker", "flicker", "sapsucker", "downy", "pileated"]
    case HummingbirdKeywords =>
      ["hummingbird", "ruby-throated", "annas", "rufous", "calliope"]
    case WaterKeywords =>
      ["duck", "goose", "swan", "pelican", "cormorant", "heron", "egret", "crane", "stork", "ibis"]
      + ["flamingo", "loon", "grebe", "coot", "moorhen", "gallinule", "tern", "gull", "seagull",
       "albatross"]
      + ["petrel", "shearwater", "gannet", "booby", "frigatebird", "anhinga", "bittern", "rail",
       "sandpiper", "plover"]
      + ["turnstone", "avocet", "stilt", "oystercatcher", "curlew", "godwit", "snipe", "phalarope",
       "mallard", "canada"]
    case SkyKeywords =>
      ["eagle", "hawk", "falcon", "kestrel", "osprey", "vulture", "condor", "kite", "harrier",
       "goshawk"]
      + ["sparrowhawk", "buzzard", "swift", "swallow", "martin", "nighthawk", "whippoorwill",
       "chimney", "red-tailed", "bald"]
      + ["peregrine"]
    case GroundKeywords =>
      ["quail", "pheasant", "grouse", "ptarmigan", "prairie", "chicken", "turkey", "roadrunner",
       "killdeer", "pipit"]
      + ["lark", "bunting", "towhee", "dove", "pigeon", "partridge", "francolin", "guineafowl",
       "peacock", "peafowl"]
    case WoodpeckerFamilies =>
      ["picidae", "woodpecker"]
    case HummingbirdFamilies =>
      ["trochilidae", "hummingbird"]
    case WaterFamilies =>
      ["anatidae", "pelecanidae", "ardeidae", "gruidae", "phoenicopteridae", "gaviidae",
       "podicipedidae", "rallidae", "laridae", "procellariidae"]
      + ["sulidae", "fregatidae", "scolopacidae", "charadriidae", "recurvirostridae", "waterfowl"]
    case SkyFamilies =>
      ["accipitridae", "falconidae", "cathartidae", "pandionidae", "apodidae", "hirundinidae",
       "caprimulgidae", "raptors"]
    case GroundFamilies =>
      ["phasianidae", "odontophoridae", "meleagrididae", "cariamidae", "alaudidae", "motacillidae",
       "emberizidae", "columbidae"]
  }

  /** Some keyword of `table` occurs in `text`. */
  predicate Mentions(text: string, table: seq<string>)
  {
    exists i :: 0 <= i < |table| && Contains(text, table[i])
  }

  /** A table is not mentioned in `text` when each of its keywords has a
      character, at position `idx[n]`, that `text` lacks. */
  lemma Unmentioned(text: string, table: seq<string>, idx: seq<nat>)
    requires |idx| == |table|
    requires forall n :: 0 <= n < |idx| ==> idx[n] < |table[n]| && table[n][idx[n]] !in text
    ensures !Mentions(text, table)
  {
    NoneOccur(text, table, 0, idx);
  }

  /** `bird.name?.toLowerCase() || ''`: a missing name reads as the empty string. */
  function NameOrEmpty(name: Option<string>): (r: string)
    ensures name.None? ==> r == ""
    ensures name.Some? ==> r == name.value
  {
    if name.Some? then name.value else ""
  }

  /** The classification of an already lower-cased name and family name,
      given the contents of the ten tables (`Words` in the source's
      configuration): the habitat of the first rule of `SearchOrder` that
      fires, `Tree` when none does. */
  function Classify(words: Table -> seq<string>, name: string, family: string): Habitat
  {
    match FirstFiring(SearchOrder, words, name, family)
    case Some(h) => h
    case None => Tree
  }

  /** `getBirdHabitat(bird, familyName)`, as a value. */
  function HabitatOf(bird: Bird, familyName: string): Habitat
  {
    Classify(Words, Lower(NameOrEmpty(bird.name)), Lower(familyName))
  }

  /** One loop of `getBirdHabitat`: does any keyword of `table` occur in the
      name (when `searchName`) or in the family name? */
  method Scan(name: string, family: string, table: seq<string>, searchName: bool) returns (hit: bool)
    ensures hit <==> (searchName && Mentions(name, table)) || Mentions(family, table)
  {
    for i := 0 to |table|
      invariant forall k :: 0 <= k < i ==> !(searchName && Contains(name, table[k])) && !Contains(family, table[k])
    {
      if (searchName && Contains(name, table[i])) || Contains(family, table[i]) {
        return true;
      }
    }
    return false;
  }

  /** `getBirdHabitat`: the ten searches of `SearchOrder`, each returning on
      its first hit, then the default. */
  method GetBirdHabitat(bird: Bird, familyName: string) returns (r: Habitat)
    ensures r == HabitatOf(bird, familyName)
  {
    var birdName := Lower(NameOrEmpty(bird.name));
    var family := Lower(familyName);
    for k := 0 to |SearchOrder|
      invariant FirstFiring(SearchOrder, Words, birdName, family) == FirstFiring(SearchOrder[k..], Words, birdName, family)
    {
      var rule := SearchOrder[k];
      var hit := Scan(birdName, family, Words(rule.table), rule.searchesName);
      FirstFiringStep(SearchOrder, k, Words, birdName, family);
      if hit {
        return rule.habitat;
      }
    }
    return Tree;
  }

  /** One step of the search order: a table, whether the bird name is
      searched as well as the family name, and the habitat a hit gives. */
  datatype Rule = Rule(table: Table, searchesName: bool, habitat: Habitat)

  /** The ten searches of `getBirdHabitat`, in the order they are made. */
  const SearchOrder: seq<Rule> := [
    Rule(WoodpeckerKeywords, true, TreeHigh),
    Rule(HummingbirdKeywords, true, Garden),
    Rule(WaterKeywords, true, Water),
    Rule(SkyKeywords, true, Sky),
    Rule(GroundKeywords, true, Ground),
    Rule(WoodpeckerFamilies, false, TreeHigh),
    Rule(HummingbirdFamilies, false, Garden),
    Rule(WaterFamilies, false, Water),
    Rule(SkyFamilies, false, Sky),
    Rule(GroundFamilies, false, Ground)]

  predicate Fires(rule: Rule, words: Table -> seq<string>, name: string, family: string)
  {
    (rule.searchesName && Mentions(name, words(rule.table))) || Mentions(family, words(rule.table))
  }

  /** The habitat of the first rule that fires, if any. */
  function FirstFiring(rules: seq<Rule>, words: Table -> seq<string>, name: string, family: string): Option<Habitat>
  {
    if rules == [] then None
    else if Fires(rules[0], words, name, family) then Some(rules[0].habitat)
    else FirstFiring(rules[1..], words, name, family)
  }

  /** `FirstFiring` finds nothing exactly when no rule fires, and otherwise
      gives the habitat of a firing rule before which none fires. */
  lemma {:induction false} FirstFiringMeaning(rules: seq<Rule>, words: Table -> seq<string>, name: string, family: string)
    ensures FirstFiring(rules, words, name, family).None? <==> forall k :: 0 <= k < |rules| ==> !Fires(rules[k], words, name, family)
    ensures FirstFiring(rules, words, name, family).Some? ==> exists k :: (0 <= k < |rules| && Fires(rules[k], words, name, family) &&
      rules[k].habitat == FirstFiring(rules, words, name, family).value &&
      forall j :: 0 <= j < k ==> !Fires(rules[j], words, name, family))
  {
    if rules != [] && !Fires(rules[0], words, name, family) {
      FirstFiringMeaning(rules[1..], words, name, family);
      if FirstFiring(rules[1..], words, name, family).Some? {
        var k :| 0 <= k < |rules[1..]| && Fires(rules[1..][k], words, name, family) &&
          rules[1..][k].habitat == FirstFiring(rules[1..], words, name, family).value &&
          forall j :: 0 <= j < k ==> !Fires(rules[1..][j], words, name, family);
        assert Fires(rules[k + 1], words, name, family);
      }
    }
  }

  lemma {:induction false} FirstFiringAppend(a: seq<Rule>, b: seq<Rule>, words: Table -> seq<string>, name: string, family: string)
    ensures FirstFiring(a + b, words, name, family) ==
      if FirstFiring(a, words, name, family).Some? then FirstFiring(a, words, name, family) else FirstFiring(b, words, name, family)
  {
    if a == [] {
      assert a + b == b;
    } else {
      assert (a + b)[1..] == a[1..] + b;
      FirstFiringAppend(a[1..], b, words, name, family);
    }
  }

  lemma FirstFiringStep(rules: seq<Rule>, k: nat, words: Table -> seq<string>, name: string, family: string)
    requires k < |rules|
    ensures FirstFiring(rules[k..], words, name, family) ==
      if Fires(rules[k], words, name, family) then Some(rules[k].habitat) else FirstFiring(rules[k + 1..], words, name, family)
  {
    assert rules[k..][1..] == rules[k + 1..];
  }

  /** Priority: when rule `k` is the first rule of the search order that
      fires, its habitat is the classification. */
  lemma SearchOrderPriority(words: Table -> seq<string>, name: string, family: string, k: nat)
    requires k < |SearchOrder| && Fires(SearchOrder[k], words, name, family)
    requires forall j :: 0 <= j < k ==> !Fires(SearchOrder[j], words, name, family)
    ensures Classify(words, name, family) == SearchOrder[k].habitat
  {
    FirstFiringMeaning(SearchOrder, words, name, family);
    var m :| 0 <= m < |SearchOrder| && Fires(SearchOrder[m], words, name, family) &&
      SearchOrder[m].habitat == FirstFiring(SearchOrder, words, name, family).value &&
      forall j :: 0 <= j < m ==> !Fires(SearchOrder[j], words, name, family);
    assert m == k;
  }

  /** `'tree'` is the answer exactly when no table hits: no rule gives `Tree`. */
  lemma TreeIffNothingFires(words: Table -> seq<string>, name: string, family: string)
    ensures Classify(words, name, family) == Tree <==> forall k :: 0 <= k < |SearchOrder| ==> !Fires(SearchOrder[k], words, name, family)
  {
    FirstFiringMeaning(SearchOrder, words, name, family);
    assert forall k :: 0 <= k < |SearchOrder| ==> SearchOrder[k].habitat != Tree;
  }

  /** The family tables are consulted only when no keyword table hit the
      name or the family name: a keyword hit decides on the keyword tables
      alone, and otherwise the family tables decide, with `Tree` as default. */
  lemma KeywordsBeforeFamilies(words: Table -> seq<string>, name: string, family: string)
    ensures FirstFiring(SearchOrder[..5], words, name, family).Some? ==>
      Classify(words, name, family) == FirstFiring(SearchOrder[..5], words, name, family).value
    ensures FirstFiring(SearchOrder[..5], words, name, family).None? ==>
      Classify(words, name, family) == match FirstFiring(SearchOrder[5..], words, name, family)
        case Some(h) => h
        case None => Tree
    ensures forall k :: 5 <= k < |SearchOrder| ==> !SearchOrder[k].searchesName
  {
    assert SearchOrder == SearchOrder[..5] + SearchOrder[5..];
    FirstFiringAppend(SearchOrder[..5], SearchOrder[5..], words, name, family);
  }

  /** Only the lower-cased texts matter: lower-casing the inputs first
      changes nothing, and a missing name reads as the empty name. */
  lemma HabitatIgnoresCase(bird: Bird, familyName: string)
    ensures HabitatOf(bird.(name := Some(Lower(NameOrEmpty(bird.name)))), Lower(familyName)) == HabitatOf(bird, familyName)
    ensures HabitatOf(bird.(name := None), familyName) == HabitatOf(bird.(name := Some("")), familyName)
  {
    LowerIdempotent(NameOrEmpty(bird.name));
    LowerIdempotent(familyName);
  }

  /** `getBirdHabitat` only sees the lower-cased texts. */
  lemma LoweredInputs(bird: Bird, familyName: string, name: string, family: string)
    requires Lower(NameOrEmpty(bird.name)) == name && Lower(familyName) == family
    ensures HabitatOf(bird, familyName) == Classify(Words, name, family)
  {
  }

  /** `getBirdHabitat` ignores case: lower-casing a bird's name and its
      family's name beforehand does not change the habitat. */
  lemma CaseBlind(bird: Bird, familyName: string)
    ensures HabitatOf(bird.(name := Some(Lower(NameOrEmpty(bird.name)))), Lower(familyName)) ==
      HabitatOf(bird, familyName)
  {
    LowerIdempotent(NameOrEmpty(bird.name));
    LowerIdempotent(familyName);
  }

  lemma WoodpeckerDuckText(family: string)
    ensures Mentions("woodpecker duck", Words(WaterKeywords))
    ensures Classify(Words, "woodpecker duck", family) == TreeHigh
  {
    var n := "woodpecker duck";
    assert OccursAt(n, Words(WoodpeckerKeywords)[0], 0);
    assert OccursAt(n, Words(WaterKeywords)[0], 11);
    SearchOrderPriority(Words, n, family, 0);
  }

  /** A name with both a woodpecker and a water keyword is a woodpecker. */
  lemma WoodpeckerDuck(bird: Bird, familyName: string)
    requires bird.name == Some("Woodpecker Duck")
    ensures Mentions(Lower(bird.name.value), Words(WaterKeywords))
    ensures HabitatOf(bird, familyName) == TreeHigh
  {
    LowerIs(bird.name.value, "woodpecker duck");
    WoodpeckerDuckText(Lower(familyName));
    LoweredInputs(bird, familyName, "woodpecker duck", Lower(familyName));
  }
}
