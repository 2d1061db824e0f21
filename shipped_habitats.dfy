/**
 * The habitat `getBirdHabitat` gives every bird of the shipped catalogue,
 * proved text by text: for each lower-cased bird name and family name, the
 * tables that are searched before the deciding one are shown not to occur
 * (each keyword has a letter, or a pair of adjacent letters, that the text
 * lacks), the deciding table is shown to occur at a named position, and the
 * search order then fixes the answer. Raptors are `sky`, songbirds `tree`,
 * waterfowl `water`, hummingbirds `garden` and woodpeckers `treeHigh`.
 */
module ShippedHabitats {
  import opened Text
  import opened Catalogue
  import opened Habitats

  lemma RaptorsLowered()
    ensures Lower("Raptors") == "raptors"
  {
    LowerIs("Raptors", "raptors");
  }

  lemma RedTailedHawkWoodpeckerKeywords()
    ensures !Mentions("red-tailed hawk", Words(WoodpeckerKeywords))
  {
    var s := "red-tailed hawk";
    NoneOccur(s, Words(WoodpeckerKeywords), 0, [1, 0, 0, 0, 1, 0]);
  }

  lemma RaptorsWoodpeckerKeywords()
    ensures !Mentions("raptors", Words(WoodpeckerKeywords))
  {
    var s := "raptors";
    NoneOccur(s, Words(WoodpeckerKeywords), 0, [0, 1, 0, 4, 0, 1]);
  }

  lemma RedTailedHawkHummingbirdKeywords()
    ensures !Mentions("red-tailed hawk", Words(HummingbirdKeywords))
  {
    var s := "red-tailed hawk";
    NoneOccur(s, Words(HummingbirdKeywords), 0, [1, 1, 1, 1, 0]);
  }

  lemma RaptorsHummingbirdKeywords()
    ensures !Mentions("raptors", Words(HummingbirdKeywords))
  {
    var s := "raptors";
    NoneOccur(s, Words(HummingbirdKeywords), 0, [0, 1, 1, 1, 0]);
  }

  lemma RedTailedHawkWaterKeywords1()
    ensures forall n :: 0 <= n < 10 ==> !Contains("red-tailed hawk", Words(WaterKeywords)[n])
  {
    NoneOccur("red-tailed hawk", Words(WaterKeywords), 0, [1, 0, 0, 0, 0, 3, 1, 0, 0, 1]);
  }
  lemma RedTailedHawkWaterKeywords2()
    ensures forall n :: 10 <= n < 20 ==> !Contains("red-tailed hawk", Words(WaterKeywords)[n])
  {
    NoneOccur("red-tailed hawk", Words(WaterKeywords), 10, [0, 1, 0, 0, 0, 0, 3, 0, 0, 2]);
  }
  lemma RedTailedHawkWaterKeywords3()
    ensures forall n :: 20 <= n < 27 ==> !Contains("red-tailed hawk", Words(WaterKeywords)[n])
  {
    NoneOccur("red-tailed hawk", Words(WaterKeywords), 20, [0, 0, 0, 0, 0, 1, 0]);
  }
  lemma RedTailedHawkWaterKeywords4()
    ensures forall n :: 28 <= n < 38 ==> !Contains("red-tailed hawk", Words(WaterKeywords)[n])
  {
    NoneOccur("red-tailed hawk", Words(WaterKeywords), 28, [0, 0, 1, 1, 0, 0, 0, 0, 0, 0]);
  }
  lemma RedTailedHawkWaterKeywords5()
    ensures forall n :: 38 <= n < 40 ==> !Contains("red-tailed hawk", Words(WaterKeywords)[n])
  {
    NoneOccur("red-tailed hawk", Words(WaterKeywords), 38, [0, 0]);
  }
  lemma RedTailedHawkWaterKeywords()
    ensures !Mentions("red-tailed hawk", Words(WaterKeywords))
  {
    var s := "red-tailed hawk";
    RedTailedHawkWaterKeywords1();
    RedTailedHawkWaterKeywords2();
    RedTailedHawkWaterKeywords3();
    RedTailedHawkWaterKeywords4();
    RedTailedHawkWaterKeywords5();
    MissingPair(s, Words(WaterKeywords)[27], 0);
  }

  lemma RaptorsWaterKeywords1()
    ensures forall n :: 0 <= n < 10 ==> !Contains("raptors", Words(WaterKeywords)[n])
  {
    NoneOccur("raptors", Words(WaterKeywords), 0, [0, 0, 1, 1, 0, 0, 0, 0, 4, 0]);
  }
  lemma RaptorsWaterKeywords2()
    ensures forall n :: 10 <= n < 20 ==> !Contains("raptors", Words(WaterKeywords)[n])
  {
    NoneOccur("raptors", Words(WaterKeywords), 10, [0, 0, 0, 0, 0, 0, 1, 0, 1, 1]);
  }
  lemma RaptorsWaterKeywords3()
    ensures forall n :: 20 <= n < 30 ==> !Contains("raptors", Words(WaterKeywords)[n])
  {
    NoneOccur("raptors", Words(WaterKeywords), 20, [1, 1, 0, 0, 0, 1, 0, 2, 2, 1]);
  }
  lemma RaptorsWaterKeywords4()
    ensures forall n :: 30 <= n < 40 ==> !Contains("raptors", Words(WaterKeywords)[n])
  {
    NoneOccur("raptors", Words(WaterKeywords), 30, [1, 1, 2, 1, 0, 0, 1, 1, 0, 0]);
  }
  lemma RaptorsWaterKeywords()
    ensures !Mentions("raptors", Words(WaterKeywords))
  {
    var s := "raptors";
    RaptorsWaterKeywords1();
    RaptorsWaterKeywords2();
    RaptorsWaterKeywords3();
    RaptorsWaterKeywords4();
  }

  lemma RedTailedHawkText()
    ensures Classify(Words, "red-tailed hawk", "raptors") == Sky
  {
    var n, f := "red-tailed hawk", "raptors";
    RedTailedHawkWoodpeckerKeywords();
    RaptorsWoodpeckerKeywords();
    RedTailedHawkHummingbirdKeywords();
    RaptorsHummingbirdKeywords();
    RedTailedHawkWaterKeywords();
    RaptorsWaterKeywords();
    assert OccursAt(n, Words(SkyKeywords)[1], 11);
    SearchOrderPriority(Words, n, f, 3);
  }

  lemma RedTailedHawkLowered()
    ensures Lower(NameOrEmpty(RedTailedHawk.name)) == "red-tailed hawk"
  {
    LowerIs("Red-tailed Hawk", "red-tailed hawk");
  }

  lemma RedTailedHawkHabitat()
    ensures HabitatOf(RedTailedHawk, "Raptors") == Sky
  {
    RedTailedHawkLowered();
    RaptorsLowered();
    RedTailedHawkText();
    LoweredInputs(RedTailedHawk, "Raptors", "red-tailed hawk", "raptors");
  }

  lemma BaldEagleWoodpeckerKeywords()
    ensures !Mentions("bald eagle", Words(WoodpeckerKeywords))
  {
    var s := "bald eagle";
    NoneOccur(s, Words(WoodpeckerKeywords), 0, [0, 0, 0, 0, 1, 0]);
  }

  lemma BaldEagleHummingbirdKeywords()
    ensures !Mentions("bald eagle", Words(HummingbirdKeywords))
  {
    var s := "bald eagle";
    NoneOccur(s, Words(HummingbirdKeywords), 0, [0, 0, 1, 0, 0]);
  }

  lemma BaldEagleWaterKeywords1()
    ensures forall n :: 0 <= n < 10 ==> !Contains("bald eagle", Words(WaterKeywords)[n])
  {
    NoneOccur("bald eagle", Words(WaterKeywords), 0, [1, 1, 0, 0, 0, 0, 2, 0, 0, 0]);
  }
  lemma BaldEagleWaterKeywords2()
    ensures forall n :: 10 <= n < 20 ==> !Contains("bald eagle", Words(WaterKeywords)[n])
  {
    NoneOccur("bald eagle", Words(WaterKeywords), 10, [0, 1, 1, 0, 0, 4, 0, 1, 0, 4]);
  }
  lemma BaldEagleWaterKeywords3()
    ensures forall n :: 20 <= n < 30 ==> !Contains("bald eagle", Words(WaterKeywords)[n])
  {
    NoneOccur("bald eagle", Words(WaterKeywords), 20, [0, 0, 2, 1, 0, 1, 1, 0, 0, 0]);
  }
  lemma BaldEagleWaterKeywords4()
    ensures forall n :: 30 <= n < 40 ==> !Contains("bald eagle", Words(WaterKeywords)[n])
  {
    NoneOccur("bald eagle", Words(WaterKeywords), 30, [0, 1, 0, 0, 0, 1, 0, 0, 0, 0]);
  }
  lemma BaldEagleWaterKeywords()
    ensures !Mentions("bald eagle", Words(WaterKeywords))
  {
    var s := "bald eagle";
    BaldEagleWaterKeywords1();
    BaldEagleWaterKeywords2();
    BaldEagleWaterKeywords3();
    BaldEagleWaterKeywords4();
  }

  lemma BaldEagleText()
    ensures Classify(Words, "bald eagle", "raptors") == Sky
  {
    var n, f := "bald eagle", "raptors";
    BaldEagleWoodpeckerKeywords();
    RaptorsWoodpeckerKeywords();
    BaldEagleHummingbirdKeywords();
    RaptorsHummingbirdKeywords();
    BaldEagleWaterKeywords();
    RaptorsWaterKeywords();
    assert OccursAt(n, Words(SkyKeywords)[0], 5);
    SearchOrderPriority(Words, n, f, 3);
  }

  lemma BaldEagleLowered()
    ensures Lower(NameOrEmpty(BaldEagle.name)) == "bald eagle"
  {
    LowerIs("Bald Eagle", "bald eagle");
  }

  lemma BaldEagleHabitat()
    ensures HabitatOf(BaldEagle, "Raptors") == Sky
  {
    BaldEagleLowered();
    RaptorsLowered();
    BaldEagleText();
    LoweredInputs(BaldEagle, "Raptors", "bald eagle", "raptors");
  }

  lemma PeregrineFalconWoodpeckerKeywords()
    ensures !Mentions("peregrine falcon", Words(WoodpeckerKeywords))
  {
    var s := "peregrine falcon";
    NoneOccur(s, Words(WoodpeckerKeywords), 0, [0, 3, 4, 0, 0, 5]);
  }

  lemma PeregrineFalconHummingbirdKeywords1()
    ensures forall n :: 0 <= n < 4 ==> !Contains("peregrine falcon", Words(HummingbirdKeywords)[n])
  {
    NoneOccur("peregrine falcon", Words(HummingbirdKeywords), 0, [0, 1, 4, 1]);
  }
  lemma PeregrineFalconHummingbirdKeywords()
    ensures !Mentions("peregrine falcon", Words(HummingbirdKeywords))
  {
    var s := "peregrine falcon";
    PeregrineFalconHummingbirdKeywords1();
    MissingPair(s, Words(HummingbirdKeywords)[4], 0);
  }

  lemma PeregrineFalconWaterKeywords1()
    ensures forall n :: 0 <= n < 3 ==> !Contains("peregrine falcon", Words(WaterKeywords)[n])
  {
    NoneOccur("peregrine falcon", Words(WaterKeywords), 0, [0, 3, 0]);
  }
  lemma PeregrineFalconWaterKeywords2()
    ensures forall n :: 4 <= n < 7 ==> !Contains("peregrine falcon", Words(WaterKeywords)[n])
  {
    NoneOccur("peregrine falcon", Words(WaterKeywords), 4, [3, 0, 4]);
  }
  lemma PeregrineFalconWaterKeywords3()
    ensures forall n :: 8 <= n < 11 ==> !Contains("peregrine falcon", Words(WaterKeywords)[n])
  {
    NoneOccur("peregrine falcon", Words(WaterKeywords), 8, [0, 1, 3]);
  }
  lemma PeregrineFalconWaterKeywords4()
    ensures forall n :: 12 <= n < 22 ==> !Contains("peregrine falcon", Words(WaterKeywords)[n])
  {
    NoneOccur("peregrine falcon", Words(WaterKeywords), 12, [3, 3, 0, 6, 0, 1, 0, 2, 2, 0]);
  }
  lemma PeregrineFalconWaterKeywords5()
    ensures forall n :: 22 <= n < 27 ==> !Contains("peregrine falcon", Words(WaterKeywords)[n])
  {
    NoneOccur("peregrine falcon", Words(WaterKeywords), 22, [5, 0, 5, 2, 0]);
  }
  lemma PeregrineFalconWaterKeywords6()
    ensures forall n :: 28 <= n < 38 ==> !Contains("peregrine falcon", Words(WaterKeywords)[n])
  {
    NoneOccur("peregrine falcon", Words(WaterKeywords), 28, [0, 3, 0, 1, 0, 1, 1, 2, 0, 1]);
  }
  lemma PeregrineFalconWaterKeywords7()
    ensures forall n :: 38 <= n < 40 ==> !Contains("peregrine falcon", Words(WaterKeywords)[n])
  {
    NoneOccur("peregrine falcon", Words(WaterKeywords), 38, [0, 4]);
  }
  lemma PeregrineFalconWaterKeywordsPairs1()
    ensures !Contains("peregrine falcon", Words(WaterKeywords)[3]) && !Contains("peregrine falcon", Words(WaterKeywords)[7]) && !Contains("peregrine falcon", Words(WaterKeywords)[11])
  {
    MissingPair("peregrine falcon", Words(WaterKeywords)[3], 1);
    MissingPair("peregrine falcon", Words(WaterKeywords)[7], 0);
    MissingPair("peregrine falcon", Words(WaterKeywords)[11], 0);
  }
  lemma PeregrineFalconWaterKeywordsPairs2()
    ensures !Contains("peregrine falcon", Words(WaterKeywords)[27])
  {
    MissingPair("peregrine falcon", Words(WaterKeywords)[27], 0);
  }
  lemma PeregrineFalconWaterKeywords()
    ensures !Mentions("peregrine falcon", Words(WaterKeywords))
  {
    var s := "peregrine falcon";
    PeregrineFalconWaterKeywords1();
    PeregrineFalconWaterKeywords2();
    PeregrineFalconWaterKeywords3();
    PeregrineFalconWaterKeywords4();
    PeregrineFalconWaterKeywords5();
    PeregrineFalconWaterKeywords6();
    PeregrineFalconWaterKeywords7();
    PeregrineFalconWaterKeywordsPairs1();
    PeregrineFalconWaterKeywordsPairs2();
  }

  lemma PeregrineFalconText()
    ensures Classify(Words, "peregrine falcon", "raptors") == Sky
  {
    var n, f := "peregrine falcon", "raptors";
    PeregrineFalconWoodpeckerKeywords();
    RaptorsWoodpeckerKeywords();
    PeregrineFalconHummingbirdKeywords();
    RaptorsHummingbirdKeywords();
    PeregrineFalconWaterKeywords();
    RaptorsWaterKeywords();
    assert OccursAt(n, Words(SkyKeywords)[2], 10);
    SearchOrderPriority(Words, n, f, 3);
  }

  lemma PeregrineFalconLowered()
    ensures Lower(NameOrEmpty(PeregrineFalcon.name)) == "peregrine falcon"
  {
    LowerIs("Peregrine Falcon", "peregrine falcon");
  }

  lemma PeregrineFalconHabitat()
    ensures HabitatOf(PeregrineFalcon, "Raptors") == Sky
  {
    PeregrineFalconLowered();
    RaptorsLowered();
    PeregrineFalconText();
    LoweredInputs(PeregrineFalcon, "Raptors", "peregrine falcon", "raptors");
  }

  lemma SongbirdsLowered()
    ensures Lower("Songbirds") == "songbirds"
  {
    LowerIs("Songbirds", "songbirds");
  }

  lemma AmericanRobinWoodpeckerKeywords()
    ensures !Mentions("american robin", Words(WoodpeckerKeywords))
  {
    var s := "american robin";
    NoneOccur(s, Words(WoodpeckerKeywords), 0, [0, 0, 0, 0, 0, 0]);
  }

  lemma SongbirdsWoodpeckerKeywords()
    ensures !Mentions("songbirds", Words(WoodpeckerKeywords))
  {
    var s := "songbirds";
    NoneOccur(s, Words(WoodpeckerKeywords), 0, [0, 0, 0, 1, 2, 0]);
  }

  lemma AmericanRobinHummingbirdKeywords()
    ensures !Mentions("american robin", Words(HummingbirdKeywords))
  {
    var s := "american robin";
    NoneOccur(s, Words(HummingbirdKeywords), 0, [0, 1, 4, 1, 2]);
  }

  lemma SongbirdsHummingbirdKeywords()
    ensures !Mentions("songbirds", Words(HummingbirdKeywords))
  {
    var s := "songbirds";
    NoneOccur(s, Words(HummingbirdKeywords), 0, [0, 1, 0, 1, 0]);
  }

  lemma AmericanRobinWaterKeywords1()
    ensures forall n :: 0 <= n < 7 ==> !Contains("american robin", Words(WaterKeywords)[n])
  {
    NoneOccur("american robin", Words(WaterKeywords), 0, [0, 0, 0, 0, 8, 0, 1]);
  }
  lemma AmericanRobinWaterKeywords2()
    ensures forall n :: 8 <= n < 18 ==> !Contains("american robin", Words(WaterKeywords)[n])
  {
    NoneOccur("american robin", Words(WaterKeywords), 8, [0, 3, 0, 0, 0, 3, 4, 0, 0, 0]);
  }
  lemma AmericanRobinWaterKeywords3()
    ensures forall n :: 18 <= n < 28 ==> !Contains("american robin", Words(WaterKeywords)[n])
  {
    NoneOccur("american robin", Words(WaterKeywords), 18, [0, 1, 0, 0, 0, 4, 0, 2, 2, 3]);
  }
  lemma AmericanRobinWaterKeywords4()
    ensures forall n :: 28 <= n < 38 ==> !Contains("american robin", Words(WaterKeywords)[n])
  {
    NoneOccur("american robin", Words(WaterKeywords), 28, [0, 0, 0, 1, 0, 1, 1, 0, 0, 0]);
  }
  lemma AmericanRobinWaterKeywords5()
    ensures forall n :: 38 <= n < 40 ==> !Contains("american robin", Words(WaterKeywords)[n])
  {
    NoneOccur("american robin", Words(WaterKeywords), 38, [2, 4]);
  }
  lemma AmericanRobinWaterKeywords()
    ensures !Mentions("american robin", Words(WaterKeywords))
  {
    var s := "american robin";
    AmericanRobinWaterKeywords1();
    AmericanRobinWaterKeywords2();
    AmericanRobinWaterKeywords3();
    AmericanRobinWaterKeywords4();
    AmericanRobinWaterKeywords5();
    MissingPair(s, Words(WaterKeywords)[7], 0);
  }

  lemma SongbirdsWaterKeywords1()
    ensures forall n :: 0 <= n < 9 ==> !Contains("songbirds", Words(WaterKeywords)[n])
  {
    NoneOccur("songbirds", Words(WaterKeywords), 0, [1, 4, 1, 0, 0, 0, 0, 0, 1]);
  }
  lemma SongbirdsWaterKeywords2()
    ensures forall n :: 10 <= n < 20 ==> !Contains("songbirds", Words(WaterKeywords)[n])
  {
    NoneOccur("songbirds", Words(WaterKeywords), 10, [0, 0, 2, 0, 0, 1, 0, 1, 1, 0]);
  }
  lemma SongbirdsWaterKeywords3()
    ensures forall n :: 20 <= n < 30 ==> !Contains("songbirds", Words(WaterKeywords)[n])
  {
    NoneOccur("songbirds", Words(WaterKeywords), 20, [0, 1, 1, 4, 0, 0, 2, 1, 1, 0]);
  }
  lemma SongbirdsWaterKeywords4()
    ensures forall n :: 30 <= n < 40 ==> !Contains("songbirds", Words(WaterKeywords)[n])
  {
    NoneOccur("songbirds", Words(WaterKeywords), 30, [0, 0, 1, 1, 0, 3, 3, 0, 0, 0]);
  }
  lemma SongbirdsWaterKeywords()
    ensures !Mentions("songbirds", Words(WaterKeywords))
  {
    var s := "songbirds";
    SongbirdsWaterKeywords1();
    SongbirdsWaterKeywords2();
    SongbirdsWaterKeywords3();
    SongbirdsWaterKeywords4();
    MissingPair(s, Words(WaterKeywords)[9], 0);
  }

  lemma AmericanRobinSkyKeywords1()
    ensures forall n :: 0 <= n < 10 ==> !Contains("american robin", Words(SkyKeywords)[n])
  {
    NoneOccur("american robin", Words(SkyKeywords), 0, [2, 0, 0, 0, 1, 0, 3, 0, 0, 0]);
  }
  lemma AmericanRobinSkyKeywords2()
    ensures forall n :: 10 <= n < 20 ==> !Contains("american robin", Words(SkyKeywords)[n])
  {
    NoneOccur("american robin", Words(SkyKeywords), 10, [0, 1, 0, 0, 3, 2, 0, 1, 2, 2]);
  }
  lemma AmericanRobinSkyKeywords3()
    ensures forall n :: 20 <= n < 21 ==> !Contains("american robin", Words(SkyKeywords)[n])
  {
    NoneOccur("american robin", Words(SkyKeywords), 20, [0]);
  }
  lemma AmericanRobinSkyKeywords()
    ensures !Mentions("american robin", Words(SkyKeywords))
  {
    var s := "american robin";
    AmericanRobinSkyKeywords1();
    AmericanRobinSkyKeywords2();
    AmericanRobinSkyKeywords3();
  }

  lemma SongbirdsSkyKeywords1()
    ensures forall n :: 0 <= n < 10 ==> !Contains("songbirds", Words(SkyKeywords)[n])
  {
    NoneOccur("songbirds", Words(SkyKeywords), 0, [0, 0, 0, 0, 2, 0, 0, 0, 0, 3]);
  }
  lemma SongbirdsSkyKeywords2()
    ensures forall n :: 10 <= n < 20 ==> !Contains("songbirds", Words(SkyKeywords)[n])
  {
    NoneOccur("songbirds", Words(SkyKeywords), 10, [1, 1, 1, 1, 0, 3, 0, 0, 1, 1]);
  }  lemma SongbirdsSkyKeywords()
    ensures !Mentions("songbirds", Words(SkyKeywords))
  {
    var s := "songbirds";
    SongbirdsSkyKeywords1();
    SongbirdsSkyKeywords2();
    NoneOccur(s, Words(SkyKeywords), 20, [0]);
  }

  lemma AmericanRobinGroundKeywords1()
    ensures forall n :: 0 <= n < 10 ==> !Contains("american robin", Words(GroundKeywords)[n])
  {
    NoneOccur("american robin", Words(GroundKeywords), 0, [0, 0, 0, 0, 0, 1, 0, 3, 0, 0]);
  }
  lemma AmericanRobinGroundKeywords2()
    ensures forall n :: 10 <= n < 20 ==> !Contains("american robin", Words(GroundKeywords)[n])
  {
    NoneOccur("american robin", Words(GroundKeywords), 10, [0, 1, 0, 0, 0, 0, 0, 0, 0, 0]);
  }
  lemma AmericanRobinGroundKeywords()
    ensures !Mentions("american robin", Words(GroundKeywords))
  {
    var s := "american robin";
    AmericanRobinGroundKeywords1();
    AmericanRobinGroundKeywords2();
  }

  lemma SongbirdsGroundKeywords1()
    ensures forall n :: 0 <= n < 10 ==> !Contains("songbirds", Words(GroundKeywords)[n])
  {
    NoneOccur("songbirds", Words(GroundKeywords), 0, [0, 0, 3, 0, 0, 0, 0, 2, 0, 0]);
  }
  lemma SongbirdsGroundKeywords2()
    ensures forall n :: 10 <= n < 20 ==> !Contains("songbirds", Words(GroundKeywords)[n])
  {
    NoneOccur("songbirds", Words(GroundKeywords), 10, [0, 1, 0, 2, 0, 0, 0, 1, 0, 0]);
  }
  lemma SongbirdsGroundKeywords()
    ensures !Mentions("songbirds", Words(GroundKeywords))
  {
    var s := "songbirds";
    SongbirdsGroundKeywords1();
    SongbirdsGroundKeywords2();
  }

  lemma SongbirdsWoodpeckerFamilies()
    ensures !Mentions("songbirds", Words(WoodpeckerFamilies))
  {
    var s := "songbirds";
    NoneOccur(s, Words(WoodpeckerFamilies), 0, [0, 0]);
  }

  lemma SongbirdsHummingbirdFamilies()
    ensures !Mentions("songbirds", Words(HummingbirdFamilies))
  {
    var s := "songbirds";
    NoneOccur(s, Words(HummingbirdFamilies), 0, [0, 0]);
  }

  lemma SongbirdsWaterFamilies1()
    ensures forall n :: 0 <= n < 10 ==> !Contains("songbirds", Words(WaterFamilies)[n])
  {
    NoneOccur("songbirds", Words(WaterFamilies), 0, [0, 0, 0, 2, 0, 1, 0, 1, 0, 0]);
  }
  lemma SongbirdsWaterFamilies2()
    ensures forall n :: 10 <= n < 16 ==> !Contains("songbirds", Words(WaterFamilies)[n])
  {
    NoneOccur("songbirds", Words(WaterFamilies), 10, [1, 0, 1, 0, 1, 0]);
  }
  lemma SongbirdsWaterFamilies()
    ensures !Mentions("songbirds", Words(WaterFamilies))
  {
    var s := "songbirds";
    SongbirdsWaterFamilies1();
    SongbirdsWaterFamilies2();
  }

  lemma SongbirdsSkyFamilies()
    ensures !Mentions("songbirds", Words(SkyFamilies))
  {
    var s := "songbirds";
    NoneOccur(s, Words(SkyFamilies), 0, [0, 0, 0, 0, 0, 0, 0, 1]);
  }

  lemma SongbirdsGroundFamilies()
    ensures !Mentions("songbirds", Words(GroundFamilies))
  {
    var s := "songbirds";
    NoneOccur(s, Words(GroundFamilies), 0, [0, 4, 0, 0, 0, 0, 0, 0]);
  }

  lemma AmericanRobinText()
    ensures Classify(Words, "american robin", "songbirds") == Tree
  {
    var n, f := "american robin", "songbirds";
    AmericanRobinWoodpeckerKeywords();
    SongbirdsWoodpeckerKeywords();
    AmericanRobinHummingbirdKeywords();
    SongbirdsHummingbirdKeywords();
    AmericanRobinWaterKeywords();
    SongbirdsWaterKeywords();
    AmericanRobinSkyKeywords();
    SongbirdsSkyKeywords();
    AmericanRobinGroundKeywords();
    SongbirdsGroundKeywords();
    SongbirdsWoodpeckerFamilies();
    SongbirdsHummingbirdFamilies();
    SongbirdsWaterFamilies();
    SongbirdsSkyFamilies();
    SongbirdsGroundFamilies();
    TreeIffNothingFires(Words, n, f);
  }

  lemma AmericanRobinLowered()
    ensures Lower(NameOrEmpty(AmericanRobin.name)) == "american robin"
  {
    LowerIs("American Robin", "american robin");
  }

  lemma AmericanRobinHabitat()
    ensures HabitatOf(AmericanRobin, "Songbirds") == Tree
  {
    AmericanRobinLowered();
    SongbirdsLowered();
    AmericanRobinText();
    LoweredInputs(AmericanRobin, "Songbirds", "american robin", "songbirds");
  }

  lemma NorthernCardinalWoodpeckerKeywords()
    ensures !Mentions("northern cardinal", Words(WoodpeckerKeywords))
  {
    var s := "northern cardinal";
    NoneOccur(s, Words(WoodpeckerKeywords), 0, [0, 0, 0, 0, 2, 0]);
  }

  lemma NorthernCardinalHummingbirdKeywords()
    ensures !Mentions("northern cardinal", Words(HummingbirdKeywords))
  {
    var s := "northern cardinal";
    NoneOccur(s, Words(HummingbirdKeywords), 0, [1, 1, 4, 1, 6]);
  }

  lemma NorthernCardinalWaterKeywords1()
    ensures forall n :: 0 <= n < 5 ==> !Contains("northern cardinal", Words(WaterKeywords)[n])
  {
    NoneOccur("northern cardinal", Words(WaterKeywords), 0, [1, 0, 0, 0, 3]);
  }
  lemma NorthernCardinalWaterKeywords2()
    ensures forall n :: 6 <= n < 7 ==> !Contains("northern cardinal", Words(WaterKeywords)[n])
  {
    NoneOccur("northern cardinal", Words(WaterKeywords), 6, [1]);
  }
  lemma NorthernCardinalWaterKeywords3()
    ensures forall n :: 8 <= n < 11 ==> !Contains("northern cardinal", Words(WaterKeywords)[n])
  {
    NoneOccur("northern cardinal", Words(WaterKeywords), 8, [0, 1, 0]);
  }
  lemma NorthernCardinalWaterKeywords4()
    ensures forall n :: 12 <= n < 13 ==> !Contains("northern cardinal", Words(WaterKeywords)[n])
  {
    NoneOccur("northern cardinal", Words(WaterKeywords), 12, [0]);
  }
  lemma NorthernCardinalWaterKeywords5()
    ensures forall n :: 14 <= n < 16 ==> !Contains("northern cardinal", Words(WaterKeywords)[n])
  {
    NoneOccur("northern cardinal", Words(WaterKeywords), 14, [0, 0]);
  }
  lemma NorthernCardinalWaterKeywords6()
    ensures forall n :: 17 <= n < 27 ==> !Contains("northern cardinal", Words(WaterKeywords)[n])
  {
    NoneOccur("northern cardinal", Words(WaterKeywords), 17, [0, 0, 2, 0, 0, 0, 0, 0, 5, 0]);
  }
  lemma NorthernCardinalWaterKeywords7()
    ensures forall n :: 28 <= n < 38 ==> !Contains("northern cardinal", Words(WaterKeywords)[n])
  {
    NoneOccur("northern cardinal", Words(WaterKeywords), 28, [0, 0, 1, 1, 0, 1, 1, 0, 0, 0]);
  }
  lemma NorthernCardinalWaterKeywords8()
    ensures forall n :: 38 <= n < 39 ==> !Contains("northern cardinal", Words(WaterKeywords)[n])
  {
    NoneOccur("northern cardinal", Words(WaterKeywords), 38, [0]);
  }
  lemma NorthernCardinalWaterKeywordsPairs1()
    ensures !Contains("northern cardinal", Words(WaterKeywords)[5]) && !Contains("northern cardinal", Words(WaterKeywords)[7]) && !Contains("northern cardinal", Words(WaterKeywords)[11])
  {
    MissingPair("northern cardinal", Words(WaterKeywords)[5], 2);
    MissingPair("northern cardinal", Words(WaterKeywords)[7], 0);
    MissingPair("northern cardinal", Words(WaterKeywords)[11], 0);
  }
  lemma NorthernCardinalWaterKeywordsPairs2()
    ensures !Contains("northern cardinal", Words(WaterKeywords)[13]) && !Contains("northern cardinal", Words(WaterKeywords)[16]) && !Contains("northern cardinal", Words(WaterKeywords)[27])
  {
    MissingPair("northern cardinal", Words(WaterKeywords)[13], 0);
    MissingPair("northern cardinal", Words(WaterKeywords)[16], 0);
    MissingPair("northern cardinal", Words(WaterKeywords)[27], 0);
  }
  lemma NorthernCardinalWaterKeywordsPairs3()
    ensures !Contains("northern cardinal", Words(WaterKeywords)[39])
  {
    MissingPair("northern cardinal", Words(WaterKeywords)[39], 1);
  }
  lemma NorthernCardinalWaterKeywords()
    ensures !Mentions("northern cardinal", Words(WaterKeywords))
  {
    var s := "northern cardinal";
    NorthernCardinalWaterKeywords1();
    NorthernCardinalWaterKeywords2();
    NorthernCardinalWaterKeywords3();
    NorthernCardinalWaterKeywords4();
    NorthernCardinalWaterKeywords5();
    NorthernCardinalWaterKeywords6();
    NorthernCardinalWaterKeywords7();
    NorthernCardinalWaterKeywords8();
    NorthernCardinalWaterKeywordsPairs1();
    NorthernCardinalWaterKeywordsPairs2();
    NorthernCardinalWaterKeywordsPairs3();
  }

  lemma NorthernCardinalSkyKeywords1()
    ensures forall n :: 0 <= n < 6 ==> !Contains("northern cardinal", Words(SkyKeywords)[n])
  {
    NoneOccur("northern cardinal", Words(SkyKeywords), 0, [2, 2, 0, 0, 1, 0]);
  }
  lemma NorthernCardinalSkyKeywords2()
    ensures forall n :: 7 <= n < 8 ==> !Contains("northern cardinal", Words(SkyKeywords)[n])
  {
    NoneOccur("northern cardinal", Words(SkyKeywords), 7, [0]);
  }
  lemma NorthernCardinalSkyKeywords3()
    ensures forall n :: 9 <= n < 19 ==> !Contains("northern cardinal", Words(SkyKeywords)[n])
  {
    NoneOccur("northern cardinal", Words(SkyKeywords), 9, [0, 0, 0, 0, 0, 0, 2, 0, 3, 3]);
  }
  lemma NorthernCardinalSkyKeywords4()
    ensures forall n :: 19 <= n < 21 ==> !Contains("northern cardinal", Words(SkyKeywords)[n])
  {
    NoneOccur("northern cardinal", Words(SkyKeywords), 19, [0, 0]);
  }
  lemma NorthernCardinalSkyKeywords()
    ensures !Mentions("northern cardinal", Words(SkyKeywords))
  {
    var s := "northern cardinal";
    NorthernCardinalSkyKeywords1();
    NorthernCardinalSkyKeywords2();
    NorthernCardinalSkyKeywords3();
    NorthernCardinalSkyKeywords4();
    MissingPair(s, Words(SkyKeywords)[6], 0);
    MissingPair(s, Words(SkyKeywords)[8], 0);
  }

  lemma NorthernCardinalGroundKeywords1()
    ensures forall n :: 0 <= n < 10 ==> !Contains("northern cardinal", Words(GroundKeywords)[n])
  {
    NoneOccur("northern cardinal", Words(GroundKeywords), 0, [0, 0, 0, 0, 0, 4, 1, 5, 0, 0]);
  }
  lemma NorthernCardinalGroundKeywords2()
    ensures forall n :: 10 <= n < 20 ==> !Contains("northern cardinal", Words(GroundKeywords)[n])
  {
    NoneOccur("northern cardinal", Words(GroundKeywords), 10, [3, 0, 2, 2, 0, 0, 0, 0, 0, 0]);
  }
  lemma NorthernCardinalGroundKeywords()
    ensures !Mentions("northern cardinal", Words(GroundKeywords))
  {
    var s := "northern cardinal";
    NorthernCardinalGroundKeywords1();
    NorthernCardinalGroundKeywords2();
  }

  lemma NorthernCardinalText()
    ensures Classify(Words, "northern cardinal", "songbirds") == Tree
  {
    var n, f := "northern cardinal", "songbirds";
    NorthernCardinalWoodpeckerKeywords();
    SongbirdsWoodpeckerKeywords();
    NorthernCardinalHummingbirdKeywords();
    SongbirdsHummingbirdKeywords();
    NorthernCardinalWaterKeywords();
    SongbirdsWaterKeywords();
    NorthernCardinalSkyKeywords();
    SongbirdsSkyKeywords();
    NorthernCardinalGroundKeywords();
    SongbirdsGroundKeywords();
    SongbirdsWoodpeckerFamilies();
    SongbirdsHummingbirdFamilies();
    SongbirdsWaterFamilies();
    SongbirdsSkyFamilies();
    SongbirdsGroundFamilies();
    TreeIffNothingFires(Words, n, f);
  }

  lemma NorthernCardinalLowered()
    ensures Lower(NameOrEmpty(NorthernCardinal.name)) == "northern cardinal"
  {
    LowerIs("Northern Cardinal", "northern cardinal");
  }

  lemma NorthernCardinalHabitat()
    ensures HabitatOf(NorthernCardinal, "Songbirds") == Tree
  {
    NorthernCardinalLowered();
    SongbirdsLowered();
    NorthernCardinalText();
    LoweredInputs(NorthernCardinal, "Songbirds", "northern cardinal", "songbirds");
  }

  lemma BlueJayWaterKeywords1()
    ensures forall n :: 0 <= n < 10 ==> !Contains("blue jay", Words(WaterKeywords)[n])
  {
    NoneOccur("blue jay", Words(WaterKeywords), 0, [0, 0, 0, 0, 0, 0, 1, 0, 0, 0]);
  }
  lemma BlueJayWaterKeywords2()
    ensures forall n :: 10 <= n < 20 ==> !Contains("blue jay", Words(WaterKeywords)[n])
  {
    NoneOccur("blue jay", Words(WaterKeywords), 10, [0, 1, 0, 0, 0, 0, 0, 0, 0, 4]);
  }
  lemma BlueJayWaterKeywords3()
    ensures forall n :: 20 <= n < 30 ==> !Contains("blue jay", Words(WaterKeywords)[n])
  {
    NoneOccur("blue jay", Words(WaterKeywords), 20, [0, 0, 0, 1, 0, 1, 1, 0, 0, 0]);
  }
  lemma BlueJayWaterKeywords4()
    ensures forall n :: 30 <= n < 40 ==> !Contains("blue jay", Words(WaterKeywords)[n])
  {
    NoneOccur("blue jay", Words(WaterKeywords), 30, [0, 1, 0, 0, 0, 0, 0, 0, 0, 0]);
  }
  lemma BlueJayWaterKeywords()
    ensures !Mentions("blue jay", Words(WaterKeywords))
  {
    var s := "blue jay";
    BlueJayWaterKeywords1();
    BlueJayWaterKeywords2();
    BlueJayWaterKeywords3();
    BlueJayWaterKeywords4();
  }

  lemma BlueJaySkyKeywords1()
    ensures forall n :: 0 <= n < 10 ==> !Contains("blue jay", Words(SkyKeywords)[n])
  {
    NoneOccur("blue jay", Words(SkyKeywords), 0, [2, 0, 0, 0, 0, 0, 0, 0, 0, 0]);
  }
  lemma BlueJaySkyKeywords2()
    ensures forall n :: 10 <= n < 20 ==> !Contains("blue jay", Words(SkyKeywords)[n])
  {
    NoneOccur("blue jay", Words(SkyKeywords), 10, [0, 2, 0, 0, 0, 0, 0, 0, 0, 3]);
  }
  lemma BlueJaySkyKeywords3()
    ensures forall n :: 20 <= n < 21 ==> !Contains("blue jay", Words(SkyKeywords)[n])
  {
    NoneOccur("blue jay", Words(SkyKeywords), 20, [0]);
  }
  lemma BlueJaySkyKeywords()
    ensures !Mentions("blue jay", Words(SkyKeywords))
  {
    var s := "blue jay";
    BlueJaySkyKeywords1();
    BlueJaySkyKeywords2();
    BlueJaySkyKeywords3();
  }

  lemma BlueJayGroundKeywords1()
    ensures forall n :: 0 <= n < 10 ==> !Contains("blue jay", Words(GroundKeywords)[n])
  {
    NoneOccur("blue jay", Words(GroundKeywords), 0, [0, 0, 0, 0, 0, 0, 0, 0, 0, 0]);
  }
  lemma BlueJayGroundKeywords2()
    ensures forall n :: 10 <= n < 20 ==> !Contains("blue jay", Words(GroundKeywords)[n])
  {
    NoneOccur("blue jay", Words(GroundKeywords), 10, [2, 2, 0, 0, 0, 0, 0, 0, 0, 0]);
  }
  lemma BlueJayGroundKeywords()
    ensures !Mentions("blue jay", Words(GroundKeywords))
  {
    var s := "blue jay";
    BlueJayGroundKeywords1();
    BlueJayGroundKeywords2();
  }

  lemma BlueJayText()
    ensures Classify(Words, "blue jay", "songbirds") == Tree
  {
    var n, f := "blue jay", "songbirds";
    Unmentioned(n, Words(WoodpeckerKeywords), [0, 0, 0, 0, 0, 0]);
    SongbirdsWoodpeckerKeywords();
    Unmentioned(n, Words(HummingbirdKeywords), [0, 0, 1, 0, 0]);
    SongbirdsHummingbirdKeywords();
    BlueJayWaterKeywords();
    SongbirdsWaterKeywords();
    BlueJaySkyKeywords();
    SongbirdsSkyKeywords();
    BlueJayGroundKeywords();
    SongbirdsGroundKeywords();
    SongbirdsWoodpeckerFamilies();
    SongbirdsHummingbirdFamilies();
    SongbirdsWaterFamilies();
    SongbirdsSkyFamilies();
    SongbirdsGroundFamilies();
    TreeIffNothingFires(Words, n, f);
  }

  lemma BlueJayLowered()
    ensures Lower(NameOrEmpty(BlueJay.name)) == "blue jay"
  {
    LowerIs("Blue Jay", "blue jay");
  }

  lemma BlueJayHabitat()
    ensures HabitatOf(BlueJay, "Songbirds") == Tree
  {
    BlueJayLowered();
    SongbirdsLowered();
    BlueJayText();
    LoweredInputs(BlueJay, "Songbirds", "blue jay", "songbirds");
  }

  lemma HouseSparrowWoodpeckerKeywords()
    ensures !Mentions("house sparrow", Words(WoodpeckerKeywords))
  {
    var s := "house sparrow";
    NoneOccur(s, Words(WoodpeckerKeywords), 0, [3, 2, 0, 5, 0, 1]);
  }

  lemma HouseSparrowHummingbirdKeywords()
    ensures !Mentions("house sparrow", Words(HummingbirdKeywords))
  {
    var s := "house sparrow";
    NoneOccur(s, Words(HummingbirdKeywords), 0, [2, 2, 1, 2, 0]);
  }

  lemma HouseSparrowWaterKeywords1()
    ensures forall n :: 0 <= n < 10 ==> !Contains("house sparrow", Words(WaterKeywords)[n])
  {
    NoneOccur("house sparrow", Words(WaterKeywords), 0, [0, 0, 3, 2, 0, 4, 1, 0, 1, 0]);
  }
  lemma HouseSparrowWaterKeywords2()
    ensures forall n :: 10 <= n < 20 ==> !Contains("house sparrow", Words(WaterKeywords)[n])
  {
    NoneOccur("house sparrow", Words(WaterKeywords), 10, [0, 0, 0, 0, 0, 0, 0, 0, 3, 1]);
  }
  lemma HouseSparrowWaterKeywords3()
    ensures forall n :: 20 <= n < 30 ==> !Contains("house sparrow", Words(WaterKeywords)[n])
  {
    NoneOccur("house sparrow", Words(WaterKeywords), 20, [2, 7, 0, 0, 0, 1, 0, 2, 2, 1]);
  }
  lemma HouseSparrowWaterKeywords4()
    ensures forall n :: 30 <= n < 40 ==> !Contains("house sparrow", Words(WaterKeywords)[n])
  {
    NoneOccur("house sparrow", Words(WaterKeywords), 30, [0, 1, 1, 1, 0, 0, 1, 3, 0, 0]);
  }
  lemma HouseSparrowWaterKeywords()
    ensures !Mentions("house sparrow", Words(WaterKeywords))
  {
    var s := "house sparrow";
    HouseSparrowWaterKeywords1();
    HouseSparrowWaterKeywords2();
    HouseSparrowWaterKeywords3();
    HouseSparrowWaterKeywords4();
  }

  lemma HouseSparrowSkyKeywords1()
    ensures forall n :: 0 <= n < 10 ==> !Contains("house sparrow", Words(SkyKeywords)[n])
  {
    NoneOccur("house sparrow", Words(SkyKeywords), 0, [2, 3, 0, 0, 5, 0, 0, 0, 4, 0]);
  }
  lemma HouseSparrowSkyKeywords2()
    ensures forall n :: 10 <= n < 20 ==> !Contains("house sparrow", Words(SkyKeywords)[n])
  {
    NoneOccur("house sparrow", Words(SkyKeywords), 10, [10, 0, 2, 3, 0, 0, 2, 0, 2, 0]);
  }
  lemma HouseSparrowSkyKeywords3()
    ensures forall n :: 20 <= n < 21 ==> !Contains("house sparrow", Words(SkyKeywords)[n])
  {
    NoneOccur("house sparrow", Words(SkyKeywords), 20, [4]);
  }
  lemma HouseSparrowSkyKeywords()
    ensures !Mentions("house sparrow", Words(SkyKeywords))
  {
    var s := "house sparrow";
    HouseSparrowSkyKeywords1();
    HouseSparrowSkyKeywords2();
    HouseSparrowSkyKeywords3();
  }

  lemma HouseSparrowGroundKeywords1()
    ensures forall n :: 0 <= n < 10 ==> !Contains("house sparrow", Words(GroundKeywords)[n])
  {
    NoneOccur("house sparrow", Words(GroundKeywords), 0, [0, 6, 0, 1, 3, 0, 0, 3, 0, 1]);
  }
  lemma HouseSparrowGroundKeywords2()
    ensures forall n :: 10 <= n < 20 ==> !Contains("house sparrow", Words(GroundKeywords)[n])
  {
    NoneOccur("house sparrow", Words(GroundKeywords), 10, [0, 0, 0, 0, 1, 3, 0, 0, 3, 3]);
  }
  lemma HouseSparrowGroundKeywords()
    ensures !Mentions("house sparrow", Words(GroundKeywords))
  {
    var s := "house sparrow";
    HouseSparrowGroundKeywords1();
    HouseSparrowGroundKeywords2();
  }

  lemma HouseSparrowText()
    ensures Classify(Words, "house sparrow", "songbirds") == Tree
  {
    var n, f := "house sparrow", "songbirds";
    HouseSparrowWoodpeckerKeywords();
    SongbirdsWoodpeckerKeywords();
    HouseSparrowHummingbirdKeywords();
    SongbirdsHummingbirdKeywords();
    HouseSparrowWaterKeywords();
    SongbirdsWaterKeywords();
    HouseSparrowSkyKeywords();
    SongbirdsSkyKeywords();
    HouseSparrowGroundKeywords();
    SongbirdsGroundKeywords();
    SongbirdsWoodpeckerFamilies();
    SongbirdsHummingbirdFamilies();
    SongbirdsWaterFamilies();
    SongbirdsSkyFamilies();
    SongbirdsGroundFamilies();
    TreeIffNothingFires(Words, n, f);
  }

  lemma HouseSparrowLowered()
    ensures Lower(NameOrEmpty(HouseSparrow.name)) == "house sparrow"
  {
    LowerIs("House Sparrow", "house sparrow");
  }

  lemma HouseSparrowHabitat()
    ensures HabitatOf(HouseSparrow, "Songbirds") == Tree
  {
    HouseSparrowLowered();
    SongbirdsLowered();
    HouseSparrowText();
    LoweredInputs(HouseSparrow, "Songbirds", "house sparrow", "songbirds");
  }

  lemma WaterfowlLowered()
    ensures Lower("Waterfowl") == "waterfowl"
  {
    LowerIs("Waterfowl", "waterfowl");
  }

  lemma WaterfowlWoodpeckerKeywords()
    ensures !Mentions("waterfowl", Words(WoodpeckerKeywords))
  {
    var s := "waterfowl";
    NoneOccur(s, Words(WoodpeckerKeywords), 0, [3, 0, 2, 0, 0, 0]);
  }

  lemma MallardDuckHummingbirdKeywords()
    ensures !Mentions("mallard duck", Words(HummingbirdKeywords))
  {
    var s := "mallard duck";
    NoneOccur(s, Words(HummingbirdKeywords), 0, [0, 2, 1, 2, 4]);
  }

  lemma MallardDuckText()
    ensures Classify(Words, "mallard duck", "waterfowl") == Water
  {
    var n, f := "mallard duck", "waterfowl";
    Unmentioned(n, Words(WoodpeckerKeywords), [0, 0, 0, 0, 1, 0]);
    WaterfowlWoodpeckerKeywords();
    MallardDuckHummingbirdKeywords();
    Unmentioned(f, Words(HummingbirdKeywords), [0, 1, 1, 1, 0]);
    assert OccursAt(n, Words(WaterKeywords)[0], 8);
    SearchOrderPriority(Words, n, f, 2);
  }

  lemma MallardDuckLowered()
    ensures Lower(NameOrEmpty(MallardDuck.name)) == "mallard duck"
  {
    LowerIs("Mallard Duck", "mallard duck");
  }

  lemma MallardDuckHabitat()
    ensures HabitatOf(MallardDuck, "Waterfowl") == Water
  {
    MallardDuckLowered();
    WaterfowlLowered();
    MallardDuckText();
    LoweredInputs(MallardDuck, "Waterfowl", "mallard duck", "waterfowl");
  }

  lemma CanadaGooseWoodpeckerKeywords()
    ensures !Mentions("canada goose", Words(WoodpeckerKeywords))
  {
    var s := "canada goose";
    NoneOccur(s, Words(WoodpeckerKeywords), 0, [0, 0, 0, 2, 2, 0]);
  }

  lemma CanadaGooseHummingbirdKeywords1()
    ensures forall n :: 0 <= n < 2 ==> !Contains("canada goose", Words(HummingbirdKeywords)[n])
  {
    NoneOccur("canada goose", Words(HummingbirdKeywords), 0, [0, 0]);
  }
  lemma CanadaGooseHummingbirdKeywords2()
    ensures forall n :: 3 <= n < 5 ==> !Contains("canada goose", Words(HummingbirdKeywords)[n])
  {
    NoneOccur("canada goose", Words(HummingbirdKeywords), 3, [0, 2]);
  }
  lemma CanadaGooseHummingbirdKeywords()
    ensures !Mentions("canada goose", Words(HummingbirdKeywords))
  {
    var s := "canada goose";
    CanadaGooseHummingbirdKeywords1();
    CanadaGooseHummingbirdKeywords2();
    MissingPair(s, Words(HummingbirdKeywords)[2], 1);
  }

  lemma CanadaGooseText()
    ensures Classify(Words, "canada goose", "waterfowl") == Water
  {
    var n, f := "canada goose", "waterfowl";
    CanadaGooseWoodpeckerKeywords();
    WaterfowlWoodpeckerKeywords();
    CanadaGooseHummingbirdKeywords();
    Unmentioned(f, Words(HummingbirdKeywords), [0, 1, 1, 1, 0]);
    assert OccursAt(n, Words(WaterKeywords)[1], 7);
    SearchOrderPriority(Words, n, f, 2);
  }

  lemma CanadaGooseLowered()
    ensures Lower(NameOrEmpty(CanadaGoose.name)) == "canada goose"
  {
    LowerIs("Canada Goose", "canada goose");
  }

  lemma CanadaGooseHabitat()
    ensures HabitatOf(CanadaGoose, "Waterfowl") == Water
  {
    CanadaGooseLowered();
    WaterfowlLowered();
    CanadaGooseText();
    LoweredInputs(CanadaGoose, "Waterfowl", "canada goose", "waterfowl");
  }

  lemma WoodDuckWoodpeckerKeywords()
    ensures !Mentions("wood duck", Words(WoodpeckerKeywords))
  {
    var s := "wood duck";
    NoneOccur(s, Words(WoodpeckerKeywords), 0, [4, 0, 0, 0, 3, 0]);
  }

  lemma WoodDuckHummingbirdKeywords()
    ensures !Mentions("wood duck", Words(HummingbirdKeywords))
  {
    var s := "wood duck";
    NoneOccur(s, Words(HummingbirdKeywords), 0, [0, 0, 0, 0, 1]);
  }

  lemma WoodDuckText()
    ensures Classify(Words, "wood duck", "waterfowl") == Water
  {
    var n, f := "wood duck", "waterfowl";
    WoodDuckWoodpeckerKeywords();
    WaterfowlWoodpeckerKeywords();
    WoodDuckHummingbirdKeywords();
    Unmentioned(f, Words(HummingbirdKeywords), [0, 1, 1, 1, 0]);
    assert OccursAt(n, Words(WaterKeywords)[0], 5);
    SearchOrderPriority(Words, n, f, 2);
  }

  lemma WoodDuckLowered()
    ensures Lower(NameOrEmpty(WoodDuck.name)) == "wood duck"
  {
    LowerIs("Wood Duck", "wood duck");
  }

  lemma WoodDuckHabitat()
    ensures HabitatOf(WoodDuck, "Waterfowl") == Water
  {
    WoodDuckLowered();
    WaterfowlLowered();
    WoodDuckText();
    LoweredInputs(WoodDuck, "Waterfowl", "wood duck", "waterfowl");
  }

  lemma HummingbirdsLowered()
    ensures Lower("Hummingbirds") == "hummingbirds"
  {
    LowerIs("Hummingbirds", "hummingbirds");
  }

  lemma HummingbirdsWoodpeckerKeywords()
    ensures !Mentions("hummingbirds", Words(WoodpeckerKeywords))
  {
    var s := "hummingbirds";
    NoneOccur(s, Words(WoodpeckerKeywords), 0, [0, 0, 0, 1, 1, 0]);
  }

  lemma RubyThroatedHummingbirdText()
    ensures Classify(Words, "ruby-throated hummingbird", "hummingbirds") == Garden
  {
    var n, f := "ruby-throated hummingbird", "hummingbirds";
    Unmentioned(n, Words(WoodpeckerKeywords), [0, 0, 0, 0, 2, 0]);
    HummingbirdsWoodpeckerKeywords();
    assert OccursAt(n, Words(HummingbirdKeywords)[0], 14);
    SearchOrderPriority(Words, n, f, 1);
  }

  lemma RubyThroatedHummingbirdLowered()
    ensures Lower(NameOrEmpty(RubyThroatedHummingbird.name)) == "ruby-throated hummingbird"
  {
    LowerIs("Ruby-throated Hummingbird", "ruby-throated hummingbird");
  }

  lemma RubyThroatedHummingbirdHabitat()
    ensures HabitatOf(RubyThroatedHummingbird, "Hummingbirds") == Garden
  {
    RubyThroatedHummingbirdLowered();
    HummingbirdsLowered();
    RubyThroatedHummingbirdText();
    LoweredInputs(RubyThroatedHummingbird, "Hummingbirds", "ruby-throated hummingbird", "hummingbirds");
  }

  lemma AnnasHummingbirdWoodpeckerKeywords()
    ensures !Mentions("anna's hummingbird", Words(WoodpeckerKeywords))
  {
    var s := "anna's hummingbird";
    NoneOccur(s, Words(WoodpeckerKeywords), 0, [0, 0, 0, 2, 1, 0]);
  }

  lemma AnnasHummingbirdText()
    ensures Classify(Words, "anna's hummingbird", "hummingbirds") == Garden
  {
    var n, f := "anna's hummingbird", "hummingbirds";
    AnnasHummingbirdWoodpeckerKeywords();
    HummingbirdsWoodpeckerKeywords();
    assert OccursAt(n, Words(HummingbirdKeywords)[0], 7);
    SearchOrderPriority(Words, n, f, 1);
  }

  lemma AnnasHummingbirdLowered()
    ensures Lower(NameOrEmpty(AnnasHummingbird.name)) == "anna's hummingbird"
  {
    LowerIs("Anna's Hummingbird", "anna's hummingbird");
  }

  lemma AnnasHummingbirdHabitat()
    ensures HabitatOf(AnnasHummingbird, "Hummingbirds") == Garden
  {
    AnnasHummingbirdLowered();
    HummingbirdsLowered();
    AnnasHummingbirdText();
    LoweredInputs(AnnasHummingbird, "Hummingbirds", "anna's hummingbird", "hummingbirds");
  }

  lemma WoodpeckersLowered()
    ensures Lower("Woodpeckers") == "woodpeckers"
  {
    LowerIs("Woodpeckers", "woodpeckers");
  }

  lemma DownyWoodpeckerText()
    ensures Classify(Words, "downy woodpecker", "woodpeckers") == TreeHigh
  {
    var n, f := "downy woodpecker", "woodpeckers";
    assert OccursAt(n, Words(WoodpeckerKeywords)[0], 6);
    SearchOrderPriority(Words, n, f, 0);
  }

  lemma DownyWoodpeckerLowered()
    ensures Lower(NameOrEmpty(DownyWoodpecker.name)) == "downy woodpecker"
  {
    LowerIs("Downy Woodpecker", "downy woodpecker");
  }

  lemma DownyWoodpeckerHabitat()
    ensures HabitatOf(DownyWoodpecker, "Woodpeckers") == TreeHigh
  {
    DownyWoodpeckerLowered();
    WoodpeckersLowered();
    DownyWoodpeckerText();
    LoweredInputs(DownyWoodpecker, "Woodpeckers", "downy woodpecker", "woodpeckers");
  }

  lemma PileatedWoodpeckerText()
    ensures Classify(Words, "pileated woodpecker", "woodpeckers") == TreeHigh
  {
    var n, f := "pileated woodpecker", "woodpeckers";
    assert OccursAt(n, Words(WoodpeckerKeywords)[0], 9);
    SearchOrderPriority(Words, n, f, 0);
  }

  lemma PileatedWoodpeckerLowered()
    ensures Lower(NameOrEmpty(PileatedWoodpecker.name)) == "pileated woodpecker"
  {
    LowerIs("Pileated Woodpecker", "pileated woodpecker");
  }

  lemma PileatedWoodpeckerHabitat()
    ensures HabitatOf(PileatedWoodpecker, "Woodpeckers") == TreeHigh
  {
    PileatedWoodpeckerLowered();
    WoodpeckersLowered();
    PileatedWoodpeckerText();
    LoweredInputs(PileatedWoodpecker, "Woodpeckers", "pileated woodpecker", "woodpeckers");
  }
}
