/**
 * The code registry of the current tracker (`codesByScene`): eighteen
 * families named after the scene that holds the secret, thirty-six flags.
 * The entries are listed in the order of the registry's source text; the
 * registry is a Go map, so that order carries no meaning.
 */
module TrackerCodes {
  import opened Text
  import opened Codes

  const Rows: seq<Code> := [
    Code("Global", "Firecracker", Granted("Firecracker")),
    Code("Global", "Firebomb", Granted("Firebomb")),
    Code("Global", "Icebomb", Granted("Icebomb")),
    Code("Overworld", "Upper Flowers Fairy", Fairy(1, "Overworld_Flowers_Upper")),
    Code("Overworld", "Lower Flower Fairy", Fairy(2, "Overworld_Flowers_Lower")),
    Code("Overworld", "Moss Fairy", Fairy(3, "Overworld_Moss")),
    Code("Overworld", "Compass Fairy", Fairy(11, "WeatherVane")),
    Code("Overworld", "Fountain Fairy", Fairy(16, "Fountain")),
    Code("Overworld", "Back To Work Treasure", Saved("Overworld Redux", "Starting Island Trophy Chest")),
    Code("Overworld", "Vintage Treasure", Saved("Overworld Redux", "Tropical Secret Chest - Environmental Filigree Safe (Non Fairy)")),
    Code("Overworld", "Power Up Treasure", Saved("Overworld Redux", "Windchime Chest - Environmental Filigree Safe (Non Fairy)")),
    Code("Overworld", "Sacred Geometry Treasure", Saved("Overworld Redux", "Windmill Chest - Environmental Filigree Safe (Non Fairy)")),
    Code("Overworld", "Fountain Cross Door", Saved("Overworld Redux", "Filigree_Door_Basic (1)")),
    Code("Overworld", "Southeast Cross Door", Saved("Overworld Redux", "Filigree_Door_Basic")),
    Code("Overworld", "Fire Wand Obelisk Page", Saved("Overworld Redux", "Obelisk_Solved")),
    Code("Cube Cave", "Cube Fairy", Fairy(14, "Cube")),
    Code("Caustic Light Cave", "Casting Light Fairy", Fairy(4, "Caustics")),
    Code("Ruined Passage", "Ruined Passage Door", Saved("Ruins Passage", "secret filigree door")),
    Code("Patrol Cave", "Patrol Fairy", Fairy(13, "Patrol")),
    Code("Secret Gathering Place", "Waterfall Fairy", Fairy(5, "Waterfall")),
    Code("Hourglass Cave", "Hourglass Door", Saved("Town Basement", "secret filigree door")),
    Code("Hourglass Cave", "Hourglass Fairy", Fairy(10, "3DPillar")),
    Code("Maze Cave", "Maze Fairy", Fairy(15, "Maze")),
    Code("Old House", "Old House Fairy", Fairy(12, "House")),
    Code("Old House", "Old House Door", Saved("Overworld Interiors", "Filigree_Door")),
    Code("Sealed Temple", "Temple Fairy", Fairy(6, "Temple")),
    Code("East Forest", "Dancer Fairy", Fairy(8, "Dancer")),
    Code("East Forest", "Obelisk Fairy", Fairy(20, "ForestMonolith")),
    Code("West Garden", "Sword Door", Saved("Archipelagos Redux", "Filigree_Door_Basic")),
    Code("West Garden", "Tiles Fairy", Fairy(18, "GardenCourtyard")),
    Code("West Garden", "Tree Fairy", Fairy(17, "GardenTree")),
    Code("Library Hall", "Library Fairy", Fairy(9, "Library_Rug")),
    Code("Eastern Vault Fortress", "Candles Fairy", Fairy(19, "FortressCandles")),
    Code("Quarry", "Quarry Fairy", Fairy(7, "Quarry")),
    Code("Lower Mountain", "Top Of Mountain Door", Saved("Mountain", "__Final Door Spell Listener")),
    Code("Cathedral", "Secret Legend Door", Saved("Cathedral Redux", "secret filigree door"))
  ]

  lemma Size()
    ensures |Rows| == 36
  {
  }

  lemma RowsWellFormed()
    ensures WellFormedRows(Rows)
  {
    WellFormed0();
    WellFormed1();
    WellFormed2();
    WellFormed2b();
    WellFormed3();
  }
  lemma WellFormed0()
    ensures forall i :: 0 <= i < 12 ==> WellFormed(Rows[i].sig)
  {
  }
  lemma WellFormed1()
    ensures forall i :: 12 <= i < 24 ==> WellFormed(Rows[i].sig)
  {
  }
  lemma WellFormed2()
    ensures forall i :: 24 <= i < 27 ==> WellFormed(Rows[i].sig)
  {
  }
  lemma WellFormed2b()
    ensures forall i :: 27 <= i < 30 ==> WellFormed(Rows[i].sig)
  {
  }
  lemma WellFormed3()
    ensures forall i :: 30 <= i < |Rows| ==> WellFormed(Rows[i].sig)
  {
  }

  lemma KeysAreUnique()
    ensures UniqueKeys(Rows)
  {
    KeysUnique0();
    KeysUnique0b();
    KeysUnique1();
    KeysUnique1b();
    KeysUnique2();
  }
  lemma KeysUnique0()
    ensures forall i, j :: 0 <= i < 2 && i < j < |Rows| ==> Rows[i].family != Rows[j].family || Rows[i].flag != Rows[j].flag
  {
  }
  lemma KeysUnique0b()
    ensures forall i, j :: 2 <= i < 4 && i < j < |Rows| ==> Rows[i].family != Rows[j].family || Rows[i].flag != Rows[j].flag
  {
  }
  lemma KeysUnique1b()
    ensures forall i, j :: 10 <= i < 16 && i < j < |Rows| ==> Rows[i].family != Rows[j].family || Rows[i].flag != Rows[j].flag
  {
  }
  lemma KeysUnique1()
    ensures forall i, j :: 4 <= i < 10 && i < j < |Rows| ==> Rows[i].family != Rows[j].family || Rows[i].flag != Rows[j].flag
  {
  }
  lemma KeysUnique2()
    ensures forall i, j :: 16 <= i < 36 && i < j < |Rows| ==> Rows[i].family != Rows[j].family || Rows[i].flag != Rows[j].flag
  {
  }

  lemma SigsUnique0()
    ensures forall i, j :: 0 <= i < 6 && i < j < |Rows| ==> Rows[i].sig != Rows[j].sig
  {
  }
  lemma SigsUnique1()
    ensures forall i, j :: 6 <= i < 12 && i < j < |Rows| ==> Rows[i].sig != Rows[j].sig
  {
  }
  lemma SigsUnique2()
    ensures forall i, j :: 12 <= i < 36 && i < j < |Rows| ==> Rows[i].sig != Rows[j].sig
  {
  }

  /** The families in order of first appearance: one per scene that hides a code. */
  const FamilyList: seq<string> := [
    "Global",
    "Overworld",
    "Cube Cave",
    "Caustic Light Cave",
    "Ruined Passage",
    "Patrol Cave",
    "Secret Gathering Place",
    "Hourglass Cave",
    "Maze Cave",
    "Old House",
    "Sealed Temple",
    "East Forest",
    "West Garden",
    "Library Hall",
    "Eastern Vault Fortress",
    "Quarry",
    "Lower Mountain",
    "Cathedral"
  ]

  lemma FamilyListDistinct()
    ensures forall i, j :: 0 <= i < j < |FamilyList| ==> FamilyList[i] != FamilyList[j]
  {
  }

  lemma FamiliesListed0()
    ensures forall i :: 0 <= i < 12 ==> Rows[i].family in FamilyList
  {
  }
  lemma FamiliesListed1()
    ensures forall i :: 12 <= i < 24 ==> Rows[i].family in FamilyList
  {
  }
  lemma FamiliesListed2()
    ensures forall i :: 24 <= i < |Rows| ==> Rows[i].family in FamilyList
  {
  }

  lemma FamiliesUsed0()
    ensures forall k :: 0 <= k < 9 ==> FamilyList[k] in Families(Rows)
  {
    FamiliesUsed0a();
    FamiliesUsed0b();
  }
  lemma FamiliesUsed0a()
    ensures forall k :: 0 <= k < 5 ==> FamilyList[k] in Families(Rows)
  {
    forall k | 0 <= k < 5 ensures FamilyList[k] in Families(Rows) {
      if k == 0 {
        assert Rows[0].family == FamilyList[0];
      } else if k == 1 {
        assert Rows[3].family == FamilyList[1];
      } else if k == 2 {
        assert Rows[15].family == FamilyList[2];
      } else if k == 3 {
        assert Rows[16].family == FamilyList[3];
      } else {
        assert Rows[17].family == FamilyList[4];
      }
    }
  }
  lemma FamiliesUsed0b()
    ensures forall k :: 5 <= k < 9 ==> FamilyList[k] in Families(Rows)
  {
    forall k | 5 <= k < 9 ensures FamilyList[k] in Families(Rows) {
      if k == 5 {
        assert Rows[18].family == FamilyList[5];
      } else if k == 6 {
        assert Rows[19].family == FamilyList[6];
      } else if k == 7 {
        assert Rows[20].family == FamilyList[7];
      } else {
        assert Rows[22].family == FamilyList[8];
      }
    }
  }

  lemma FamiliesUsed1()
    ensures forall k :: 9 <= k < |FamilyList| ==> FamilyList[k] in Families(Rows)
  {
    forall k | 9 <= k < |FamilyList| ensures FamilyList[k] in Families(Rows) {
      if k == 9 {
        assert Rows[23].family == FamilyList[9];
      } else if k == 10 {
        assert Rows[25].family == FamilyList[10];
      } else if k == 11 {
        assert Rows[26].family == FamilyList[11];
      } else if k == 12 {
        assert Rows[28].family == FamilyList[12];
      } else if k == 13 {
        assert Rows[31].family == FamilyList[13];
      } else if k == 14 {
        assert Rows[32].family == FamilyList[14];
      } else if k == 15 {
        assert Rows[33].family == FamilyList[15];
      } else if k == 16 {
        assert Rows[34].family == FamilyList[16];
      } else {
        assert Rows[35].family == FamilyList[17];
      }
    }
  }

  lemma FamilyCount()
    ensures Families(Rows) == set f | f in FamilyList
    ensures |Families(Rows)| == 18
  {
    FamiliesListed0();
    FamiliesListed1();
    FamiliesListed2();
    FamiliesUsed0();
    FamiliesUsed1();
    FamilyListDistinct();
    CardOfDistinct(FamilyList);
  }

  lemma SigsAreUnique()
    ensures DistinctSigs(Rows)
  {
    SigsUnique0();
    SigsUnique1();
    SigsUnique2();
  }

  /** One save line raises at most one flag of this registry. */
  lemma SignalsAreUnique()
    ensures DistinctSignals(Rows)
  {
    RowsWellFormed();
    SigsAreUnique();
    SignalsOfDistinctSigs(Rows);
  }

  /** The twenty fairies: numbered 1 to 20, each number on exactly one entry. */
  lemma FairiesOnce()
    ensures forall i :: 0 <= i < |Rows| && Rows[i].sig.Fairy? ==> 1 <= Rows[i].sig.number <= 20
    ensures forall i, j :: 0 <= i < j < |Rows| && Rows[i].sig.Fairy? && Rows[j].sig.Fairy? ==>
              Rows[i].sig.number != Rows[j].sig.number
    ensures forall k :: 1 <= k <= 20 ==> ListsFairy(Rows, k)
  {
    FairyNumbersDistinct();
    FairyNumbersInRange();
    FairiesListed0();
    FairiesListed1();
    FairiesListed2();
    FairiesListed3();
  }

  lemma FairiesListed0()
    ensures forall k :: 1 <= k <= 5 ==> ListsFairy(Rows, k)
  {
    forall k | 1 <= k <= 5 ensures ListsFairy(Rows, k) {
      if k == 1 {
        assert Rows[3].sig.number == 1;
      } else if k == 2 {
        assert Rows[4].sig.number == 2;
      } else if k == 3 {
        assert Rows[5].sig.number == 3;
      } else if k == 4 {
        assert Rows[16].sig.number == 4;
      } else {
        assert Rows[19].sig.number == 5;
      }
    }
  }

  lemma FairiesListed1()
    ensures forall k :: 6 <= k <= 10 ==> ListsFairy(Rows, k)
  {
    forall k | 6 <= k <= 10 ensures ListsFairy(Rows, k) {
      if k == 6 {
        assert Rows[25].sig.number == 6;
      } else if k == 7 {
        assert Rows[33].sig.number == 7;
      } else if k == 8 {
        assert Rows[26].sig.number == 8;
      } else if k == 9 {
        assert Rows[31].sig.number == 9;
      } else {
        assert Rows[21].sig.number == 10;
      }
    }
  }

  lemma FairiesListed2()
    ensures forall k :: 11 <= k <= 15 ==> ListsFairy(Rows, k)
  {
    forall k | 11 <= k <= 15 ensures ListsFairy(Rows, k) {
      if k == 11 {
        assert Rows[6].sig.number == 11;
      } else if k == 12 {
        assert Rows[23].sig.number == 12;
      } else if k == 13 {
        assert Rows[18].sig.number == 13;
      } else if k == 14 {
        assert Rows[15].sig.number == 14;
      } else {
        assert Rows[22].sig.number == 15;
      }
    }
  }

  lemma FairiesListed3()
    ensures forall k :: 16 <= k <= 20 ==> ListsFairy(Rows, k)
  {
    forall k | 16 <= k <= 20 ensures ListsFairy(Rows, k) {
      if k == 16 {
        assert Rows[7].sig.number == 16;
      } else if k == 17 {
        assert Rows[30].sig.number == 17;
      } else if k == 18 {
        assert Rows[29].sig.number == 18;
      } else if k == 19 {
        assert Rows[32].sig.number == 19;
      } else {
        assert Rows[27].sig.number == 20;
      }
    }
  }

  lemma FairyNumbersDistinct()
    ensures forall i, j :: 0 <= i < j < |Rows| && Rows[i].sig.Fairy? && Rows[j].sig.Fairy? ==>
              Rows[i].sig.number != Rows[j].sig.number
  {
    FairyNumbersDistinct0();
    FairyNumbersDistinct1();
  }
  lemma FairyNumbersDistinct0()
    ensures forall i, j :: 0 <= i < 16 && i < j < |Rows| && Rows[i].sig.Fairy? && Rows[j].sig.Fairy? ==>
              Rows[i].sig.number != Rows[j].sig.number
  {
  }
  lemma FairyNumbersDistinct1()
    ensures forall i, j :: 16 <= i < j < |Rows| && Rows[i].sig.Fairy? && Rows[j].sig.Fairy? ==>
              Rows[i].sig.number != Rows[j].sig.number
  {
  }
  lemma FairyNumbersInRange()
    ensures forall i :: 0 <= i < |Rows| && Rows[i].sig.Fairy? ==> 1 <= Rows[i].sig.number <= 20
  {
  }
}
