/**
 * The code registry of the older parser in the program's entry point
 * (`codes`): four families (Fairies, Treasures, Doors, Flags) and
 * thirty-three flags, listed family by family in the order of the
 * registry's source text, which as a Go map carries no meaning.
 */
module MainCodes {
  import opened Text
  import opened Codes
  import TrackerCodes

  const Rows: seq<Code> := [
    Code("Fairies", "UpperFlowers", Fairy(1, "Overworld_Flowers_Upper")),
    Code("Fairies", "LowerFlowers", Fairy(2, "Overworld_Flowers_Lower")),
    Code("Fairies", "Moss", Fairy(3, "Overworld_Moss")),
    Code("Fairies", "CastingLight", Fairy(4, "Caustics")),
    Code("Fairies", "Waterfall", Fairy(5, "Waterfall")),
    Code("Fairies", "Temple", Fairy(6, "Temple")),
    Code("Fairies", "Quarry", Fairy(7, "Quarry")),
    Code("Fairies", "Dancer", Fairy(8, "Dancer")),
    Code("Fairies", "Library", Fairy(9, "Library_Rug")),
    Code("Fairies", "Hourglass", Fairy(10, "3DPillar")),
    Code("Fairies", "Compass", Fairy(11, "WeatherVane")),
    Code("Fairies", "OldHouse", Fairy(12, "House")),
    Code("Fairies", "Patrol", Fairy(13, "Patrol")),
    Code("Fairies", "Cube", Fairy(14, "Cube")),
    Code("Fairies", "Maze", Fairy(15, "Maze")),
    Code("Fairies", "Fountain", Fairy(16, "Fountain")),
    Code("Fairies", "Tree", Fairy(17, "GardenTree")),
    Code("Fairies", "Tiles", Fairy(18, "GardenCourtyard")),
    Code("Fairies", "Candles", Fairy(19, "FortressCandles")),
    Code("Fairies", "Obelisk", Fairy(20, "ForestMonolith")),
    Code("Treasures", "BackToWork", Saved("Overworld Redux", "Starting Island Trophy Chest")),
    Code("Treasures", "Vintage", Saved("Overworld Redux", "Tropical Secret Chest - Environmental Filigree Safe (Non Fairy)")),
    Code("Treasures", "PowerUp", Saved("Overworld Redux", "Windchime Chest - Environmental Filigree Safe (Non Fairy)")),
    Code("Treasures", "SacredGeometry", Saved("Overworld Redux", "Windmill Chest - Environmental Filigree Safe (Non Fairy)")),
    Code("Doors", "FountainCrossDoor", Saved("Overworld Redux", "Filigree_Door_Basic (1)")),
    Code("Doors", "SoutheastCrossDoor", Saved("Overworld Redux", "Filigree_Door_Basic")),
    Code("Doors", "OldHouseDoor", Saved("Overworld Interiors", "Filigree_Door")),
    Code("Doors", "HourglassDoor", Saved("Town Basement", "secret filigree door")),
    Code("Doors", "RuinedPassageDoor", Saved("Ruins Passage", "secret filigree door")),
    Code("Doors", "WestGardenSwordDoor", Saved("Archipelagos Redux", "Filigree_Door_Basic")),
    Code("Doors", "SecretLegendDoor", Saved("Cathedral Redux", "secret filigree door")),
    Code("Doors", "TopOfMountainDoor", Saved("Mountain", "__Final Door Spell Listener")),
    Code("Flags", "FireWandObelisk", Saved("Overworld Redux", "Obelisk_Solved"))
  ]

  /** Four families of 20, 4, 8 and 1 flags, in that order. */
  lemma FamilySizes()
    ensures |Rows| == 33
    ensures forall i :: 0 <= i < 20 ==> Rows[i].family == "Fairies"
    ensures forall i :: 20 <= i < 24 ==> Rows[i].family == "Treasures"
    ensures forall i :: 24 <= i < 32 ==> Rows[i].family == "Doors"
    ensures Rows[32].family == "Flags"
  {
  }

  lemma FamilyCount()
    ensures Families(Rows) == {"Fairies", "Treasures", "Doors", "Flags"}
    ensures |Families(Rows)| == 4
  {
    FamilySizes();
    assert Rows[0].family == "Fairies" && Rows[20].family == "Treasures";
    assert Rows[24].family == "Doors" && Rows[32].family == "Flags";
  }

  /** The k-th Fairies entry is fairy number k, so its signal begins `SV_Fairy_k_`. */
  lemma FairiesInOrder()
    ensures forall i :: 0 <= i < 20 ==> Rows[i].sig.Fairy? && Rows[i].sig.number == i + 1
    ensures forall i :: 0 <= i < 20 ==> HasPrefix(Signal(Rows[i].sig), "SV_Fairy_" + Decimal(i + 1) + "_")
  {
    FairyNumbers();
    forall i | 0 <= i < 20 ensures HasPrefix(Signal(Rows[i].sig), "SV_Fairy_" + Decimal(i + 1) + "_") {
      FairyPrefix(i + 1, Rows[i].sig.place);
    }
  }

  lemma FairyNumbers()
    ensures forall i :: 0 <= i < 20 ==> Rows[i].sig.Fairy? && Rows[i].sig.number == i + 1
  {
  }

  lemma RowsWellFormed()
    ensures WellFormedRows(Rows)
  {
    WellFormed0();
    WellFormed1();
    WellFormed2();
  }
  lemma WellFormed0()
    ensures forall i :: 0 <= i < 24 ==> WellFormed(Rows[i].sig)
  {
  }
  lemma WellFormed1()
    ensures forall i :: 24 <= i < 29 ==> WellFormed(Rows[i].sig)
  {
  }
  lemma WellFormed2()
    ensures forall i :: 29 <= i < |Rows| ==> WellFormed(Rows[i].sig)
  {
  }

  lemma KeysAreUnique()
    ensures UniqueKeys(Rows)
  {
    KeysUnique0();
    KeysUnique0a();
    KeysUnique0b();
    KeysUnique1();
    KeysUnique2();
  }
  lemma KeysUnique0()
    ensures forall i, j :: 0 <= i < 2 && i < j < |Rows| ==> Rows[i].family != Rows[j].family || Rows[i].flag != Rows[j].flag
  {
  }
  lemma KeysUnique0a()
    ensures forall i, j :: 2 <= i < 4 && i < j < |Rows| ==> Rows[i].family != Rows[j].family || Rows[i].flag != Rows[j].flag
  {
  }
  lemma KeysUnique0b()
    ensures forall i, j :: 4 <= i < 10 && i < j < |Rows| ==> Rows[i].family != Rows[j].family || Rows[i].flag != Rows[j].flag
  {
  }
  lemma KeysUnique1()
    ensures forall i, j :: 10 <= i < 20 && i < j < |Rows| ==> Rows[i].family != Rows[j].family || Rows[i].flag != Rows[j].flag
  {
  }
  lemma KeysUnique2()
    ensures forall i, j :: 20 <= i < j < |Rows| ==> Rows[i].family != Rows[j].family || Rows[i].flag != Rows[j].flag
  {
  }

  lemma SigsAreUnique()
    ensures DistinctSigs(Rows)
  {
    SigsUnique0();
    SigsUnique1();
  }
  lemma SigsUnique0()
    ensures forall i, j :: 0 <= i < 20 && i < j < |Rows| ==> Rows[i].sig != Rows[j].sig
  {
    SigsUnique0a();
    SigsUnique0b();
  }
  lemma SigsUnique0a()
    ensures forall i, j :: 0 <= i < 10 && i < j < |Rows| ==> Rows[i].sig != Rows[j].sig
  {
  }
  lemma SigsUnique0b()
    ensures forall i, j :: 10 <= i < 20 && i < j < |Rows| ==> Rows[i].sig != Rows[j].sig
  {
  }
  lemma SigsUnique1()
    ensures forall i, j :: 20 <= i < j < |Rows| ==> Rows[i].sig != Rows[j].sig
  {
  }

  /** One save line raises at most one flag of this registry. */
  lemma SignalsAreUnique()
    ensures DistinctSignals(Rows)
  {
    RowsWellFormed();
    SigsAreUnique();
    SignalsOfDistinctSigs(Rows);
  }
}
