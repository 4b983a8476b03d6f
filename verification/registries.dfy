/**
 * The two code registries side by side: the older spoiler parser's
 * (`MainCodes`) and the current tracker's (`TrackerCodes`) list the same
 * secrets, except for the three granted items only the newer one tracks.
 */
module Registries {
  import opened Codes
  import MainCodes
  import TrackerCodes

  /** The granted items only the newer registry tracks. */
  const ExtraGrants: set<Sig> := {Granted("Firecracker"), Granted("Firebomb"), Granted("Icebomb")}

  /** The newer registry holds every signal of this one, and only the three granted items besides. */
  lemma TrackerRegistryExtends()
    ensures forall i :: 0 <= i < |MainCodes.Rows| ==> ListsSig(TrackerCodes.Rows, MainCodes.Rows[i].sig)
    ensures forall j :: 0 <= j < |TrackerCodes.Rows| ==>
              ListsSig(MainCodes.Rows, TrackerCodes.Rows[j].sig) || TrackerCodes.Rows[j].sig in ExtraGrants
  {
    MainCodes.FamilySizes();
    InTracker0();
    InTracker3();
    InTracker6();
    InTracker9();
    InTracker12();
    InTracker15();
    InTracker18();
    InTracker21();
    InTracker24();
    InTracker27();
    InTracker30();
    FromMain0();
    FromMain3();
    FromMain6();
    FromMain9();
    FromMain12();
    FromMain15();
    FromMain18();
    FromMain21();
    FromMain24();
    FromMain27();
    FromMain30();
    FromMain33();
  }

  lemma InTracker0()
    ensures forall i :: 0 <= i < 3 ==> ListsSig(TrackerCodes.Rows, MainCodes.Rows[i].sig)
  {
    Matched0();
    Matched1();
    Matched2();
    forall i | 0 <= i < 3 ensures ListsSig(TrackerCodes.Rows, MainCodes.Rows[i].sig) {
      assert i == 0 || i == 1 || i == 2;
    }
  }

  lemma InTracker3()
    ensures forall i :: 3 <= i < 6 ==> ListsSig(TrackerCodes.Rows, MainCodes.Rows[i].sig)
  {
    Matched3();
    Matched4();
    Matched5();
    forall i | 3 <= i < 6 ensures ListsSig(TrackerCodes.Rows, MainCodes.Rows[i].sig) {
      assert i == 3 || i == 4 || i == 5;
    }
  }

  lemma InTracker6()
    ensures forall i :: 6 <= i < 9 ==> ListsSig(TrackerCodes.Rows, MainCodes.Rows[i].sig)
  {
    Matched6();
    Matched7();
    Matched8();
    forall i | 6 <= i < 9 ensures ListsSig(TrackerCodes.Rows, MainCodes.Rows[i].sig) {
      assert i == 6 || i == 7 || i == 8;
    }
  }

  lemma InTracker9()
    ensures forall i :: 9 <= i < 12 ==> ListsSig(TrackerCodes.Rows, MainCodes.Rows[i].sig)
  {
    Matched9();
    Matched10();
    Matched11();
    forall i | 9 <= i < 12 ensures ListsSig(TrackerCodes.Rows, MainCodes.Rows[i].sig) {
      assert i == 9 || i == 10 || i == 11;
    }
  }

  lemma InTracker12()
    ensures forall i :: 12 <= i < 15 ==> ListsSig(TrackerCodes.Rows, MainCodes.Rows[i].sig)
  {
    Matched12();
    Matched13();
    Matched14();
    forall i | 12 <= i < 15 ensures ListsSig(TrackerCodes.Rows, MainCodes.Rows[i].sig) {
      assert i == 12 || i == 13 || i == 14;
    }
  }

  lemma InTracker15()
    ensures forall i :: 15 <= i < 18 ==> ListsSig(TrackerCodes.Rows, MainCodes.Rows[i].sig)
  {
    Matched15();
    Matched16();
    Matched17();
    forall i | 15 <= i < 18 ensures ListsSig(TrackerCodes.Rows, MainCodes.Rows[i].sig) {
      assert i == 15 || i == 16 || i == 17;
    }
  }

  lemma InTracker18()
    ensures forall i :: 18 <= i < 21 ==> ListsSig(TrackerCodes.Rows, MainCodes.Rows[i].sig)
  {
    Matched18();
    Matched19();
    Matched20();
    forall i | 18 <= i < 21 ensures ListsSig(TrackerCodes.Rows, MainCodes.Rows[i].sig) {
      assert i == 18 || i == 19 || i == 20;
    }
  }

  lemma InTracker21()
    ensures forall i :: 21 <= i < 24 ==> ListsSig(TrackerCodes.Rows, MainCodes.Rows[i].sig)
  {
    Matched21();
    Matched22();
    Matched23();
    forall i | 21 <= i < 24 ensures ListsSig(TrackerCodes.Rows, MainCodes.Rows[i].sig) {
      assert i == 21 || i == 22 || i == 23;
    }
  }

  lemma InTracker24()
    ensures forall i :: 24 <= i < 27 ==> ListsSig(TrackerCodes.Rows, MainCodes.Rows[i].sig)
  {
    Matched24();
    Matched25();
    Matched26();
    forall i | 24 <= i < 27 ensures ListsSig(TrackerCodes.Rows, MainCodes.Rows[i].sig) {
      assert i == 24 || i == 25 || i == 26;
    }
  }

  lemma InTracker27()
    ensures forall i :: 27 <= i < 30 ==> ListsSig(TrackerCodes.Rows, MainCodes.Rows[i].sig)
  {
    Matched27();
    Matched28();
    Matched29();
    forall i | 27 <= i < 30 ensures ListsSig(TrackerCodes.Rows, MainCodes.Rows[i].sig) {
      assert i == 27 || i == 28 || i == 29;
    }
  }

  lemma InTracker30()
    ensures forall i :: 30 <= i < 33 ==> ListsSig(TrackerCodes.Rows, MainCodes.Rows[i].sig)
  {
    Matched30();
    Matched31();
    Matched32();
    forall i | 30 <= i < 33 ensures ListsSig(TrackerCodes.Rows, MainCodes.Rows[i].sig) {
      assert i == 30 || i == 31 || i == 32;
    }
  }

  lemma FromMain0()
    ensures forall j :: 0 <= j < 3 ==> ListsSig(MainCodes.Rows, TrackerCodes.Rows[j].sig) || TrackerCodes.Rows[j].sig in ExtraGrants
  {
    forall j | 0 <= j < 3 ensures ListsSig(MainCodes.Rows, TrackerCodes.Rows[j].sig) || TrackerCodes.Rows[j].sig in ExtraGrants {
      assert j == 0 || j == 1 || j == 2;
    }
  }

  lemma FromMain3()
    ensures forall j :: 3 <= j < 6 ==> ListsSig(MainCodes.Rows, TrackerCodes.Rows[j].sig) || TrackerCodes.Rows[j].sig in ExtraGrants
  {
    Matched0();
    Matched1();
    Matched2();
    forall j | 3 <= j < 6 ensures ListsSig(MainCodes.Rows, TrackerCodes.Rows[j].sig) || TrackerCodes.Rows[j].sig in ExtraGrants {
      assert j == 3 || j == 4 || j == 5;
    }
  }

  lemma FromMain6()
    ensures forall j :: 6 <= j < 9 ==> ListsSig(MainCodes.Rows, TrackerCodes.Rows[j].sig) || TrackerCodes.Rows[j].sig in ExtraGrants
  {
    Matched10();
    Matched15();
    Matched20();
    forall j | 6 <= j < 9 ensures ListsSig(MainCodes.Rows, TrackerCodes.Rows[j].sig) || TrackerCodes.Rows[j].sig in ExtraGrants {
      assert j == 6 || j == 7 || j == 8;
    }
  }

  lemma FromMain9()
    ensures forall j :: 9 <= j < 12 ==> ListsSig(MainCodes.Rows, TrackerCodes.Rows[j].sig) || TrackerCodes.Rows[j].sig in ExtraGrants
  {
    Matched21();
    Matched22();
    Matched23();
    forall j | 9 <= j < 12 ensures ListsSig(MainCodes.Rows, TrackerCodes.Rows[j].sig) || TrackerCodes.Rows[j].sig in ExtraGrants {
      assert j == 9 || j == 10 || j == 11;
    }
  }

  lemma FromMain12()
    ensures forall j :: 12 <= j < 15 ==> ListsSig(MainCodes.Rows, TrackerCodes.Rows[j].sig) || TrackerCodes.Rows[j].sig in ExtraGrants
  {
    Matched24();
    Matched25();
    Matched32();
    forall j | 12 <= j < 15 ensures ListsSig(MainCodes.Rows, TrackerCodes.Rows[j].sig) || TrackerCodes.Rows[j].sig in ExtraGrants {
      assert j == 12 || j == 13 || j == 14;
    }
  }

  lemma FromMain15()
    ensures forall j :: 15 <= j < 18 ==> ListsSig(MainCodes.Rows, TrackerCodes.Rows[j].sig) || TrackerCodes.Rows[j].sig in ExtraGrants
  {
    Matched13();
    Matched3();
    Matched28();
    forall j | 15 <= j < 18 ensures ListsSig(MainCodes.Rows, TrackerCodes.Rows[j].sig) || TrackerCodes.Rows[j].sig in ExtraGrants {
      assert j == 15 || j == 16 || j == 17;
    }
  }

  lemma FromMain18()
    ensures forall j :: 18 <= j < 21 ==> ListsSig(MainCodes.Rows, TrackerCodes.Rows[j].sig) || TrackerCodes.Rows[j].sig in ExtraGrants
  {
    Matched12();
    Matched4();
    Matched27();
    forall j | 18 <= j < 21 ensures ListsSig(MainCodes.Rows, TrackerCodes.Rows[j].sig) || TrackerCodes.Rows[j].sig in ExtraGrants {
      assert j == 18 || j == 19 || j == 20;
    }
  }

  lemma FromMain21()
    ensures forall j :: 21 <= j < 24 ==> ListsSig(MainCodes.Rows, TrackerCodes.Rows[j].sig) || TrackerCodes.Rows[j].sig in ExtraGrants
  {
    Matched9();
    Matched14();
    Matched11();
    forall j | 21 <= j < 24 ensures ListsSig(MainCodes.Rows, TrackerCodes.Rows[j].sig) || TrackerCodes.Rows[j].sig in ExtraGrants {
      assert j == 21 || j == 22 || j == 23;
    }
  }

  lemma FromMain24()
    ensures forall j :: 24 <= j < 27 ==> ListsSig(MainCodes.Rows, TrackerCodes.Rows[j].sig) || TrackerCodes.Rows[j].sig in ExtraGrants
  {
    Matched26();
    Matched5();
    Matched7();
    forall j | 24 <= j < 27 ensures ListsSig(MainCodes.Rows, TrackerCodes.Rows[j].sig) || TrackerCodes.Rows[j].sig in ExtraGrants {
      assert j == 24 || j == 25 || j == 26;
    }
  }

  lemma FromMain27()
    ensures forall j :: 27 <= j < 30 ==> ListsSig(MainCodes.Rows, TrackerCodes.Rows[j].sig) || TrackerCodes.Rows[j].sig in ExtraGrants
  {
    Matched19();
    Matched29();
    Matched17();
    forall j | 27 <= j < 30 ensures ListsSig(MainCodes.Rows, TrackerCodes.Rows[j].sig) || TrackerCodes.Rows[j].sig in ExtraGrants {
      assert j == 27 || j == 28 || j == 29;
    }
  }

  lemma FromMain30()
    ensures forall j :: 30 <= j < 33 ==> ListsSig(MainCodes.Rows, TrackerCodes.Rows[j].sig) || TrackerCodes.Rows[j].sig in ExtraGrants
  {
    Matched16();
    Matched8();
    Matched18();
    forall j | 30 <= j < 33 ensures ListsSig(MainCodes.Rows, TrackerCodes.Rows[j].sig) || TrackerCodes.Rows[j].sig in ExtraGrants {
      assert j == 30 || j == 31 || j == 32;
    }
  }

  lemma FromMain33()
    ensures forall j :: 33 <= j < 36 ==> ListsSig(MainCodes.Rows, TrackerCodes.Rows[j].sig) || TrackerCodes.Rows[j].sig in ExtraGrants
  {
    Matched6();
    Matched31();
    Matched30();
    forall j | 33 <= j < 36 ensures ListsSig(MainCodes.Rows, TrackerCodes.Rows[j].sig) || TrackerCodes.Rows[j].sig in ExtraGrants {
      assert j == 33 || j == 34 || j == 35;
    }
  }

  // One lemma per row of the older registry: where the newer one lists the same signal.

  lemma Matched0()
    ensures TrackerCodes.Rows[3].sig == MainCodes.Rows[0].sig
  {
  }

  lemma Matched1()
    ensures TrackerCodes.Rows[4].sig == MainCodes.Rows[1].sig
  {
  }

  lemma Matched2()
    ensures TrackerCodes.Rows[5].sig == MainCodes.Rows[2].sig
  {
  }

  lemma Matched3()
    ensures TrackerCodes.Rows[16].sig == MainCodes.Rows[3].sig
  {
  }

  lemma Matched4()
    ensures TrackerCodes.Rows[19].sig == MainCodes.Rows[4].sig
  {
  }

  lemma Matched5()
    ensures TrackerCodes.Rows[25].sig == MainCodes.Rows[5].sig
  {
  }

  lemma Matched6()
    ensures TrackerCodes.Rows[33].sig == MainCodes.Rows[6].sig
  {
  }

  lemma Matched7()
    ensures TrackerCodes.Rows[26].sig == MainCodes.Rows[7].sig
  {
  }

  lemma Matched8()
    ensures TrackerCodes.Rows[31].sig == MainCodes.Rows[8].sig
  {
  }

  lemma Matched9()
    ensures TrackerCodes.Rows[21].sig == MainCodes.Rows[9].sig
  {
  }

  lemma Matched10()
    ensures TrackerCodes.Rows[6].sig == MainCodes.Rows[10].sig
  {
  }

  lemma Matched11()
    ensures TrackerCodes.Rows[23].sig == MainCodes.Rows[11].sig
  {
  }

  lemma Matched12()
    ensures TrackerCodes.Rows[18].sig == MainCodes.Rows[12].sig
  {
  }

  lemma Matched13()
    ensures TrackerCodes.Rows[15].sig == MainCodes.Rows[13].sig
  {
  }

  lemma Matched14()
    ensures TrackerCodes.Rows[22].sig == MainCodes.Rows[14].sig
  {
  }

  lemma Matched15()
    ensures TrackerCodes.Rows[7].sig == MainCodes.Rows[15].sig
  {
  }

  lemma Matched16()
    ensures TrackerCodes.Rows[30].sig == MainCodes.Rows[16].sig
  {
  }

  lemma Matched17()
    ensures TrackerCodes.Rows[29].sig == MainCodes.Rows[17].sig
  {
  }

  lemma Matched18()
    ensures TrackerCodes.Rows[32].sig == MainCodes.Rows[18].sig
  {
  }

  lemma Matched19()
    ensures TrackerCodes.Rows[27].sig == MainCodes.Rows[19].sig
  {
  }

  lemma Matched20()
    ensures TrackerCodes.Rows[8].sig == MainCodes.Rows[20].sig
  {
  }

  lemma Matched21()
    ensures TrackerCodes.Rows[9].sig == MainCodes.Rows[21].sig
  {
  }

  lemma Matched22()
    ensures TrackerCodes.Rows[10].sig == MainCodes.Rows[22].sig
  {
  }

  lemma Matched23()
    ensures TrackerCodes.Rows[11].sig == MainCodes.Rows[23].sig
  {
  }

  lemma Matched24()
    ensures TrackerCodes.Rows[12].sig == MainCodes.Rows[24].sig
  {
  }

  lemma Matched25()
    ensures TrackerCodes.Rows[13].sig == MainCodes.Rows[25].sig
  {
  }

  lemma Matched26()
    ensures TrackerCodes.Rows[24].sig == MainCodes.Rows[26].sig
  {
  }

  lemma Matched27()
    ensures TrackerCodes.Rows[20].sig == MainCodes.Rows[27].sig
  {
  }

  lemma Matched28()
    ensures TrackerCodes.Rows[17].sig == MainCodes.Rows[28].sig
  {
  }

  lemma Matched29()
    ensures TrackerCodes.Rows[28].sig == MainCodes.Rows[29].sig
  {
  }

  lemma Matched30()
    ensures TrackerCodes.Rows[35].sig == MainCodes.Rows[30].sig
  {
  }

  lemma Matched31()
    ensures TrackerCodes.Rows[34].sig == MainCodes.Rows[31].sig
  {
  }

  lemma Matched32()
    ensures TrackerCodes.Rows[14].sig == MainCodes.Rows[32].sig
  {
  }
}
