/** The per-title hardware table (`gbaover`) and its first-match lookup. */
module Profiles {
  import opened Common

  /** One `ini_t` row without its `romtitle` column, which nothing reads. The numeric
      columns keep the C `int` values; `useBios` is carried but nothing reads it either. */
  datatype Profile = Profile(
    romId: string,
    flashSize: int,
    saveType: int,
    rtcEnabled: int,
    mirroringEnabled: int,
    useBios: int)

  /** The array has 256 slots; the ones after the listed rows are zero-filled. */
  const TableSlots: nat := 256

  /** A zero-filled slot: empty id, every number 0. */
  const Padding: Profile := Profile("", 0, 0, 0, 0, 0)

  /** libretro/libretro.cpp lines 236-249. */
  const RowsPart1: seq<Profile> := [
      Profile("BLFE", 0, 1, 0, 0, 0),
      Profile("BUFE", 0, 1, 0, 0, 0),
      Profile("U3IP", 0, 0, 1, 0, 0),
      Profile("U3IE", 0, 0, 1, 0, 0),
      Profile("U32E", 0, 0, 1, 0, 0),
      Profile("U32P", 0, 0, 1, 0, 0),
      Profile("U3IJ", 0, 0, 1, 0, 0),
      Profile("PSAJ", 131072, 0, 0, 0, 0),
      Profile("FBME", 0, 1, 0, 1, 0),
      Profile("FADE", 0, 1, 0, 1, 0),
      Profile("FDKE", 0, 1, 0, 1, 0),
      Profile("FDME", 0, 1, 0, 1, 0),
      Profile("FEBE", 0, 1, 0, 1, 0),
      Profile("FZLE", 0, 1, 0, 1, 0)
    ]

  /** libretro/libretro.cpp lines 250-263. */
  const RowsPart2: seq<Profile> := [
      Profile("FICE", 0, 1, 0, 1, 0),
      Profile("FMRE", 0, 1, 0, 1, 0),
      Profile("FP7E", 0, 1, 0, 1, 0),
      Profile("FSME", 0, 1, 0, 1, 0),
      Profile("FXVE", 0, 1, 0, 1, 0),
      Profile("FLBE", 0, 1, 0, 1, 0),
      Profile("BDKJ", 0, 1, 0, 0, 0),
      Profile("PSAE", 131072, 0, 0, 0, 0),
      Profile("BT4E", 0, 1, 0, 0, 0),
      Profile("BG3E", 0, 1, 0, 0, 0),
      Profile("BDBP", 0, 1, 0, 0, 0),
      Profile("BDBE", 0, 1, 0, 0, 0),
      Profile("ALFJ", 0, 1, 0, 0, 0),
      Profile("ALFP", 0, 1, 0, 0, 0)
    ]

  /** libretro/libretro.cpp lines 264-277. */
  const RowsPart3: seq<Profile> := [
      Profile("ALFE", 0, 1, 0, 0, 0),
      Profile("ALGP", 0, 1, 0, 0, 0),
      Profile("ALGE", 131072, 1, 0, 0, 0),
      Profile("BFTJ", 131072, 0, 0, 0, 0),
      Profile("FMBJ", 0, 1, 0, 1, 0),
      Profile("FCLJ", 0, 1, 0, 1, 0),
      Profile("FBFJ", 0, 1, 0, 1, 0),
      Profile("FWCJ", 0, 1, 0, 1, 0),
      Profile("FDMJ", 0, 1, 0, 1, 0),
      Profile("FTBJ", 0, 1, 0, 1, 0),
      Profile("FTBJ", 0, 1, 0, 1, 0),
      Profile("FMKJ", 0, 1, 0, 1, 0),
      Profile("FTWJ", 0, 1, 0, 1, 0),
      Profile("FGGJ", 0, 1, 0, 1, 0)
    ]

  /** libretro/libretro.cpp lines 278-291. */
  const RowsPart4: seq<Profile> := [
      Profile("FM2J", 0, 1, 0, 1, 0),
      Profile("FNMJ", 0, 1, 0, 1, 0),
      Profile("FMRJ", 0, 1, 0, 1, 0),
      Profile("FPTJ", 0, 1, 0, 1, 0),
      Profile("FLBJ", 0, 1, 0, 1, 0),
      Profile("FFMJ", 0, 1, 0, 1, 0),
      Profile("FTKJ", 0, 1, 0, 1, 0),
      Profile("FTUJ", 0, 1, 0, 1, 0),
      Profile("FADJ", 0, 1, 0, 1, 0),
      Profile("FSDJ", 0, 1, 0, 1, 0),
      Profile("BGWJ", 131072, 0, 0, 0, 0),
      Profile("AGFE", 65536, 0, 0, 1, 0),
      Profile("AGSE", 65536, 0, 0, 1, 0),
      Profile("AI2P", 0, 5, 0, 0, 0)
    ]

  /** libretro/libretro.cpp lines 292-305. */
  const RowsPart5: seq<Profile> := [
      Profile("AI2E", 0, 5, 0, 0, 0),
      Profile("KHPJ", 0, 4, 0, 0, 0),
      Profile("BM5P", 0, 3, 0, 0, 0),
      Profile("BPEJ", 131072, 0, 1, 0, 0),
      Profile("BPRJ", 131072, 0, 0, 0, 0),
      Profile("BPGJ", 131072, 0, 0, 0, 0),
      Profile("AXVJ", 131072, 0, 1, 0, 0),
      Profile("AXPJ", 131072, 0, 1, 0, 0),
      Profile("B24E", 131072, 0, 0, 0, 0),
      Profile("B24P", 131072, 0, 0, 0, 0),
      Profile("BPGD", 131072, 0, 0, 0, 0),
      Profile("AXVS", 131072, 0, 1, 0, 0),
      Profile("BPES", 131072, 0, 1, 0, 0),
      Profile("BPRS", 131072, 1, 0, 0, 0)
    ]

  /** libretro/libretro.cpp lines 306-319. */
  const RowsPart6: seq<Profile> := [
      Profile("BPGS", 131072, 1, 0, 0, 0),
      Profile("AXPS", 131072, 0, 1, 0, 0),
      Profile("BPEE", 131072, 0, 1, 0, 0),
      Profile("BPRD", 131072, 0, 0, 0, 0),
      Profile("BPRE", 131072, 0, 0, 0, 0),
      Profile("BPGE", 131072, 0, 0, 0, 0),
      Profile("AXVD", 131072, 0, 1, 0, 0),
      Profile("AXVE", 131072, 0, 1, 0, 0),
      Profile("AXPE", 131072, 0, 1, 0, 0),
      Profile("AXPD", 131072, 0, 1, 0, 0),
      Profile("BPED", 131072, 0, 1, 0, 0),
      Profile("BPEF", 131072, 0, 1, 0, 0),
      Profile("BPRF", 131072, 0, 0, 0, 0),
      Profile("AXVF", 131072, 0, 1, 0, 0)
    ]

  /** libretro/libretro.cpp lines 320-333. */
  const RowsPart7: seq<Profile> := [
      Profile("AXPF", 131072, 0, 1, 0, 0),
      Profile("BPGF", 131072, 0, 0, 0, 0),
      Profile("AXVI", 131072, 0, 1, 0, 0),
      Profile("BPRI", 131072, 0, 0, 0, 0),
      Profile("BPEI", 131072, 0, 1, 0, 0),
      Profile("BPGI", 131072, 0, 0, 0, 0),
      Profile("AXPI", 131072, 0, 1, 0, 0),
      Profile("BR4J", 0, 0, 1, 0, 0),
      Profile("AROP", 0, 1, 0, 0, 0),
      Profile("AR8e", 0, 1, 0, 0, 0),
      Profile("BKAJ", 131072, 0, 1, 0, 0),
      Profile("U33J", 0, 1, 1, 0, 0),
      Profile("AX4J", 131072, 0, 0, 0, 0),
      Profile("AX4P", 131072, 0, 0, 0, 0)
    ]

  /** libretro/libretro.cpp lines 334-341. */
  const RowsPart8: seq<Profile> := [
      Profile("AX4E", 131072, 0, 0, 0, 0),
      Profile("A2YE", 0, 5, 0, 0, 0),
      Profile("KYGP", 0, 4, 0, 0, 0),
      Profile("KYGJ", 0, 4, 0, 0, 0),
      Profile("KYGE", 0, 1, 0, 0, 0),
      Profile("BYGE", 0, 2, 0, 0, 1),
      Profile("BY6P", 0, 2, 0, 0, 0),
      Profile("U32J", 0, 0, 1, 0, 0)
    ]

  /** The listed rows of `gbaover`, in source order (written in parts of 14 so that
      each literal stays small enough for the verifier to index). */
  const Rows: seq<Profile> := RowsPart1 + RowsPart2 + RowsPart3 + RowsPart4 + RowsPart5 + RowsPart6 + RowsPart7 + RowsPart8

  /** Slot `i` of the 256-entry array. */
  function SlotAt(i: nat): Profile
    requires i < TableSlots
  {
    if i < |Rows| then Rows[i] else Padding
  }

  /** The first slot at or after `from` whose id equals `id` as a C string. */
  function FindFrom(id: string, from: nat): (r: Option<nat>)
    requires from <= TableSlots
    ensures r.Some? ==> from <= r.value < TableSlots && SlotAt(r.value).romId == id
    ensures r.Some? ==> forall j :: from <= j < r.value ==> SlotAt(j).romId != id
    ensures r.None? <==> forall j :: from <= j < TableSlots ==> SlotAt(j).romId != id
    decreases TableSlots - from
  {
    if from == TableSlots then None
    else if SlotAt(from).romId == id then Some(from)
    else FindFrom(id, from + 1)
  }

  /** The lookup loop of `load_image_preferences`: the first matching slot, if any. */
  function Lookup(id: string): Option<nat>
  {
    FindFrom(id, 0)
  }

  /** Every listed row has a 4-character id without NUL, a flash size of 0, 64 KiB or
      128 KiB, a save type 0..5 and 0/1 flags. */
  predicate WellFormedRow(p: Profile) {
    && |p.romId| == 4
    && NUL !in p.romId
    && p.flashSize in {0, 65536, 131072}
    && 0 <= p.saveType <= 5
    && p.rtcEnabled in {0, 1}
    && p.mirroringEnabled in {0, 1}
    && p.useBios in {0, 1}
  }

  predicate PartWellFormed(part: seq<Profile>) {
    forall i :: 0 <= i < |part| ==> WellFormedRow(part[i])
  }

  lemma Part1WellFormed() ensures |RowsPart1| == 14 && PartWellFormed(RowsPart1) {}
  lemma Part2WellFormed() ensures |RowsPart2| == 14 && PartWellFormed(RowsPart2) {}
  lemma Part3WellFormed() ensures |RowsPart3| == 14 && PartWellFormed(RowsPart3) {}
  lemma Part4WellFormed() ensures |RowsPart4| == 14 && PartWellFormed(RowsPart4) {}
  lemma Part5WellFormed() ensures |RowsPart5| == 14 && PartWellFormed(RowsPart5) {}
  lemma Part6WellFormed() ensures |RowsPart6| == 14 && PartWellFormed(RowsPart6) {}
  lemma Part7WellFormed() ensures |RowsPart7| == 14 && PartWellFormed(RowsPart7) {}
  lemma Part8WellFormed() ensures |RowsPart8| == 8 && PartWellFormed(RowsPart8) {}

  lemma RowsWellFormed()
    ensures |Rows| == 106
    ensures forall i :: 0 <= i < |Rows| ==> WellFormedRow(Rows[i])
  {
    Part1WellFormed();
    Part2WellFormed();
    Part3WellFormed();
    Part4WellFormed();
    Part5WellFormed();
    Part6WellFormed();
    Part7WellFormed();
    Part8WellFormed();
    forall i | 0 <= i < |Rows|
      ensures WellFormedRow(Rows[i])
    {
      if i < 14 {
        assert Rows[i] == RowsPart1[i];
      } else if i < 28 {
        assert Rows[i] == RowsPart2[i - 14];
      } else if i < 42 {
        assert Rows[i] == RowsPart3[i - 28];
      } else if i < 56 {
        assert Rows[i] == RowsPart4[i - 42];
      } else if i < 70 {
        assert Rows[i] == RowsPart5[i - 56];
      } else if i < 84 {
        assert Rows[i] == RowsPart6[i - 70];
      } else if i < 98 {
        assert Rows[i] == RowsPart7[i - 84];
      } else {
        assert Rows[i] == RowsPart8[i - 98];
      }
    }
  }

  /** A matching slot with no match before it is what the lookup returns. */
  lemma FirstMatchIsFound(id: string, k: nat)
    requires k < TableSlots && SlotAt(k).romId == id
    requires forall j :: 0 <= j < k ==> SlotAt(j).romId != id
    ensures Lookup(id) == Some(k)
  {
  }

  /** The slot index `i` refers to, written as an index into the part that holds it. */
  lemma SlotInPart(i: nat)
    requires i < |Rows|
    ensures i < 14 ==> SlotAt(i) == RowsPart1[i]
    ensures 14 <= i < 28 ==> SlotAt(i) == RowsPart2[i - 14]
    ensures 28 <= i < 42 ==> SlotAt(i) == RowsPart3[i - 28]
    ensures 42 <= i < 56 ==> SlotAt(i) == RowsPart4[i - 42]
    ensures 56 <= i < 70 ==> SlotAt(i) == RowsPart5[i - 56]
    ensures 70 <= i < 84 ==> SlotAt(i) == RowsPart6[i - 70]
    ensures 84 <= i < 98 ==> SlotAt(i) == RowsPart7[i - 84]
    ensures 98 <= i ==> SlotAt(i) == RowsPart8[i - 98]
  {
    Part1WellFormed();
    Part2WellFormed();
    Part3WellFormed();
    Part4WellFormed();
    Part5WellFormed();
    Part6WellFormed();
    Part7WellFormed();
    Part8WellFormed();
  }

  /** Duplicate ids resolve to the earlier row: Famicom Mini 16 (slot 37) and 17 (slot 38)
      both carry "FTBJ", and the lookup stops at 37.
      Here and below, a literal id is a parameter fixed by `requires` rather than written
      into the contract: that keeps the verifier from unfolding the lookup on a literal. */
  lemma DuplicateResolvesToFirst(id: string)
    requires id == "FTBJ"
    ensures SlotAt(37).romId == id && SlotAt(38).romId == id
    ensures Lookup(id) == Some(37)
  {
    assert forall j :: 0 <= j < 14 ==> RowsPart1[j].romId != "FTBJ";
    assert forall j :: 0 <= j < 14 ==> RowsPart2[j].romId != "FTBJ";
    assert forall j :: 0 <= j < 9 ==> RowsPart3[j].romId != "FTBJ";
    forall j | 0 <= j < 37
      ensures SlotAt(j).romId != id
    {
      SlotInPart(j);
    }
    SlotInPart(37);
    SlotInPart(38);
    FirstMatchIsFound(id, 37);
  }

  /** Pokemon Ruby (USA, Europe) sits in slot 77 with no earlier "AXVE". */
  lemma RubyFoundAt77(id: string)
    requires id == "AXVE"
    ensures Lookup(id) == Some(77)
    ensures SlotAt(77) == Profile("AXVE", 131072, 0, 1, 0, 0)
  {
    AbsentBelow56(id);
    assert forall j :: 0 <= j < 14 ==> RowsPart5[j].romId != "AXVE";
    assert forall j :: 0 <= j < 7 ==> RowsPart6[j].romId != "AXVE";
    forall j | 56 <= j < 77
      ensures SlotAt(j).romId != id
    {
      SlotInPart(j);
    }
    SlotInPart(77);
    FirstMatchIsFound(id, 77);
  }

  /** Ids compare case-sensitively: "AR8e" finds the Rocky (USA) row, "AR8E" finds nothing. */
  lemma IdsAreCaseSensitive(lower: string, upper: string)
    requires lower == "AR8e" && upper == "AR8E"
    ensures Lookup(lower) == Some(93)
    ensures Lookup(upper) == None
  {
    LowerCaseIdFound(lower);
    UpperCaseIdMissing(upper);
  }

  /** None of these ids occurs in the first four parts (slots 0 .. 55). */
  lemma AbsentBelow56(id: string)
    requires id == "AR8e" || id == "AR8E" || id == "AXVE"
    ensures forall j :: 0 <= j < 56 ==> SlotAt(j).romId != id
  {
    assert forall j :: 0 <= j < 14 ==> RowsPart1[j].romId != id;
    assert forall j :: 0 <= j < 14 ==> RowsPart2[j].romId != id;
    assert forall j :: 0 <= j < 14 ==> RowsPart3[j].romId != id;
    assert forall j :: 0 <= j < 14 ==> RowsPart4[j].romId != id;
    forall j | 0 <= j < 56
      ensures SlotAt(j).romId != id
    {
      SlotInPart(j);
    }
  }

  lemma LowerCaseIdFound(lower: string)
    requires lower == "AR8e"
    ensures Lookup(lower) == Some(93)
  {
    AbsentBelow56(lower);
    assert forall j :: 0 <= j < 14 ==> RowsPart5[j].romId != "AR8e";
    assert forall j :: 0 <= j < 14 ==> RowsPart6[j].romId != "AR8e";
    assert forall j :: 0 <= j < 9 ==> RowsPart7[j].romId != "AR8e";
    forall j | 56 <= j < 93
      ensures SlotAt(j).romId != lower
    {
      SlotInPart(j);
    }
    SlotInPart(93);
    FirstMatchIsFound(lower, 93);
  }

  lemma UpperCaseIdMissing(upper: string)
    requires upper == "AR8E"
    ensures Lookup(upper) == None
  {
    AbsentBelow56(upper);
    assert forall j :: 0 <= j < 14 ==> RowsPart5[j].romId != "AR8E";
    assert forall j :: 0 <= j < 14 ==> RowsPart6[j].romId != "AR8E";
    assert forall j :: 0 <= j < 14 ==> RowsPart7[j].romId != "AR8E";
    assert forall j :: 0 <= j < 8 ==> RowsPart8[j].romId != "AR8E";
    forall j | 56 <= j < TableSlots
      ensures SlotAt(j).romId != upper
    {
      if j < |Rows| { SlotInPart(j); }
    }
  }

  /** The empty id, which a NUL first header byte produces, skips every listed row
      and matches the first zero-filled slot. */
  lemma EmptyIdMatchesPadding(id: string)
    requires id == ""
    ensures Lookup(id) == Some(|Rows|)
    ensures SlotAt(|Rows|) == Padding
  {
    RowsWellFormed();
    FirstMatchIsFound(id, |Rows|);
  }

  /** Every slot, listed or padding, stores a flash size of 0, 64 KiB or 128 KiB. */
  lemma SlotFlashSizes(i: nat)
    requires i < TableSlots
    ensures SlotAt(i).flashSize in {0, 65536, 131072}
  {
    if i < |Rows| { RowsWellFormed(); }
  }
}
