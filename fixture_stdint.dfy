/** tests/common/stdint.c: a struct with one member of each `<stdint.h>`
    exact-width integer type. Each typedef is laid out as the integer kind it
    names on LP64, so every member sits at a multiple of its own size; one
    byte is left out before `field2` and one before `field6`. */
module Stdint {
  import opened Common
  import opened Abi
  import opened Types
  import opened Resolver
  import opened Stepwise
  import opened Holes
  import opened Blocks

  const StdintStruct: Type := Agg(Struct, Some(["stdint"]), SdFields1)

  const SdField1 := Member("field1", Typedef("int8_t", Scalar(SignedChar)))
  const SdField2 := Member("field2", Typedef("int16_t", Scalar(Short)))
  const SdField3 := Member("field3", Typedef("int32_t", Scalar(Int)))
  const SdField4 := Member("field4", Typedef("int64_t", Scalar(Long)))
  const SdField5 := Member("field5", Typedef("uint8_t", Scalar(UnsignedChar)))
  const SdField6 := Member("field6", Typedef("uint16_t", Scalar(UnsignedShort)))
  const SdField7 := Member("field7", Typedef("uint32_t", Scalar(UnsignedInt)))
  const SdField8 := Member("field8", Typedef("uint64_t", Scalar(UnsignedLong)))

  const SdFields8: seq<Field> := [SdField8]
  const SdFields7: seq<Field> := [SdField7] + SdFields8
  const SdFields6: seq<Field> := [SdField6] + SdFields7
  const SdFields5: seq<Field> := [SdField5] + SdFields6
  const SdFields4: seq<Field> := [SdField4] + SdFields5
  const SdFields3: seq<Field> := [SdField3] + SdFields4
  const SdFields2: seq<Field> := [SdField2] + SdFields3
  const SdFields1: seq<Field> := [SdField1] + SdFields2

  const SdEntry1 := Placed("field1", 1, 1, 0, None)
  const SdEntry2 := Placed("field2", 2, 2, 2, None)
  const SdEntry3 := Placed("field3", 4, 4, 4, None)
  const SdEntry4 := Placed("field4", 8, 8, 8, None)
  const SdEntry5 := Placed("field5", 1, 1, 16, None)
  const SdEntry6 := Placed("field6", 2, 2, 18, None)
  const SdEntry7 := Placed("field7", 4, 4, 20, None)
  const SdEntry8 := Placed("field8", 8, 8, 24, None)

  const SdEntries8: seq<Entry> := [SdEntry8]
  const SdEntries7: seq<Entry> := [SdEntry7] + SdEntries8
  const SdEntries6: seq<Entry> := [SdEntry6] + SdEntries7
  const SdEntries5: seq<Entry> := [SdEntry5] + SdEntries6
  const SdEntries4: seq<Entry> := [SdEntry4] + SdEntries5
  const SdEntries3: seq<Entry> := [SdEntry3] + SdEntries4
  const SdEntries2: seq<Entry> := [SdEntry2] + SdEntries3
  const SdEntries1: seq<Entry> := [SdEntry1] + SdEntries2

  // The cursor after each member.
  const SdAfter1 := Cursor(1, None, 1)
  const SdAfter2 := Cursor(4, None, 2)
  const SdAfter3 := Cursor(8, None, 4)
  const SdAfter4 := Cursor(16, None, 8)
  const SdAfter5 := Cursor(17, None, 8)
  const SdAfter6 := Cursor(20, None, 8)
  const SdAfter7 := Cursor(24, None, 8)
  const SdAfter8 := Cursor(32, None, 8)

  lemma SdPlace1() ensures Place(SdField1, Start) == Ok((SdEntry1, SdAfter1)) { PlaceNamed(SdField1, Start, Layout(1, 1, []), 0); }
  lemma SdPlace2() ensures Place(SdField2, SdAfter1) == Ok((SdEntry2, SdAfter2)) { PlaceNamed(SdField2, SdAfter1, Layout(2, 2, []), 2); }
  lemma SdPlace3() ensures Place(SdField3, SdAfter2) == Ok((SdEntry3, SdAfter3)) { PlaceNamed(SdField3, SdAfter2, Layout(4, 4, []), 4); }
  lemma SdPlace4() ensures Place(SdField4, SdAfter3) == Ok((SdEntry4, SdAfter4)) { PlaceNamed(SdField4, SdAfter3, Layout(8, 8, []), 8); }
  lemma SdPlace5() ensures Place(SdField5, SdAfter4) == Ok((SdEntry5, SdAfter5)) { PlaceNamed(SdField5, SdAfter4, Layout(1, 1, []), 16); }
  lemma SdPlace6() ensures Place(SdField6, SdAfter5) == Ok((SdEntry6, SdAfter6)) { PlaceNamed(SdField6, SdAfter5, Layout(2, 2, []), 18); }
  lemma SdPlace7() ensures Place(SdField7, SdAfter6) == Ok((SdEntry7, SdAfter7)) { PlaceNamed(SdField7, SdAfter6, Layout(4, 4, []), 20); }
  lemma SdPlace8() ensures Place(SdField8, SdAfter7) == Ok((SdEntry8, SdAfter8)) { PlaceNamed(SdField8, SdAfter7, Layout(8, 8, []), 24); }

  lemma SdFold()
    ensures Fold(SdFields1, Start) == Ok((SdEntries1, SdAfter8))
  {
    SdPlace8(); FoldOne(SdField8, SdAfter7, SdEntry8, SdAfter8);
    SdPlace7(); FoldCons(SdField7, SdFields8, SdAfter6, SdEntry7, SdAfter7, SdEntries8, SdAfter8);
    SdPlace6(); FoldCons(SdField6, SdFields7, SdAfter5, SdEntry6, SdAfter6, SdEntries7, SdAfter8);
    SdPlace5(); FoldCons(SdField5, SdFields6, SdAfter4, SdEntry5, SdAfter5, SdEntries6, SdAfter8);
    SdPlace4(); FoldCons(SdField4, SdFields5, SdAfter3, SdEntry4, SdAfter4, SdEntries5, SdAfter8);
    SdPlace3(); FoldCons(SdField3, SdFields4, SdAfter2, SdEntry3, SdAfter3, SdEntries4, SdAfter8);
    SdPlace2(); FoldCons(SdField2, SdFields3, SdAfter1, SdEntry2, SdAfter2, SdEntries3, SdAfter8);
    SdPlace1(); FoldCons(SdField1, SdFields2, Start, SdEntry1, SdAfter1, SdEntries2, SdAfter8);
  }

  lemma SdEnd()
    ensures Close(SdAfter8).align == 8 && AlignUp(Close(SdAfter8).bytes, 8) == 32
  {
  }

  lemma SdStruct()
    ensures StructLayout(SdFields1) == Ok(Layout(32, 8, SdEntries1))
  {
    SdFold();
    SdEnd();
    StructFromFold(SdFields1, SdEntries1, SdAfter8, 32, 8);
  }

  /** The layout of `struct stdint`: offsets 0, 2, 4, 8, 16, 18, 20 and 24, and
      32 bytes with alignment 8. */
  lemma SdLayout()
    ensures LayoutOf(StdintStruct) == Ok(Layout(32, 8, SdEntries1))
  {
    SdStruct();
    AggOf(Struct, Some(["stdint"]), SdFields1, Layout(32, 8, SdEntries1));
  }

  lemma SdGaps()
    ensures Gaps(SdEntries1, 0, 0, 256) == [Hole([1], 1, 0), Hole([5], 1, 0)]
  {
    SdGapsFrom5();
    assert Gaps(SdEntries4, 3, 64, 256) == [Hole([5], 1, 0)];
    assert Gaps(SdEntries3, 2, 32, 256) == [Hole([5], 1, 0)];
    assert Gaps(SdEntries2, 1, 8, 256) == [Hole([1], 1, 0), Hole([5], 1, 0)];
  }

  lemma SdGapsFrom5()
    ensures Gaps(SdEntries5, 4, 128, 256) == [Hole([5], 1, 0)]
  {
    assert Gaps(SdEntries8, 7, 192, 256) == [];
    assert Gaps(SdEntries7, 6, 160, 256) == [];
    assert Gaps(SdEntries6, 5, 136, 256) == [Hole([5], 1, 0)];
  }

  lemma SdFlat()
    ensures Inner(SdEntries1, 0) == []
  {
    SdFlatFrom5();
    assert Inner(SdEntries4, 3) == [];
    assert Inner(SdEntries3, 2) == [];
    assert Inner(SdEntries2, 1) == [];
  }

  lemma SdFlatFrom5()
    ensures Inner(SdEntries5, 4) == []
  {
    assert Inner(SdEntries8, 7) == [];
    assert Inner(SdEntries7, 6) == [];
    assert Inner(SdEntries6, 5) == [];
  }

  /** The holes of `struct stdint`: 1 byte before `field2` and 1 byte before
      `field6`. */
  lemma SdHoles()
    ensures LayoutOf(StdintStruct).Ok? && HolesOf(StdintStruct) == [Hole([1], 1, 0), Hole([5], 1, 0)]
  {
    SdLayout();
    SdGaps();
    SdFlat();
    assert Gaps(SdEntries1, 0, 0, 256) + Inner(SdEntries1, 0) == [Hole([1], 1, 0), Hole([5], 1, 0)];
  }

  lemma SdLeaves()
    ensures ReachedAll(SdFields1) == {}
  {
    SdLeavesFrom5();
    assert ReachedAll(SdFields4) == {};
    assert ReachedAll(SdFields3) == {};
    assert ReachedAll(SdFields2) == {};
  }

  lemma SdLeavesFrom5()
    ensures ReachedAll(SdFields5) == {}
  {
    assert ReachedAll(SdFields8) == {};
    assert ReachedAll(SdFields7) == {};
    assert ReachedAll(SdFields6) == {};
  }

  /** `struct stdint` is reported as one block. */
  lemma SdBlocks()
    ensures Reached(StdintStruct, None) == {Block(Struct, "stdint", SdFields1)}
  {
    SdLeaves();
  }

  /** Each member's type is the `<stdint.h>` typedef its declaration names. */
  lemma SdTypes()
    ensures
      SdField1.ty == FixedWidth(8, true) &&
      SdField2.ty == FixedWidth(16, true) &&
      SdField3.ty == FixedWidth(32, true) &&
      SdField4.ty == FixedWidth(64, true) &&
      SdField5.ty == FixedWidth(8, false) &&
      SdField6.ty == FixedWidth(16, false) &&
      SdField7.ty == FixedWidth(32, false) &&
      SdField8.ty == FixedWidth(64, false)
  {
  }
}
