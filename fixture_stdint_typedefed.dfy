/** tests/common/stdint_typedefed.c: the same struct with each member
    declared through a second typedef (`s8` for `int8_t`, and so on). A
    typedef chain is laid out as the type at its end, so the layout is that
    of the plain `<stdint.h>` version, holes included. */
module StdintTypedefed {
  import opened Common
  import opened Abi
  import opened Types
  import opened Resolver
  import opened Stepwise
  import opened Holes
  import opened Blocks
  import opened Stdint

  const StdintAliased: Type := Agg(Struct, Some(["stdint"]), TdFields1)

  const TdField1 := Member("field1", Typedef("s8", Typedef("int8_t", Scalar(SignedChar))))
  const TdField2 := Member("field2", Typedef("s16", Typedef("int16_t", Scalar(Short))))
  const TdField3 := Member("field3", Typedef("s32", Typedef("int32_t", Scalar(Int))))
  const TdField4 := Member("field4", Typedef("s64", Typedef("int64_t", Scalar(Long))))
  const TdField5 := Member("field5", Typedef("u8", Typedef("uint8_t", Scalar(UnsignedChar))))
  const TdField6 := Member("field6", Typedef("u16", Typedef("uint16_t", Scalar(UnsignedShort))))
  const TdField7 := Member("field7", Typedef("u32", Typedef("uint32_t", Scalar(UnsignedInt))))
  const TdField8 := Member("field8", Typedef("u64", Typedef("uint64_t", Scalar(UnsignedLong))))

  const TdFields8: seq<Field> := [TdField8]
  const TdFields7: seq<Field> := [TdField7] + TdFields8
  const TdFields6: seq<Field> := [TdField6] + TdFields7
  const TdFields5: seq<Field> := [TdField5] + TdFields6
  const TdFields4: seq<Field> := [TdField4] + TdFields5
  const TdFields3: seq<Field> := [TdField3] + TdFields4
  const TdFields2: seq<Field> := [TdField2] + TdFields3
  const TdFields1: seq<Field> := [TdField1] + TdFields2

  const TdEntry1 := Placed("field1", 1, 1, 0, None)
  const TdEntry2 := Placed("field2", 2, 2, 2, None)
  const TdEntry3 := Placed("field3", 4, 4, 4, None)
  const TdEntry4 := Placed("field4", 8, 8, 8, None)
  const TdEntry5 := Placed("field5", 1, 1, 16, None)
  const TdEntry6 := Placed("field6", 2, 2, 18, None)
  const TdEntry7 := Placed("field7", 4, 4, 20, None)
  const TdEntry8 := Placed("field8", 8, 8, 24, None)

  const TdEntries8: seq<Entry> := [TdEntry8]
  const TdEntries7: seq<Entry> := [TdEntry7] + TdEntries8
  const TdEntries6: seq<Entry> := [TdEntry6] + TdEntries7
  const TdEntries5: seq<Entry> := [TdEntry5] + TdEntries6
  const TdEntries4: seq<Entry> := [TdEntry4] + TdEntries5
  const TdEntries3: seq<Entry> := [TdEntry3] + TdEntries4
  const TdEntries2: seq<Entry> := [TdEntry2] + TdEntries3
  const TdEntries1: seq<Entry> := [TdEntry1] + TdEntries2

  // The cursor after each member.
  const TdAfter1 := Cursor(1, None, 1)
  const TdAfter2 := Cursor(4, None, 2)
  const TdAfter3 := Cursor(8, None, 4)
  const TdAfter4 := Cursor(16, None, 8)
  const TdAfter5 := Cursor(17, None, 8)
  const TdAfter6 := Cursor(20, None, 8)
  const TdAfter7 := Cursor(24, None, 8)
  const TdAfter8 := Cursor(32, None, 8)

  lemma TdPlace1() ensures Place(TdField1, Start) == Ok((TdEntry1, TdAfter1)) { PlaceNamed(TdField1, Start, Layout(1, 1, []), 0); }
  lemma TdPlace2() ensures Place(TdField2, TdAfter1) == Ok((TdEntry2, TdAfter2)) { PlaceNamed(TdField2, TdAfter1, Layout(2, 2, []), 2); }
  lemma TdPlace3() ensures Place(TdField3, TdAfter2) == Ok((TdEntry3, TdAfter3)) { PlaceNamed(TdField3, TdAfter2, Layout(4, 4, []), 4); }
  lemma TdPlace4() ensures Place(TdField4, TdAfter3) == Ok((TdEntry4, TdAfter4)) { PlaceNamed(TdField4, TdAfter3, Layout(8, 8, []), 8); }
  lemma TdPlace5() ensures Place(TdField5, TdAfter4) == Ok((TdEntry5, TdAfter5)) { PlaceNamed(TdField5, TdAfter4, Layout(1, 1, []), 16); }
  lemma TdPlace6() ensures Place(TdField6, TdAfter5) == Ok((TdEntry6, TdAfter6)) { PlaceNamed(TdField6, TdAfter5, Layout(2, 2, []), 18); }
  lemma TdPlace7() ensures Place(TdField7, TdAfter6) == Ok((TdEntry7, TdAfter7)) { PlaceNamed(TdField7, TdAfter6, Layout(4, 4, []), 20); }
  lemma TdPlace8() ensures Place(TdField8, TdAfter7) == Ok((TdEntry8, TdAfter8)) { PlaceNamed(TdField8, TdAfter7, Layout(8, 8, []), 24); }

  lemma TdFold()
    ensures Fold(TdFields1, Start) == Ok((TdEntries1, TdAfter8))
  {
    TdPlace8(); FoldOne(TdField8, TdAfter7, TdEntry8, TdAfter8);
    TdPlace7(); FoldCons(TdField7, TdFields8, TdAfter6, TdEntry7, TdAfter7, TdEntries8, TdAfter8);
    TdPlace6(); FoldCons(TdField6, TdFields7, TdAfter5, TdEntry6, TdAfter6, TdEntries7, TdAfter8);
    TdPlace5(); FoldCons(TdField5, TdFields6, TdAfter4, TdEntry5, TdAfter5, TdEntries6, TdAfter8);
    TdPlace4(); FoldCons(TdField4, TdFields5, TdAfter3, TdEntry4, TdAfter4, TdEntries5, TdAfter8);
    TdPlace3(); FoldCons(TdField3, TdFields4, TdAfter2, TdEntry3, TdAfter3, TdEntries4, TdAfter8);
    TdPlace2(); FoldCons(TdField2, TdFields3, TdAfter1, TdEntry2, TdAfter2, TdEntries3, TdAfter8);
    TdPlace1(); FoldCons(TdField1, TdFields2, Start, TdEntry1, TdAfter1, TdEntries2, TdAfter8);
  }

  lemma TdEnd()
    ensures Close(TdAfter8).align == 8 && AlignUp(Close(TdAfter8).bytes, 8) == 32
  {
  }

  lemma TdStruct()
    ensures StructLayout(TdFields1) == Ok(Layout(32, 8, TdEntries1))
  {
    TdFold();
    TdEnd();
    StructFromFold(TdFields1, TdEntries1, TdAfter8, 32, 8);
  }

  /** The layout of the aliased `struct stdint`: offsets 0, 2, 4, 8, 16, 18, 20
      and 24, and 32 bytes. */
  lemma TdLayout()
    ensures LayoutOf(StdintAliased) == Ok(Layout(32, 8, TdEntries1))
  {
    TdStruct();
    AggOf(Struct, Some(["stdint"]), TdFields1, Layout(32, 8, TdEntries1));
  }

  lemma TdGaps()
    ensures Gaps(TdEntries1, 0, 0, 256) == [Hole([1], 1, 0), Hole([5], 1, 0)]
  {
    TdGapsFrom5();
    assert Gaps(TdEntries4, 3, 64, 256) == [Hole([5], 1, 0)];
    assert Gaps(TdEntries3, 2, 32, 256) == [Hole([5], 1, 0)];
    assert Gaps(TdEntries2, 1, 8, 256) == [Hole([1], 1, 0), Hole([5], 1, 0)];
  }

  lemma TdGapsFrom5()
    ensures Gaps(TdEntries5, 4, 128, 256) == [Hole([5], 1, 0)]
  {
    assert Gaps(TdEntries8, 7, 192, 256) == [];
    assert Gaps(TdEntries7, 6, 160, 256) == [];
    assert Gaps(TdEntries6, 5, 136, 256) == [Hole([5], 1, 0)];
  }

  lemma TdFlat()
    ensures Inner(TdEntries1, 0) == []
  {
    TdFlatFrom5();
    assert Inner(TdEntries4, 3) == [];
    assert Inner(TdEntries3, 2) == [];
    assert Inner(TdEntries2, 1) == [];
  }

  lemma TdFlatFrom5()
    ensures Inner(TdEntries5, 4) == []
  {
    assert Inner(TdEntries8, 7) == [];
    assert Inner(TdEntries7, 6) == [];
    assert Inner(TdEntries6, 5) == [];
  }

  /** The two 1-byte holes the report prints, before `field2` and before
      `field6`. */
  lemma TdHoles()
    ensures LayoutOf(StdintAliased).Ok? && HolesOf(StdintAliased) == [Hole([1], 1, 0), Hole([5], 1, 0)]
  {
    TdLayout();
    TdGaps();
    TdFlat();
    assert Gaps(TdEntries1, 0, 0, 256) + Inner(TdEntries1, 0) == [Hole([1], 1, 0), Hole([5], 1, 0)];
  }

  lemma TdLeaves()
    ensures ReachedAll(TdFields1) == {}
  {
    TdLeavesFrom5();
    assert ReachedAll(TdFields4) == {};
    assert ReachedAll(TdFields3) == {};
    assert ReachedAll(TdFields2) == {};
  }

  lemma TdLeavesFrom5()
    ensures ReachedAll(TdFields5) == {}
  {
    assert ReachedAll(TdFields8) == {};
    assert ReachedAll(TdFields7) == {};
    assert ReachedAll(TdFields6) == {};
  }

  /** The aliased struct is reported as one block. */
  lemma TdBlocks()
    ensures Reached(StdintAliased, None) == {Block(Struct, "stdint", TdFields1)}
  {
    TdLeaves();
  }

  /** Declaring the members through further typedefs changes neither the
      offsets nor the size: both versions have one layout. */
  lemma TdSameAsStdint()
    ensures LayoutOf(StdintAliased) == LayoutOf(StdintStruct)
  {
    TdLayout();
    SdLayout();
  }
}
