/** tests/common/bitfields.c: three structs made only of `int` bit-fields.
    Each run of bit-fields packs into one 4-byte `int` storage unit, every
    bit-field reports that unit's size and offset 0 with its bit position,
    and the unused bits of the unit are a hole counted in bytes and bits.

    Each struct is laid out member by member: `<P>Place<k>` places member k
    at the cursor the previous one left, `<P>Fold` chains the placements,
    and `<P>Layout` states the whole layout. */
module Bitfields {
  import opened Common
  import opened Abi
  import opened Types
  import opened Resolver
  import opened Stepwise
  import opened Holes
  import opened Blocks

  // struct s

  const S: Type := Agg(Struct, Some(["s"]), SFields1)

  const SField1 := BitField("field1", Scalar(Int), 1)
  const SField2 := BitField("field2", Scalar(Int), 2)
  const SField3 := BitField("field3", Scalar(Int), 3)
  const SField4 := BitField("field4", Scalar(Int), 4)
  const SField5 := BitField("field5", Scalar(Int), 5)
  const SField6 := BitField("field6", Scalar(Int), 6)
  const SField7 := BitField("field7", Scalar(Int), 7)

  const SFields7: seq<Field> := [SField7]
  const SFields6: seq<Field> := [SField6] + SFields7
  const SFields5: seq<Field> := [SField5] + SFields6
  const SFields4: seq<Field> := [SField4] + SFields5
  const SFields3: seq<Field> := [SField3] + SFields4
  const SFields2: seq<Field> := [SField2] + SFields3
  const SFields1: seq<Field> := [SField1] + SFields2

  const SEntry1 := Placed("field1", 4, 4, 0, Some(BitSlot(0, 1)))
  const SEntry2 := Placed("field2", 4, 4, 0, Some(BitSlot(1, 2)))
  const SEntry3 := Placed("field3", 4, 4, 0, Some(BitSlot(3, 3)))
  const SEntry4 := Placed("field4", 4, 4, 0, Some(BitSlot(6, 4)))
  const SEntry5 := Placed("field5", 4, 4, 0, Some(BitSlot(10, 5)))
  const SEntry6 := Placed("field6", 4, 4, 0, Some(BitSlot(15, 6)))
  const SEntry7 := Placed("field7", 4, 4, 0, Some(BitSlot(21, 7)))

  const SEntries7: seq<Entry> := [SEntry7]
  const SEntries6: seq<Entry> := [SEntry6] + SEntries7
  const SEntries5: seq<Entry> := [SEntry5] + SEntries6
  const SEntries4: seq<Entry> := [SEntry4] + SEntries5
  const SEntries3: seq<Entry> := [SEntry3] + SEntries4
  const SEntries2: seq<Entry> := [SEntry2] + SEntries3
  const SEntries1: seq<Entry> := [SEntry1] + SEntries2

  // The cursor after each member.
  const SAfter1 := Cursor(0, Some(Run(Int, 1)), 4)
  const SAfter2 := Cursor(0, Some(Run(Int, 3)), 4)
  const SAfter3 := Cursor(0, Some(Run(Int, 6)), 4)
  const SAfter4 := Cursor(0, Some(Run(Int, 10)), 4)
  const SAfter5 := Cursor(0, Some(Run(Int, 15)), 4)
  const SAfter6 := Cursor(0, Some(Run(Int, 21)), 4)
  const SAfter7 := Cursor(0, Some(Run(Int, 28)), 4)

  lemma SPlace1() ensures Place(SField1, Start) == Ok((SEntry1, SAfter1)) {}
  lemma SPlace2() ensures Place(SField2, SAfter1) == Ok((SEntry2, SAfter2)) {}
  lemma SPlace3() ensures Place(SField3, SAfter2) == Ok((SEntry3, SAfter3)) {}
  lemma SPlace4() ensures Place(SField4, SAfter3) == Ok((SEntry4, SAfter4)) {}
  lemma SPlace5() ensures Place(SField5, SAfter4) == Ok((SEntry5, SAfter5)) {}
  lemma SPlace6() ensures Place(SField6, SAfter5) == Ok((SEntry6, SAfter6)) {}
  lemma SPlace7() ensures Place(SField7, SAfter6) == Ok((SEntry7, SAfter7)) {}

  lemma SFold()
    ensures Fold(SFields1, Start) == Ok((SEntries1, SAfter7))
  {
    SPlace7(); FoldOne(SField7, SAfter6, SEntry7, SAfter7);
    SPlace6(); FoldCons(SField6, SFields7, SAfter5, SEntry6, SAfter6, SEntries7, SAfter7);
    SPlace5(); FoldCons(SField5, SFields6, SAfter4, SEntry5, SAfter5, SEntries6, SAfter7);
    SPlace4(); FoldCons(SField4, SFields5, SAfter3, SEntry4, SAfter4, SEntries5, SAfter7);
    SPlace3(); FoldCons(SField3, SFields4, SAfter2, SEntry3, SAfter3, SEntries4, SAfter7);
    SPlace2(); FoldCons(SField2, SFields3, SAfter1, SEntry2, SAfter2, SEntries3, SAfter7);
    SPlace1(); FoldCons(SField1, SFields2, Start, SEntry1, SAfter1, SEntries2, SAfter7);
  }

  lemma SEnd()
    ensures Close(SAfter7).align == 4 && AlignUp(Close(SAfter7).bytes, 4) == 4
  {
  }

  lemma SStruct()
    ensures StructLayout(SFields1) == Ok(Layout(4, 4, SEntries1))
  {
    SFold();
    SEnd();
    StructFromFold(SFields1, SEntries1, SAfter7, 4, 4);
  }

  /** `struct s`: seven bit-fields of widths 1 to 7 in one `int` unit, at bits
      0, 1, 3, 6, 10, 15 and 21; 4 bytes. */
  lemma SLayout()
    ensures LayoutOf(S) == Ok(Layout(4, 4, SEntries1))
  {
    SStruct();
    AggOf(Struct, Some(["s"]), SFields1, Layout(4, 4, SEntries1));
  }

  lemma SGaps()
    ensures Gaps(SEntries1, 0, 0, 32) == [Hole([7], 0, 4)]
  {
    SGapsFrom4();
    assert Gaps(SEntries3, 2, 3, 32) == [Hole([7], 0, 4)];
    assert Gaps(SEntries2, 1, 1, 32) == [Hole([7], 0, 4)];
  }

  lemma SGapsFrom4()
    ensures Gaps(SEntries4, 3, 6, 32) == [Hole([7], 0, 4)]
  {
    assert Gaps(SEntries7, 6, 21, 32) == [Hole([7], 0, 4)];
    assert Gaps(SEntries6, 5, 15, 32) == [Hole([7], 0, 4)];
    assert Gaps(SEntries5, 4, 10, 32) == [Hole([7], 0, 4)];
  }

  lemma SFlat()
    ensures Inner(SEntries1, 0) == []
  {
    SFlatFrom4();
    assert Inner(SEntries3, 2) == [];
    assert Inner(SEntries2, 1) == [];
  }

  lemma SFlatFrom4()
    ensures Inner(SEntries4, 3) == []
  {
    assert Inner(SEntries7, 6) == [];
    assert Inner(SEntries6, 5) == [];
    assert Inner(SEntries5, 4) == [];
  }

  /** `struct s` uses 28 of its 32 bits: one trailing hole of 0 bytes and 4
      bits. */
  lemma SHoles()
    ensures LayoutOf(S).Ok? && HolesOf(S) == [Hole([7], 0, 4)]
  {
    SLayout();
    SGaps();
    SFlat();
    assert Gaps(SEntries1, 0, 0, 32) + Inner(SEntries1, 0) == [Hole([7], 0, 4)];
  }

  lemma SLeaves()
    ensures ReachedAll(SFields1) == {}
  {
    SLeavesFrom4();
    assert ReachedAll(SFields3) == {};
    assert ReachedAll(SFields2) == {};
  }

  lemma SLeavesFrom4()
    ensures ReachedAll(SFields4) == {}
  {
    assert ReachedAll(SFields7) == {};
    assert ReachedAll(SFields6) == {};
    assert ReachedAll(SFields5) == {};
  }

  /** `struct s` is reported as one block, under its tag. */
  lemma SBlocks()
    ensures Reached(S, None) == {Block(Struct, "s", SFields1)}
  {
    SLeaves();
  }

  // struct s2

  const S2: Type := Agg(Struct, Some(["s2"]), S2Fields1)

  const S2Field1 := BitField("field1", Scalar(Int), 5)
  const S2Field2 := BitField("field2", Scalar(Int), 9)
  const S2Field3 := BitField("field3", Scalar(Int), 1)
  const S2Field4 := BitField("field4", Scalar(Int), 7)
  const S2Field5 := BitField("field5", Scalar(Int), 10)

  const S2Fields5: seq<Field> := [S2Field5]
  const S2Fields4: seq<Field> := [S2Field4] + S2Fields5
  const S2Fields3: seq<Field> := [S2Field3] + S2Fields4
  const S2Fields2: seq<Field> := [S2Field2] + S2Fields3
  const S2Fields1: seq<Field> := [S2Field1] + S2Fields2

  const S2Entry1 := Placed("field1", 4, 4, 0, Some(BitSlot(0, 5)))
  const S2Entry2 := Placed("field2", 4, 4, 0, Some(BitSlot(5, 9)))
  const S2Entry3 := Placed("field3", 4, 4, 0, Some(BitSlot(14, 1)))
  const S2Entry4 := Placed("field4", 4, 4, 0, Some(BitSlot(15, 7)))
  const S2Entry5 := Placed("field5", 4, 4, 0, Some(BitSlot(22, 10)))

  const S2Entries5: seq<Entry> := [S2Entry5]
  const S2Entries4: seq<Entry> := [S2Entry4] + S2Entries5
  const S2Entries3: seq<Entry> := [S2Entry3] + S2Entries4
  const S2Entries2: seq<Entry> := [S2Entry2] + S2Entries3
  const S2Entries1: seq<Entry> := [S2Entry1] + S2Entries2

  // The cursor after each member.
  const S2After1 := Cursor(0, Some(Run(Int, 5)), 4)
  const S2After2 := Cursor(0, Some(Run(Int, 14)), 4)
  const S2After3 := Cursor(0, Some(Run(Int, 15)), 4)
  const S2After4 := Cursor(0, Some(Run(Int, 22)), 4)
  const S2After5 := Cursor(0, Some(Run(Int, 32)), 4)

  lemma S2Place1() ensures Place(S2Field1, Start) == Ok((S2Entry1, S2After1)) {}
  lemma S2Place2() ensures Place(S2Field2, S2After1) == Ok((S2Entry2, S2After2)) {}
  lemma S2Place3() ensures Place(S2Field3, S2After2) == Ok((S2Entry3, S2After3)) {}
  lemma S2Place4() ensures Place(S2Field4, S2After3) == Ok((S2Entry4, S2After4)) {}
  lemma S2Place5() ensures Place(S2Field5, S2After4) == Ok((S2Entry5, S2After5)) {}

  lemma S2Fold()
    ensures Fold(S2Fields1, Start) == Ok((S2Entries1, S2After5))
  {
    S2Place5(); FoldOne(S2Field5, S2After4, S2Entry5, S2After5);
    S2Place4(); FoldCons(S2Field4, S2Fields5, S2After3, S2Entry4, S2After4, S2Entries5, S2After5);
    S2Place3(); FoldCons(S2Field3, S2Fields4, S2After2, S2Entry3, S2After3, S2Entries4, S2After5);
    S2Place2(); FoldCons(S2Field2, S2Fields3, S2After1, S2Entry2, S2After2, S2Entries3, S2After5);
    S2Place1(); FoldCons(S2Field1, S2Fields2, Start, S2Entry1, S2After1, S2Entries2, S2After5);
  }

  lemma S2End()
    ensures Close(S2After5).align == 4 && AlignUp(Close(S2After5).bytes, 4) == 4
  {
  }

  lemma S2Struct()
    ensures StructLayout(S2Fields1) == Ok(Layout(4, 4, S2Entries1))
  {
    S2Fold();
    S2End();
    StructFromFold(S2Fields1, S2Entries1, S2After5, 4, 4);
  }

  /** `struct s2`: each bit-field starts where the previous one ends, at bits 0,
      5, 14, 15 and 22: 4 bytes. */
  lemma S2Layout()
    ensures LayoutOf(S2) == Ok(Layout(4, 4, S2Entries1))
  {
    S2Struct();
    AggOf(Struct, Some(["s2"]), S2Fields1, Layout(4, 4, S2Entries1));
  }

  lemma S2Gaps()
    ensures Gaps(S2Entries1, 0, 0, 32) == []
  {
    assert Gaps(S2Entries5, 4, 22, 32) == [];
    assert Gaps(S2Entries4, 3, 15, 32) == [];
    assert Gaps(S2Entries3, 2, 14, 32) == [];
    assert Gaps(S2Entries2, 1, 5, 32) == [];
  }

  lemma S2Flat()
    ensures Inner(S2Entries1, 0) == []
  {
    assert Inner(S2Entries5, 4) == [];
    assert Inner(S2Entries4, 3) == [];
    assert Inner(S2Entries3, 2) == [];
    assert Inner(S2Entries2, 1) == [];
  }

  /** `struct s2` uses all 32 bits of its unit: no hole. */
  lemma S2Holes()
    ensures LayoutOf(S2).Ok? && HolesOf(S2) == []
  {
    S2Layout();
    S2Gaps();
    S2Flat();
    assert Gaps(S2Entries1, 0, 0, 32) + Inner(S2Entries1, 0) == [];
  }

  lemma S2Leaves()
    ensures ReachedAll(S2Fields1) == {}
  {
    assert ReachedAll(S2Fields5) == {};
    assert ReachedAll(S2Fields4) == {};
    assert ReachedAll(S2Fields3) == {};
    assert ReachedAll(S2Fields2) == {};
  }

  /** `struct s2` is reported as one block. */
  lemma S2Blocks()
    ensures Reached(S2, None) == {Block(Struct, "s2", S2Fields1)}
  {
    S2Leaves();
  }

  // struct s3

  const S3: Type := Agg(Struct, Some(["s3"]), S3Fields1)

  const S3Field1 := BitField("field1", Scalar(Int), 10)
  const S3Field2 := BitField("field2", Scalar(Int), 10)

  const S3Fields2: seq<Field> := [S3Field2]
  const S3Fields1: seq<Field> := [S3Field1] + S3Fields2

  const S3Entry1 := Placed("field1", 4, 4, 0, Some(BitSlot(0, 10)))
  const S3Entry2 := Placed("field2", 4, 4, 0, Some(BitSlot(10, 10)))

  const S3Entries2: seq<Entry> := [S3Entry2]
  const S3Entries1: seq<Entry> := [S3Entry1] + S3Entries2

  // The cursor after each member.
  const S3After1 := Cursor(0, Some(Run(Int, 10)), 4)
  const S3After2 := Cursor(0, Some(Run(Int, 20)), 4)

  lemma S3Place1() ensures Place(S3Field1, Start) == Ok((S3Entry1, S3After1)) {}
  lemma S3Place2() ensures Place(S3Field2, S3After1) == Ok((S3Entry2, S3After2)) {}

  lemma S3Fold()
    ensures Fold(S3Fields1, Start) == Ok((S3Entries1, S3After2))
  {
    S3Place2(); FoldOne(S3Field2, S3After1, S3Entry2, S3After2);
    S3Place1(); FoldCons(S3Field1, S3Fields2, Start, S3Entry1, S3After1, S3Entries2, S3After2);
  }

  lemma S3End()
    ensures Close(S3After2).align == 4 && AlignUp(Close(S3After2).bytes, 4) == 4
  {
  }

  lemma S3Struct()
    ensures StructLayout(S3Fields1) == Ok(Layout(4, 4, S3Entries1))
  {
    S3Fold();
    S3End();
    StructFromFold(S3Fields1, S3Entries1, S3After2, 4, 4);
  }

  /** `struct s3`: two 10-bit fields at bits 0 and 10 of one unit; 4 bytes. */
  lemma S3Layout()
    ensures LayoutOf(S3) == Ok(Layout(4, 4, S3Entries1))
  {
    S3Struct();
    AggOf(Struct, Some(["s3"]), S3Fields1, Layout(4, 4, S3Entries1));
  }

  lemma S3Gaps()
    ensures Gaps(S3Entries1, 0, 0, 32) == [Hole([2], 1, 4)]
  {
    assert Gaps(S3Entries2, 1, 10, 32) == [Hole([2], 1, 4)];
  }

  lemma S3Flat()
    ensures Inner(S3Entries1, 0) == []
  {
    assert Inner(S3Entries2, 1) == [];
  }

  /** `struct s3` leaves 12 bits unused: a trailing hole of 1 byte and 4 bits. */
  lemma S3Holes()
    ensures LayoutOf(S3).Ok? && HolesOf(S3) == [Hole([2], 1, 4)]
  {
    S3Layout();
    S3Gaps();
    S3Flat();
    assert Gaps(S3Entries1, 0, 0, 32) + Inner(S3Entries1, 0) == [Hole([2], 1, 4)];
  }

  lemma S3Leaves()
    ensures ReachedAll(S3Fields1) == {}
  {
    assert ReachedAll(S3Fields2) == {};
  }

  /** `struct s3` is reported as one block. */
  lemma S3Blocks()
    ensures Reached(S3, None) == {Block(Struct, "s3", S3Fields1)}
  {
    S3Leaves();
  }

  /** The report on `t`'s three parameters has one block per struct. */
  lemma ReportOfT()
    ensures ReportBlocks([S, S2, S3]) ==
      {Block(Struct, "s", SFields1), Block(Struct, "s2", S2Fields1), Block(Struct, "s3", S3Fields1)}
  {
    SBlocks();
    S2Blocks();
    S3Blocks();
    assert [S, S2, S3][1..] == [S2, S3] && [S2, S3][1..] == [S3] && [S3][1..] == [];
    assert ReportBlocks([S3]) == {Block(Struct, "s3", S3Fields1)};
    assert ReportBlocks([S2, S3]) == {Block(Struct, "s2", S2Fields1), Block(Struct, "s3", S3Fields1)};
  }
}
