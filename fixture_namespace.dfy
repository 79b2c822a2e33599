/** tests/common/namespace.cpp: `testing::c` and
    `testing::testing_deeper::c2`, each with two `int` members; each class is
    reported under its qualified name. */
module Namespace {
  import opened Common
  import opened Abi
  import opened Types
  import opened Resolver
  import opened Stepwise
  import opened Holes
  import opened Blocks

  // class testing::c

  const TestingC: Type := Agg(Class, Some(["testing", "c"]), NcFields1)

  const NcField1 := Member("field1", Scalar(Int))
  const NcField2 := Member("field2", Scalar(Int))

  const NcFields2: seq<Field> := [NcField2]
  const NcFields1: seq<Field> := [NcField1] + NcFields2

  const NcEntry1 := Placed("field1", 4, 4, 0, None)
  const NcEntry2 := Placed("field2", 4, 4, 4, None)

  const NcEntries2: seq<Entry> := [NcEntry2]
  const NcEntries1: seq<Entry> := [NcEntry1] + NcEntries2

  // The cursor after each member.
  const NcAfter1 := Cursor(4, None, 4)
  const NcAfter2 := Cursor(8, None, 4)

  lemma NcPlace1() ensures Place(NcField1, Start) == Ok((NcEntry1, NcAfter1)) { PlaceNamed(NcField1, Start, Layout(4, 4, []), 0); }
  lemma NcPlace2() ensures Place(NcField2, NcAfter1) == Ok((NcEntry2, NcAfter2)) { PlaceNamed(NcField2, NcAfter1, Layout(4, 4, []), 4); }

  lemma NcFold()
    ensures Fold(NcFields1, Start) == Ok((NcEntries1, NcAfter2))
  {
    NcPlace2(); FoldOne(NcField2, NcAfter1, NcEntry2, NcAfter2);
    NcPlace1(); FoldCons(NcField1, NcFields2, Start, NcEntry1, NcAfter1, NcEntries2, NcAfter2);
  }

  lemma NcEnd()
    ensures Close(NcAfter2).align == 4 && AlignUp(Close(NcAfter2).bytes, 4) == 8
  {
  }

  lemma NcStruct()
    ensures StructLayout(NcFields1) == Ok(Layout(8, 4, NcEntries1))
  {
    NcFold();
    NcEnd();
    StructFromFold(NcFields1, NcEntries1, NcAfter2, 8, 4);
  }

  /** `class testing::c`: two `int` members at offsets 0 and 4; 8 bytes. */
  lemma NcLayout()
    ensures LayoutOf(TestingC) == Ok(Layout(8, 4, NcEntries1))
  {
    NcStruct();
    AggOf(Class, Some(["testing", "c"]), NcFields1, Layout(8, 4, NcEntries1));
  }

  lemma NcGaps()
    ensures Gaps(NcEntries1, 0, 0, 64) == []
  {
    assert Gaps(NcEntries2, 1, 32, 64) == [];
  }

  lemma NcFlat()
    ensures Inner(NcEntries1, 0) == []
  {
    assert Inner(NcEntries2, 1) == [];
  }

  /** `class testing::c` has no hole. */
  lemma NcHoles()
    ensures LayoutOf(TestingC).Ok? && HolesOf(TestingC) == []
  {
    NcLayout();
    NcGaps();
    NcFlat();
    assert Gaps(NcEntries1, 0, 0, 64) + Inner(NcEntries1, 0) == [];
  }

  lemma NcLeaves()
    ensures ReachedAll(NcFields1) == {}
  {
    assert ReachedAll(NcFields2) == {};
  }

  /** `class testing::c` is reported under its qualified name. */
  lemma NcBlocks()
    ensures Reached(TestingC, None) == {Block(Class, "testing::c", NcFields1)}
  {
    NcLeaves();
    assert QualifiedName(["c"]) == "c";
    assert QualifiedName(["testing", "c"]) == "testing::c";
  }

  // class testing::testing_deeper::c2

  const TestingDeeperC2: Type := Agg(Class, Some(["testing", "testing_deeper", "c2"]), Nc2Fields1)

  const Nc2Field1 := Member("field1", Scalar(Int))
  const Nc2Field2 := Member("field2", Scalar(Int))

  const Nc2Fields2: seq<Field> := [Nc2Field2]
  const Nc2Fields1: seq<Field> := [Nc2Field1] + Nc2Fields2

  const Nc2Entry1 := Placed("field1", 4, 4, 0, None)
  const Nc2Entry2 := Placed("field2", 4, 4, 4, None)

  const Nc2Entries2: seq<Entry> := [Nc2Entry2]
  const Nc2Entries1: seq<Entry> := [Nc2Entry1] + Nc2Entries2

  // The cursor after each member.
  const Nc2After1 := Cursor(4, None, 4)
  const Nc2After2 := Cursor(8, None, 4)

  lemma Nc2Place1() ensures Place(Nc2Field1, Start) == Ok((Nc2Entry1, Nc2After1)) { PlaceNamed(Nc2Field1, Start, Layout(4, 4, []), 0); }
  lemma Nc2Place2() ensures Place(Nc2Field2, Nc2After1) == Ok((Nc2Entry2, Nc2After2)) { PlaceNamed(Nc2Field2, Nc2After1, Layout(4, 4, []), 4); }

  lemma Nc2Fold()
    ensures Fold(Nc2Fields1, Start) == Ok((Nc2Entries1, Nc2After2))
  {
    Nc2Place2(); FoldOne(Nc2Field2, Nc2After1, Nc2Entry2, Nc2After2);
    Nc2Place1(); FoldCons(Nc2Field1, Nc2Fields2, Start, Nc2Entry1, Nc2After1, Nc2Entries2, Nc2After2);
  }

  lemma Nc2End()
    ensures Close(Nc2After2).align == 4 && AlignUp(Close(Nc2After2).bytes, 4) == 8
  {
  }

  lemma Nc2Struct()
    ensures StructLayout(Nc2Fields1) == Ok(Layout(8, 4, Nc2Entries1))
  {
    Nc2Fold();
    Nc2End();
    StructFromFold(Nc2Fields1, Nc2Entries1, Nc2After2, 8, 4);
  }

  /** `class testing::testing_deeper::c2`: two `int` members at offsets 0 and 4;
      8 bytes. */
  lemma Nc2Layout()
    ensures LayoutOf(TestingDeeperC2) == Ok(Layout(8, 4, Nc2Entries1))
  {
    Nc2Struct();
    AggOf(Class, Some(["testing", "testing_deeper", "c2"]), Nc2Fields1, Layout(8, 4, Nc2Entries1));
  }

  lemma Nc2Gaps()
    ensures Gaps(Nc2Entries1, 0, 0, 64) == []
  {
    assert Gaps(Nc2Entries2, 1, 32, 64) == [];
  }

  lemma Nc2Flat()
    ensures Inner(Nc2Entries1, 0) == []
  {
    assert Inner(Nc2Entries2, 1) == [];
  }

  /** `class testing::testing_deeper::c2` has no hole. */
  lemma Nc2Holes()
    ensures LayoutOf(TestingDeeperC2).Ok? && HolesOf(TestingDeeperC2) == []
  {
    Nc2Layout();
    Nc2Gaps();
    Nc2Flat();
    assert Gaps(Nc2Entries1, 0, 0, 64) + Inner(Nc2Entries1, 0) == [];
  }

  lemma Nc2Leaves()
    ensures ReachedAll(Nc2Fields1) == {}
  {
    assert ReachedAll(Nc2Fields2) == {};
  }

  /** `class testing::testing_deeper::c2` is reported under its qualified name. */
  lemma Nc2Blocks()
    ensures Reached(TestingDeeperC2, None) == {Block(Class, "testing::testing_deeper::c2", Nc2Fields1)}
  {
    Nc2Leaves();
    assert QualifiedName(["c2"]) == "c2";
    assert QualifiedName(["testing_deeper", "c2"]) == "testing_deeper::c2";
    assert QualifiedName(["testing", "testing_deeper", "c2"]) == "testing::testing_deeper::c2";
  }

  /** The report on `t` and `t2` has one block per class. */
  lemma ReportOfT()
    ensures ReportBlocks([TestingC, TestingDeeperC2]) ==
      {Block(Class, "testing::c", NcFields1), Block(Class, "testing::testing_deeper::c2", Nc2Fields1)}
  {
    NcBlocks();
    Nc2Blocks();
    assert [TestingC, TestingDeeperC2][1..] == [TestingDeeperC2] && [TestingDeeperC2][1..] == [];
    assert ReportBlocks([TestingDeeperC2]) == {Block(Class, "testing::testing_deeper::c2", Nc2Fields1)};
  }

}
