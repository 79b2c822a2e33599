/** tests/bug_with_decl_namespace_and_structs.cpp: `ns::c` holds a pointer
    to `decl`, a class that is only declared. The pointer is 8 bytes like any
    other, and `decl` is never reported, since it is reached only through the
    pointer; `c2`, outside any namespace, is reported under its bare tag. */
module DeclNamespaceAndStructs {
  import opened Common
  import opened Abi
  import opened Types
  import opened Resolver
  import opened Stepwise
  import opened Holes
  import opened Blocks

  // class ns::c

  const NsC: Type := Agg(Class, Some(["ns", "c"]), DcFields1)

  const DcField1 := Member("d", Pointer(Incomplete(["decl"])))
  const DcField2 := Member("field1", Scalar(Int))
  const DcField3 := Member("field2", Scalar(Int))

  const DcFields3: seq<Field> := [DcField3]
  const DcFields2: seq<Field> := [DcField2] + DcFields3
  const DcFields1: seq<Field> := [DcField1] + DcFields2

  const DcEntry1 := Placed("d", 8, 8, 0, None)
  const DcEntry2 := Placed("field1", 4, 4, 8, None)
  const DcEntry3 := Placed("field2", 4, 4, 12, None)

  const DcEntries3: seq<Entry> := [DcEntry3]
  const DcEntries2: seq<Entry> := [DcEntry2] + DcEntries3
  const DcEntries1: seq<Entry> := [DcEntry1] + DcEntries2

  // The cursor after each member.
  const DcAfter1 := Cursor(8, None, 8)
  const DcAfter2 := Cursor(12, None, 8)
  const DcAfter3 := Cursor(16, None, 8)

  lemma DcPlace1() ensures Place(DcField1, Start) == Ok((DcEntry1, DcAfter1)) { PlaceNamed(DcField1, Start, Layout(8, 8, []), 0); }
  lemma DcPlace2() ensures Place(DcField2, DcAfter1) == Ok((DcEntry2, DcAfter2)) { PlaceNamed(DcField2, DcAfter1, Layout(4, 4, []), 8); }
  lemma DcPlace3() ensures Place(DcField3, DcAfter2) == Ok((DcEntry3, DcAfter3)) { PlaceNamed(DcField3, DcAfter2, Layout(4, 4, []), 12); }

  lemma DcFold()
    ensures Fold(DcFields1, Start) == Ok((DcEntries1, DcAfter3))
  {
    DcPlace3(); FoldOne(DcField3, DcAfter2, DcEntry3, DcAfter3);
    DcPlace2(); FoldCons(DcField2, DcFields3, DcAfter1, DcEntry2, DcAfter2, DcEntries3, DcAfter3);
    DcPlace1(); FoldCons(DcField1, DcFields2, Start, DcEntry1, DcAfter1, DcEntries2, DcAfter3);
  }

  lemma DcEnd()
    ensures Close(DcAfter3).align == 8 && AlignUp(Close(DcAfter3).bytes, 8) == 16
  {
  }

  lemma DcStruct()
    ensures StructLayout(DcFields1) == Ok(Layout(16, 8, DcEntries1))
  {
    DcFold();
    DcEnd();
    StructFromFold(DcFields1, DcEntries1, DcAfter3, 16, 8);
  }

  /** `class ns::c`: the pointer to the incomplete `decl` at 0 with 8 bytes,
      then the two `int`s at 8 and 12; 16 bytes. */
  lemma DcLayout()
    ensures LayoutOf(NsC) == Ok(Layout(16, 8, DcEntries1))
  {
    DcStruct();
    AggOf(Class, Some(["ns", "c"]), DcFields1, Layout(16, 8, DcEntries1));
  }

  lemma DcGaps()
    ensures Gaps(DcEntries1, 0, 0, 128) == []
  {
    assert Gaps(DcEntries3, 2, 96, 128) == [];
    assert Gaps(DcEntries2, 1, 64, 128) == [];
  }

  lemma DcFlat()
    ensures Inner(DcEntries1, 0) == []
  {
    assert Inner(DcEntries3, 2) == [];
    assert Inner(DcEntries2, 1) == [];
  }

  /** `class ns::c` has no hole. */
  lemma DcHoles()
    ensures LayoutOf(NsC).Ok? && HolesOf(NsC) == []
  {
    DcLayout();
    DcGaps();
    DcFlat();
    assert Gaps(DcEntries1, 0, 0, 128) + Inner(DcEntries1, 0) == [];
  }

  lemma DcLeaves()
    ensures ReachedAll(DcFields1) == {}
  {
    assert ReachedAll(DcFields3) == {};
    assert ReachedAll(DcFields2) == {};
  }

  /** `class ns::c` is the only block its members bring: the pointer to `decl`
      brings none. */
  lemma DcBlocks()
    ensures Reached(NsC, None) == {Block(Class, "ns::c", DcFields1)}
  {
    DcLeaves();
    assert QualifiedName(["c"]) == "c";
    assert QualifiedName(["ns", "c"]) == "ns::c";
  }

  // class c2

  const C2: Type := Agg(Class, Some(["c2"]), Dc2Fields1)

  const Dc2Field1 := Member("f1", Scalar(Char))
  const Dc2Field2 := Member("f2", Scalar(Char))

  const Dc2Fields2: seq<Field> := [Dc2Field2]
  const Dc2Fields1: seq<Field> := [Dc2Field1] + Dc2Fields2

  const Dc2Entry1 := Placed("f1", 1, 1, 0, None)
  const Dc2Entry2 := Placed("f2", 1, 1, 1, None)

  const Dc2Entries2: seq<Entry> := [Dc2Entry2]
  const Dc2Entries1: seq<Entry> := [Dc2Entry1] + Dc2Entries2

  // The cursor after each member.
  const Dc2After1 := Cursor(1, None, 1)
  const Dc2After2 := Cursor(2, None, 1)

  lemma Dc2Place1() ensures Place(Dc2Field1, Start) == Ok((Dc2Entry1, Dc2After1)) { PlaceNamed(Dc2Field1, Start, Layout(1, 1, []), 0); }
  lemma Dc2Place2() ensures Place(Dc2Field2, Dc2After1) == Ok((Dc2Entry2, Dc2After2)) { PlaceNamed(Dc2Field2, Dc2After1, Layout(1, 1, []), 1); }

  lemma Dc2Fold()
    ensures Fold(Dc2Fields1, Start) == Ok((Dc2Entries1, Dc2After2))
  {
    Dc2Place2(); FoldOne(Dc2Field2, Dc2After1, Dc2Entry2, Dc2After2);
    Dc2Place1(); FoldCons(Dc2Field1, Dc2Fields2, Start, Dc2Entry1, Dc2After1, Dc2Entries2, Dc2After2);
  }

  lemma Dc2End()
    ensures Close(Dc2After2).align == 1 && AlignUp(Close(Dc2After2).bytes, 1) == 2
  {
  }

  lemma Dc2Struct()
    ensures StructLayout(Dc2Fields1) == Ok(Layout(2, 1, Dc2Entries1))
  {
    Dc2Fold();
    Dc2End();
    StructFromFold(Dc2Fields1, Dc2Entries1, Dc2After2, 2, 1);
  }

  /** `class c2`: two `char` members at 0 and 1; 2 bytes. */
  lemma Dc2Layout()
    ensures LayoutOf(C2) == Ok(Layout(2, 1, Dc2Entries1))
  {
    Dc2Struct();
    AggOf(Class, Some(["c2"]), Dc2Fields1, Layout(2, 1, Dc2Entries1));
  }

  lemma Dc2Gaps()
    ensures Gaps(Dc2Entries1, 0, 0, 16) == []
  {
    assert Gaps(Dc2Entries2, 1, 8, 16) == [];
  }

  lemma Dc2Flat()
    ensures Inner(Dc2Entries1, 0) == []
  {
    assert Inner(Dc2Entries2, 1) == [];
  }

  /** `class c2` has no hole. */
  lemma Dc2Holes()
    ensures LayoutOf(C2).Ok? && HolesOf(C2) == []
  {
    Dc2Layout();
    Dc2Gaps();
    Dc2Flat();
    assert Gaps(Dc2Entries1, 0, 0, 16) + Inner(Dc2Entries1, 0) == [];
  }

  lemma Dc2Leaves()
    ensures ReachedAll(Dc2Fields1) == {}
  {
    assert ReachedAll(Dc2Fields2) == {};
  }

  /** `class c2` is reported under its bare tag. */
  lemma Dc2Blocks()
    ensures Reached(C2, None) == {Block(Class, "c2", Dc2Fields1)}
  {
    Dc2Leaves();
  }

  /** The report on `t` has two blocks, `ns::c` and `c2`; none for `decl`. */
  lemma ReportOfT()
    ensures ReportBlocks([NsC, C2]) ==
      {Block(Class, "ns::c", DcFields1), Block(Class, "c2", Dc2Fields1)}
  {
    DcBlocks();
    Dc2Blocks();
    assert [NsC, C2][1..] == [C2] && [C2][1..] == [];
    assert ReportBlocks([C2]) == {Block(Class, "c2", Dc2Fields1)};
  }

  /** By value, `decl` cannot be laid out: it is only declared. */
  lemma DeclIncomplete()
    ensures LayoutOf(Incomplete(["decl"])) == Err(IncompleteByValue(["decl"]))
  {
  }
}
