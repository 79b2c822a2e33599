/** tests/namespaces_many.cpp: four classes all named `c`, in namespaces
    `ns1`, `ns1::ns1_2`, `ns2` and `ns2::ns2_2`. Each is laid out as a struct
    would be, and each is reported under its name qualified with its
    namespaces, so the four reports never merge. */
module NamespacesMany {
  import opened Common
  import opened Abi
  import opened Types
  import opened Resolver
  import opened Stepwise
  import opened Holes
  import opened Blocks

  // class ns1::c

  const Ns1C: Type := Agg(Class, Some(["ns1", "c"]), N1Fields1)

  const N1Field1 := Member("field1", Scalar(Int))
  const N1Field2 := Member("field2", Scalar(Int))

  const N1Fields2: seq<Field> := [N1Field2]
  const N1Fields1: seq<Field> := [N1Field1] + N1Fields2

  const N1Entry1 := Placed("field1", 4, 4, 0, None)
  const N1Entry2 := Placed("field2", 4, 4, 4, None)

  const N1Entries2: seq<Entry> := [N1Entry2]
  const N1Entries1: seq<Entry> := [N1Entry1] + N1Entries2

  // The cursor after each member.
  const N1After1 := Cursor(4, None, 4)
  const N1After2 := Cursor(8, None, 4)

  lemma N1Place1() ensures Place(N1Field1, Start) == Ok((N1Entry1, N1After1)) { PlaceNamed(N1Field1, Start, Layout(4, 4, []), 0); }
  lemma N1Place2() ensures Place(N1Field2, N1After1) == Ok((N1Entry2, N1After2)) { PlaceNamed(N1Field2, N1After1, Layout(4, 4, []), 4); }

  lemma N1Fold()
    ensures Fold(N1Fields1, Start) == Ok((N1Entries1, N1After2))
  {
    N1Place2(); FoldOne(N1Field2, N1After1, N1Entry2, N1After2);
    N1Place1(); FoldCons(N1Field1, N1Fields2, Start, N1Entry1, N1After1, N1Entries2, N1After2);
  }

  lemma N1End()
    ensures Close(N1After2).align == 4 && AlignUp(Close(N1After2).bytes, 4) == 8
  {
  }

  lemma N1Struct()
    ensures StructLayout(N1Fields1) == Ok(Layout(8, 4, N1Entries1))
  {
    N1Fold();
    N1End();
    StructFromFold(N1Fields1, N1Entries1, N1After2, 8, 4);
  }

  /** `class ns1::c`: two `int` members, back to back. */
  lemma N1Layout()
    ensures LayoutOf(Ns1C) == Ok(Layout(8, 4, N1Entries1))
  {
    N1Struct();
    AggOf(Class, Some(["ns1", "c"]), N1Fields1, Layout(8, 4, N1Entries1));
  }

  lemma N1Gaps()
    ensures Gaps(N1Entries1, 0, 0, 64) == []
  {
    assert Gaps(N1Entries2, 1, 32, 64) == [];
  }

  lemma N1Flat()
    ensures Inner(N1Entries1, 0) == []
  {
    assert Inner(N1Entries2, 1) == [];
  }

  /** `class ns1::c` has no hole. */
  lemma N1Holes()
    ensures LayoutOf(Ns1C).Ok? && HolesOf(Ns1C) == []
  {
    N1Layout();
    N1Gaps();
    N1Flat();
    assert Gaps(N1Entries1, 0, 0, 64) + Inner(N1Entries1, 0) == [];
  }

  lemma N1Leaves()
    ensures ReachedAll(N1Fields1) == {}
  {
    assert ReachedAll(N1Fields2) == {};
  }

  /** `class ns1::c` is reported under its qualified name. */
  lemma N1Blocks()
    ensures Reached(Ns1C, None) == {Block(Class, "ns1::c", N1Fields1)}
  {
    N1Leaves();
    assert QualifiedName(["c"]) == "c";
    assert QualifiedName(["ns1", "c"]) == "ns1::c";
  }

  // class ns1::ns1_2::c

  const Ns12C: Type := Agg(Class, Some(["ns1", "ns1_2", "c"]), N12Fields1)

  const N12Field1 := Member("field1", Scalar(Char))
  const N12Field2 := Member("field2", Scalar(Char))

  const N12Fields2: seq<Field> := [N12Field2]
  const N12Fields1: seq<Field> := [N12Field1] + N12Fields2

  const N12Entry1 := Placed("field1", 1, 1, 0, None)
  const N12Entry2 := Placed("field2", 1, 1, 1, None)

  const N12Entries2: seq<Entry> := [N12Entry2]
  const N12Entries1: seq<Entry> := [N12Entry1] + N12Entries2

  // The cursor after each member.
  const N12After1 := Cursor(1, None, 1)
  const N12After2 := Cursor(2, None, 1)

  lemma N12Place1() ensures Place(N12Field1, Start) == Ok((N12Entry1, N12After1)) { PlaceNamed(N12Field1, Start, Layout(1, 1, []), 0); }
  lemma N12Place2() ensures Place(N12Field2, N12After1) == Ok((N12Entry2, N12After2)) { PlaceNamed(N12Field2, N12After1, Layout(1, 1, []), 1); }

  lemma N12Fold()
    ensures Fold(N12Fields1, Start) == Ok((N12Entries1, N12After2))
  {
    N12Place2(); FoldOne(N12Field2, N12After1, N12Entry2, N12After2);
    N12Place1(); FoldCons(N12Field1, N12Fields2, Start, N12Entry1, N12After1, N12Entries2, N12After2);
  }

  lemma N12End()
    ensures Close(N12After2).align == 1 && AlignUp(Close(N12After2).bytes, 1) == 2
  {
  }

  lemma N12Struct()
    ensures StructLayout(N12Fields1) == Ok(Layout(2, 1, N12Entries1))
  {
    N12Fold();
    N12End();
    StructFromFold(N12Fields1, N12Entries1, N12After2, 2, 1);
  }

  /** `class ns1::ns1_2::c`: two `char` members, back to back. */
  lemma N12Layout()
    ensures LayoutOf(Ns12C) == Ok(Layout(2, 1, N12Entries1))
  {
    N12Struct();
    AggOf(Class, Some(["ns1", "ns1_2", "c"]), N12Fields1, Layout(2, 1, N12Entries1));
  }

  lemma N12Gaps()
    ensures Gaps(N12Entries1, 0, 0, 16) == []
  {
    assert Gaps(N12Entries2, 1, 8, 16) == [];
  }

  lemma N12Flat()
    ensures Inner(N12Entries1, 0) == []
  {
    assert Inner(N12Entries2, 1) == [];
  }

  /** `class ns1::ns1_2::c` has no hole. */
  lemma N12Holes()
    ensures LayoutOf(Ns12C).Ok? && HolesOf(Ns12C) == []
  {
    N12Layout();
    N12Gaps();
    N12Flat();
    assert Gaps(N12Entries1, 0, 0, 16) + Inner(N12Entries1, 0) == [];
  }

  lemma N12Leaves()
    ensures ReachedAll(N12Fields1) == {}
  {
    assert ReachedAll(N12Fields2) == {};
  }

  /** `class ns1::ns1_2::c` is reported under its qualified name. */
  lemma N12Blocks()
    ensures Reached(Ns12C, None) == {Block(Class, "ns1::ns1_2::c", N12Fields1)}
  {
    N12Leaves();
    assert QualifiedName(["c"]) == "c";
    assert QualifiedName(["ns1_2", "c"]) == "ns1_2::c";
    assert QualifiedName(["ns1", "ns1_2", "c"]) == "ns1::ns1_2::c";
  }

  // class ns2::c

  const Ns2C: Type := Agg(Class, Some(["ns2", "c"]), N2Fields1)

  const N2Field1 := Member("field1", Scalar(Short))
  const N2Field2 := Member("field2", Scalar(Short))

  const N2Fields2: seq<Field> := [N2Field2]
  const N2Fields1: seq<Field> := [N2Field1] + N2Fields2

  const N2Entry1 := Placed("field1", 2, 2, 0, None)
  const N2Entry2 := Placed("field2", 2, 2, 2, None)

  const N2Entries2: seq<Entry> := [N2Entry2]
  const N2Entries1: seq<Entry> := [N2Entry1] + N2Entries2

  // The cursor after each member.
  const N2After1 := Cursor(2, None, 2)
  const N2After2 := Cursor(4, None, 2)

  lemma N2Place1() ensures Place(N2Field1, Start) == Ok((N2Entry1, N2After1)) { PlaceNamed(N2Field1, Start, Layout(2, 2, []), 0); }
  lemma N2Place2() ensures Place(N2Field2, N2After1) == Ok((N2Entry2, N2After2)) { PlaceNamed(N2Field2, N2After1, Layout(2, 2, []), 2); }

  lemma N2Fold()
    ensures Fold(N2Fields1, Start) == Ok((N2Entries1, N2After2))
  {
    N2Place2(); FoldOne(N2Field2, N2After1, N2Entry2, N2After2);
    N2Place1(); FoldCons(N2Field1, N2Fields2, Start, N2Entry1, N2After1, N2Entries2, N2After2);
  }

  lemma N2End()
    ensures Close(N2After2).align == 2 && AlignUp(Close(N2After2).bytes, 2) == 4
  {
  }

  lemma N2Struct()
    ensures StructLayout(N2Fields1) == Ok(Layout(4, 2, N2Entries1))
  {
    N2Fold();
    N2End();
    StructFromFold(N2Fields1, N2Entries1, N2After2, 4, 2);
  }

  /** `class ns2::c`: two `short` members, back to back. */
  lemma N2Layout()
    ensures LayoutOf(Ns2C) == Ok(Layout(4, 2, N2Entries1))
  {
    N2Struct();
    AggOf(Class, Some(["ns2", "c"]), N2Fields1, Layout(4, 2, N2Entries1));
  }

  lemma N2Gaps()
    ensures Gaps(N2Entries1, 0, 0, 32) == []
  {
    assert Gaps(N2Entries2, 1, 16, 32) == [];
  }

  lemma N2Flat()
    ensures Inner(N2Entries1, 0) == []
  {
    assert Inner(N2Entries2, 1) == [];
  }

  /** `class ns2::c` has no hole. */
  lemma N2Holes()
    ensures LayoutOf(Ns2C).Ok? && HolesOf(Ns2C) == []
  {
    N2Layout();
    N2Gaps();
    N2Flat();
    assert Gaps(N2Entries1, 0, 0, 32) + Inner(N2Entries1, 0) == [];
  }

  lemma N2Leaves()
    ensures ReachedAll(N2Fields1) == {}
  {
    assert ReachedAll(N2Fields2) == {};
  }

  /** `class ns2::c` is reported under its qualified name. */
  lemma N2Blocks()
    ensures Reached(Ns2C, None) == {Block(Class, "ns2::c", N2Fields1)}
  {
    N2Leaves();
    assert QualifiedName(["c"]) == "c";
    assert QualifiedName(["ns2", "c"]) == "ns2::c";
  }

  // class ns2::ns2_2::c

  const Ns22C: Type := Agg(Class, Some(["ns2", "ns2_2", "c"]), N22Fields1)

  const N22Field1 := Member("field1", Scalar(LongLong))
  const N22Field2 := Member("field2", Scalar(LongLong))

  const N22Fields2: seq<Field> := [N22Field2]
  const N22Fields1: seq<Field> := [N22Field1] + N22Fields2

  const N22Entry1 := Placed("field1", 8, 8, 0, None)
  const N22Entry2 := Placed("field2", 8, 8, 8, None)

  const N22Entries2: seq<Entry> := [N22Entry2]
  const N22Entries1: seq<Entry> := [N22Entry1] + N22Entries2

  // The cursor after each member.
  const N22After1 := Cursor(8, None, 8)
  const N22After2 := Cursor(16, None, 8)

  lemma N22Place1() ensures Place(N22Field1, Start) == Ok((N22Entry1, N22After1)) { PlaceNamed(N22Field1, Start, Layout(8, 8, []), 0); }
  lemma N22Place2() ensures Place(N22Field2, N22After1) == Ok((N22Entry2, N22After2)) { PlaceNamed(N22Field2, N22After1, Layout(8, 8, []), 8); }

  lemma N22Fold()
    ensures Fold(N22Fields1, Start) == Ok((N22Entries1, N22After2))
  {
    N22Place2(); FoldOne(N22Field2, N22After1, N22Entry2, N22After2);
    N22Place1(); FoldCons(N22Field1, N22Fields2, Start, N22Entry1, N22After1, N22Entries2, N22After2);
  }

  lemma N22End()
    ensures Close(N22After2).align == 8 && AlignUp(Close(N22After2).bytes, 8) == 16
  {
  }

  lemma N22Struct()
    ensures StructLayout(N22Fields1) == Ok(Layout(16, 8, N22Entries1))
  {
    N22Fold();
    N22End();
    StructFromFold(N22Fields1, N22Entries1, N22After2, 16, 8);
  }

  /** `class ns2::ns2_2::c`: two `long long` members, back to back. */
  lemma N22Layout()
    ensures LayoutOf(Ns22C) == Ok(Layout(16, 8, N22Entries1))
  {
    N22Struct();
    AggOf(Class, Some(["ns2", "ns2_2", "c"]), N22Fields1, Layout(16, 8, N22Entries1));
  }

  lemma N22Gaps()
    ensures Gaps(N22Entries1, 0, 0, 128) == []
  {
    assert Gaps(N22Entries2, 1, 64, 128) == [];
  }

  lemma N22Flat()
    ensures Inner(N22Entries1, 0) == []
  {
    assert Inner(N22Entries2, 1) == [];
  }

  /** `class ns2::ns2_2::c` has no hole. */
  lemma N22Holes()
    ensures LayoutOf(Ns22C).Ok? && HolesOf(Ns22C) == []
  {
    N22Layout();
    N22Gaps();
    N22Flat();
    assert Gaps(N22Entries1, 0, 0, 128) + Inner(N22Entries1, 0) == [];
  }

  lemma N22Leaves()
    ensures ReachedAll(N22Fields1) == {}
  {
    assert ReachedAll(N22Fields2) == {};
  }

  /** `class ns2::ns2_2::c` is reported under its qualified name. */
  lemma N22Blocks()
    ensures Reached(Ns22C, None) == {Block(Class, "ns2::ns2_2::c", N22Fields1)}
  {
    N22Leaves();
    assert QualifiedName(["c"]) == "c";
    assert QualifiedName(["ns2_2", "c"]) == "ns2_2::c";
    assert QualifiedName(["ns2", "ns2_2", "c"]) == "ns2::ns2_2::c";
  }

  /** The report on the four overloads of `t` has four blocks, one per class. */
  lemma ReportOfT()
    ensures ReportBlocks([Ns1C, Ns12C, Ns2C, Ns22C]) ==
      {Block(Class, "ns1::c", N1Fields1), Block(Class, "ns1::ns1_2::c", N12Fields1), Block(Class, "ns2::c", N2Fields1), Block(Class, "ns2::ns2_2::c", N22Fields1)}
  {
    N1Blocks();
    N12Blocks();
    N2Blocks();
    N22Blocks();
    assert [Ns1C, Ns12C, Ns2C, Ns22C][1..] == [Ns12C, Ns2C, Ns22C] && [Ns12C, Ns2C, Ns22C][1..] == [Ns2C, Ns22C] && [Ns2C, Ns22C][1..] == [Ns22C] && [Ns22C][1..] == [];
    assert ReportBlocks([Ns22C]) == {Block(Class, "ns2::ns2_2::c", N22Fields1)};
    assert ReportBlocks([Ns2C, Ns22C]) == {Block(Class, "ns2::c", N2Fields1), Block(Class, "ns2::ns2_2::c", N22Fields1)};
    assert ReportBlocks([Ns12C, Ns2C, Ns22C]) == {Block(Class, "ns1::ns1_2::c", N12Fields1), Block(Class, "ns2::c", N2Fields1), Block(Class, "ns2::ns2_2::c", N22Fields1)};
  }

  /** The four tags differ, so their qualified names do too. */
  lemma DistinctNames()
    ensures forall p, q ::
      p in [Ns1C.tag.value, Ns12C.tag.value, Ns2C.tag.value, Ns22C.tag.value] &&
      q in [Ns1C.tag.value, Ns12C.tag.value, Ns2C.tag.value, Ns22C.tag.value] && p != q ==>
      QualifiedName(p) != QualifiedName(q)
  {
    forall p, q | p in [Ns1C.tag.value, Ns12C.tag.value, Ns2C.tag.value, Ns22C.tag.value] &&
      q in [Ns1C.tag.value, Ns12C.tag.value, Ns2C.tag.value, Ns22C.tag.value] && p != q
      ensures QualifiedName(p) != QualifiedName(q)
    {
      assert WellFormedPath(p) && WellFormedPath(q);
      if QualifiedName(p) == QualifiedName(q) {
        QualifiedNameInjective(p, q);
      }
    }
  }
}
