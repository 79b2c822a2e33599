/** tests/common/zero_sized_array.c: `struct zero_sized` ends in three
    zero-length arrays. Each takes no bytes but is still aligned: the `float`
    array stands at 4, right after the `int`, while the two arrays of 8-byte
    elements, reached through typedefs, are moved to 8. The struct is 8 bytes.
    */
module ZeroSizedArray {
  import opened Common
  import opened Abi
  import opened Types
  import opened Resolver
  import opened Stepwise
  import opened Holes
  import opened Blocks

  const ZeroSized: Type := Agg(Struct, Some(["zero_sized"]), ZFields1)

  const ZField1 := Member("count", Scalar(Int))
  const ZField2 := Member("dynamic_levels", Array(Scalar(Float), 0))
  const ZField3 := Member("z1", Typedef("ZeroMarker", Array(Pointer(Void), 0)))
  const ZField4 := Member("z2", Typedef("ZeroMarker64", Array(Typedef("uint64_t", Scalar(UnsignedLong)), 0)))

  const ZFields4: seq<Field> := [ZField4]
  const ZFields3: seq<Field> := [ZField3] + ZFields4
  const ZFields2: seq<Field> := [ZField2] + ZFields3
  const ZFields1: seq<Field> := [ZField1] + ZFields2

  const ZEntry1 := Placed("count", 4, 4, 0, None)
  const ZEntry2 := Placed("dynamic_levels", 0, 4, 4, None)
  const ZEntry3 := Placed("z1", 0, 8, 8, None)
  const ZEntry4 := Placed("z2", 0, 8, 8, None)

  const ZEntries4: seq<Entry> := [ZEntry4]
  const ZEntries3: seq<Entry> := [ZEntry3] + ZEntries4
  const ZEntries2: seq<Entry> := [ZEntry2] + ZEntries3
  const ZEntries1: seq<Entry> := [ZEntry1] + ZEntries2

  // The cursor after each member.
  const ZAfter1 := Cursor(4, None, 4)
  const ZAfter2 := Cursor(4, None, 4)
  const ZAfter3 := Cursor(8, None, 8)
  const ZAfter4 := Cursor(8, None, 8)

  lemma ZPlace1() ensures Place(ZField1, Start) == Ok((ZEntry1, ZAfter1)) { PlaceNamed(ZField1, Start, Layout(4, 4, []), 0); }
  lemma ZPlace2() ensures Place(ZField2, ZAfter1) == Ok((ZEntry2, ZAfter2)) { PlaceNamed(ZField2, ZAfter1, Layout(0, 4, []), 4); }
  lemma ZPlace3() ensures Place(ZField3, ZAfter2) == Ok((ZEntry3, ZAfter3)) { PlaceNamed(ZField3, ZAfter2, Layout(0, 8, []), 8); }
  lemma ZPlace4() ensures Place(ZField4, ZAfter3) == Ok((ZEntry4, ZAfter4)) { PlaceNamed(ZField4, ZAfter3, Layout(0, 8, []), 8); }

  lemma ZFold()
    ensures Fold(ZFields1, Start) == Ok((ZEntries1, ZAfter4))
  {
    ZPlace4(); FoldOne(ZField4, ZAfter3, ZEntry4, ZAfter4);
    ZPlace3(); FoldCons(ZField3, ZFields4, ZAfter2, ZEntry3, ZAfter3, ZEntries4, ZAfter4);
    ZPlace2(); FoldCons(ZField2, ZFields3, ZAfter1, ZEntry2, ZAfter2, ZEntries3, ZAfter4);
    ZPlace1(); FoldCons(ZField1, ZFields2, Start, ZEntry1, ZAfter1, ZEntries2, ZAfter4);
  }

  lemma ZEnd()
    ensures Close(ZAfter4).align == 8 && AlignUp(Close(ZAfter4).bytes, 8) == 8
  {
  }

  lemma ZStruct()
    ensures StructLayout(ZFields1) == Ok(Layout(8, 8, ZEntries1))
  {
    ZFold();
    ZEnd();
    StructFromFold(ZFields1, ZEntries1, ZAfter4, 8, 8);
  }

  /** `struct zero_sized`: `count` at 0, `dynamic_levels` at 4, `z1` and `z2` at
      8, all three arrays 0 bytes long; the struct is 8 bytes with alignment 8. */
  lemma ZLayout()
    ensures LayoutOf(ZeroSized) == Ok(Layout(8, 8, ZEntries1))
  {
    ZStruct();
    AggOf(Struct, Some(["zero_sized"]), ZFields1, Layout(8, 8, ZEntries1));
  }

  lemma ZGaps()
    ensures Gaps(ZEntries1, 0, 0, 64) == [Hole([2], 4, 0)]
  {
    assert Gaps(ZEntries4, 3, 64, 64) == [];
    assert Gaps(ZEntries3, 2, 32, 64) == [Hole([2], 4, 0)];
    assert Gaps(ZEntries2, 1, 32, 64) == [Hole([2], 4, 0)];
  }

  lemma ZFlat()
    ensures Inner(ZEntries1, 0) == []
  {
    assert Inner(ZEntries4, 3) == [];
    assert Inner(ZEntries3, 2) == [];
    assert Inner(ZEntries2, 1) == [];
  }

  /** Aligning `z1` to 8 leaves 4 bytes unused after `dynamic_levels`; the
      report does not print this hole. */
  lemma ZHoles()
    ensures LayoutOf(ZeroSized).Ok? && HolesOf(ZeroSized) == [Hole([2], 4, 0)]
  {
    ZLayout();
    ZGaps();
    ZFlat();
    assert Gaps(ZEntries1, 0, 0, 64) + Inner(ZEntries1, 0) == [Hole([2], 4, 0)];
  }

  lemma ZLeaves()
    ensures ReachedAll(ZFields1) == {}
  {
    assert ReachedAll(ZFields4) == {};
    assert ReachedAll(ZFields3) == {};
    assert ReachedAll(ZFields2) == {};
  }

  /** `struct zero_sized` is one block: arrays of scalars and pointers bring
      none. */
  lemma ZBlocks()
    ensures Reached(ZeroSized, None) == {Block(Struct, "zero_sized", ZFields1)}
  {
    ZLeaves();
  }

  /** Declared through a typedef, a zero-length array is laid out as the
      array itself: no bytes, the alignment of its element type. */
  lemma ZMarkers()
    ensures LayoutOf(ZField3.ty) == LayoutOf(Array(Pointer(Void), 0)) == Ok(Layout(0, 8, []))
    ensures LayoutOf(ZField4.ty) == LayoutOf(Array(Scalar(UnsignedLong), 0)) == Ok(Layout(0, 8, []))
  {
  }
}
