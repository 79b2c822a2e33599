/** `struct vec3`, three `float`s, as tests/union_uneven_members.c and
    tests/union_with_structs.c both declare it: the floats at 0, 4 and 8, and
    12 bytes with alignment 4. Floating-point types enter the model only
    through their size and alignment. */
module Vec3 {
  import opened Common
  import opened Abi
  import opened Types
  import opened Resolver
  import opened Stepwise
  import opened Holes
  import opened Blocks

  const Vec3Struct: Type := Agg(Struct, Some(["vec3"]), VFields1)

  const VField1 := Member("x", Scalar(Float))
  const VField2 := Member("y", Scalar(Float))
  const VField3 := Member("z", Scalar(Float))

  const VFields3: seq<Field> := [VField3]
  const VFields2: seq<Field> := [VField2] + VFields3
  const VFields1: seq<Field> := [VField1] + VFields2

  const VEntry1 := Placed("x", 4, 4, 0, None)
  const VEntry2 := Placed("y", 4, 4, 4, None)
  const VEntry3 := Placed("z", 4, 4, 8, None)

  const VEntries3: seq<Entry> := [VEntry3]
  const VEntries2: seq<Entry> := [VEntry2] + VEntries3
  const VEntries1: seq<Entry> := [VEntry1] + VEntries2

  // The cursor after each member.
  const VAfter1 := Cursor(4, None, 4)
  const VAfter2 := Cursor(8, None, 4)
  const VAfter3 := Cursor(12, None, 4)

  lemma VPlace1() ensures Place(VField1, Start) == Ok((VEntry1, VAfter1)) { PlaceNamed(VField1, Start, Layout(4, 4, []), 0); }
  lemma VPlace2() ensures Place(VField2, VAfter1) == Ok((VEntry2, VAfter2)) { PlaceNamed(VField2, VAfter1, Layout(4, 4, []), 4); }
  lemma VPlace3() ensures Place(VField3, VAfter2) == Ok((VEntry3, VAfter3)) { PlaceNamed(VField3, VAfter2, Layout(4, 4, []), 8); }

  lemma VFold()
    ensures Fold(VFields1, Start) == Ok((VEntries1, VAfter3))
  {
    VPlace3(); FoldOne(VField3, VAfter2, VEntry3, VAfter3);
    VPlace2(); FoldCons(VField2, VFields3, VAfter1, VEntry2, VAfter2, VEntries3, VAfter3);
    VPlace1(); FoldCons(VField1, VFields2, Start, VEntry1, VAfter1, VEntries2, VAfter3);
  }

  lemma VEnd()
    ensures Close(VAfter3).align == 4 && AlignUp(Close(VAfter3).bytes, 4) == 12
  {
  }

  lemma VStruct()
    ensures StructLayout(VFields1) == Ok(Layout(12, 4, VEntries1))
  {
    VFold();
    VEnd();
    StructFromFold(VFields1, VEntries1, VAfter3, 12, 4);
  }

  /** `struct vec3`: `x`, `y` and `z` at 0, 4 and 8; 12 bytes. */
  lemma VLayout()
    ensures LayoutOf(Vec3Struct) == Ok(Layout(12, 4, VEntries1))
  {
    VStruct();
    AggOf(Struct, Some(["vec3"]), VFields1, Layout(12, 4, VEntries1));
  }

  lemma VGaps()
    ensures Gaps(VEntries1, 0, 0, 96) == []
  {
    assert Gaps(VEntries3, 2, 64, 96) == [];
    assert Gaps(VEntries2, 1, 32, 96) == [];
  }

  lemma VFlat()
    ensures Inner(VEntries1, 0) == []
  {
    assert Inner(VEntries3, 2) == [];
    assert Inner(VEntries2, 1) == [];
  }

  /** `struct vec3` has no hole. */
  lemma VHoles()
    ensures LayoutOf(Vec3Struct).Ok? && HolesOf(Vec3Struct) == []
  {
    VLayout();
    VGaps();
    VFlat();
    assert Gaps(VEntries1, 0, 0, 96) + Inner(VEntries1, 0) == [];
  }

  lemma VLeaves()
    ensures ReachedAll(VFields1) == {}
  {
    assert ReachedAll(VFields3) == {};
    assert ReachedAll(VFields2) == {};
  }

  /** `struct vec3` is one block. */
  lemma VBlocks()
    ensures Reached(Vec3Struct, None) == {Block(Struct, "vec3", VFields1)}
  {
    VLeaves();
  }
}
