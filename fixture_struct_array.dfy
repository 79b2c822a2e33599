/** tests/gcc/struct_array.c and tests/zig_cc/struct_array.c: `struct
    array` holds four `struct nested_struct` by value. The array member is 64
    bytes, four times the element's 16, with the element's alignment; the
    report lays out the element type too, though the two toolchains list the
    blocks in different orders. */
module StructArray {
  import opened Common
  import opened Abi
  import opened Types
  import opened Resolver
  import opened Stepwise
  import opened Holes
  import opened Blocks

  // struct nested_struct

  const NestedStruct: Type := Agg(Struct, Some(["nested_struct"]), NeFields1)

  const NeField1 := Member("length", Scalar(UnsignedLongLong))
  const NeField2 := Member("data", Pointer(Void))

  const NeFields2: seq<Field> := [NeField2]
  const NeFields1: seq<Field> := [NeField1] + NeFields2

  const NeEntry1 := Placed("length", 8, 8, 0, None)
  const NeEntry2 := Placed("data", 8, 8, 8, None)

  const NeEntries2: seq<Entry> := [NeEntry2]
  const NeEntries1: seq<Entry> := [NeEntry1] + NeEntries2

  // The cursor after each member.
  const NeAfter1 := Cursor(8, None, 8)
  const NeAfter2 := Cursor(16, None, 8)

  lemma NePlace1() ensures Place(NeField1, Start) == Ok((NeEntry1, NeAfter1)) { PlaceNamed(NeField1, Start, Layout(8, 8, []), 0); }
  lemma NePlace2() ensures Place(NeField2, NeAfter1) == Ok((NeEntry2, NeAfter2)) { PlaceNamed(NeField2, NeAfter1, Layout(8, 8, []), 8); }

  lemma NeFold()
    ensures Fold(NeFields1, Start) == Ok((NeEntries1, NeAfter2))
  {
    NePlace2(); FoldOne(NeField2, NeAfter1, NeEntry2, NeAfter2);
    NePlace1(); FoldCons(NeField1, NeFields2, Start, NeEntry1, NeAfter1, NeEntries2, NeAfter2);
  }

  lemma NeEnd()
    ensures Close(NeAfter2).align == 8 && AlignUp(Close(NeAfter2).bytes, 8) == 16
  {
  }

  lemma NeStruct()
    ensures StructLayout(NeFields1) == Ok(Layout(16, 8, NeEntries1))
  {
    NeFold();
    NeEnd();
    StructFromFold(NeFields1, NeEntries1, NeAfter2, 16, 8);
  }

  /** `struct nested_struct`: the `unsigned long long` at 0 and the `void *` at
      8; 16 bytes. */
  lemma NeLayout()
    ensures LayoutOf(NestedStruct) == Ok(Layout(16, 8, NeEntries1))
  {
    NeStruct();
    AggOf(Struct, Some(["nested_struct"]), NeFields1, Layout(16, 8, NeEntries1));
  }

  lemma NeGaps()
    ensures Gaps(NeEntries1, 0, 0, 128) == []
  {
    assert Gaps(NeEntries2, 1, 64, 128) == [];
  }

  lemma NeFlat()
    ensures Inner(NeEntries1, 0) == []
  {
    assert Inner(NeEntries2, 1) == [];
  }

  /** `struct nested_struct` has no hole. */
  lemma NeHoles()
    ensures LayoutOf(NestedStruct).Ok? && HolesOf(NestedStruct) == []
  {
    NeLayout();
    NeGaps();
    NeFlat();
    assert Gaps(NeEntries1, 0, 0, 128) + Inner(NeEntries1, 0) == [];
  }

  lemma NeLeaves()
    ensures ReachedAll(NeFields1) == {}
  {
    assert ReachedAll(NeFields2) == {};
  }

  /** `struct nested_struct` is one block: its pointer brings none. */
  lemma NeBlocks()
    ensures Reached(NestedStruct, None) == {Block(Struct, "nested_struct", NeFields1)}
  {
    NeLeaves();
  }

  // struct array

  const ArrayStruct: Type := Agg(Struct, Some(["array"]), ArFields1)

  const ArField1 := Member("field1", Array(NestedStruct, 4))

  const ArFields1: seq<Field> := [ArField1]

  const ArEntry1 := Placed("field1", 64, 8, 0, None)

  const ArEntries1: seq<Entry> := [ArEntry1]

  // The cursor after each member.
  const ArAfter1 := Cursor(64, None, 8)

  lemma ArPlace1() ensures Place(ArField1, Start) == Ok((ArEntry1, ArAfter1)) { NeLayout(); PlaceNamed(ArField1, Start, Layout(64, 8, []), 0); }

  lemma ArFold()
    ensures Fold(ArFields1, Start) == Ok((ArEntries1, ArAfter1))
  {
    ArPlace1(); FoldOne(ArField1, Start, ArEntry1, ArAfter1);
  }

  lemma ArEnd()
    ensures Close(ArAfter1).align == 8 && AlignUp(Close(ArAfter1).bytes, 8) == 64
  {
  }

  lemma ArStruct()
    ensures StructLayout(ArFields1) == Ok(Layout(64, 8, ArEntries1))
  {
    ArFold();
    ArEnd();
    StructFromFold(ArFields1, ArEntries1, ArAfter1, 64, 8);
  }

  /** `struct array`: the array of four structs at 0, 64 bytes long; the struct
      is 64 bytes. */
  lemma ArLayout()
    ensures LayoutOf(ArrayStruct) == Ok(Layout(64, 8, ArEntries1))
  {
    ArStruct();
    AggOf(Struct, Some(["array"]), ArFields1, Layout(64, 8, ArEntries1));
  }

  lemma ArGaps()
    ensures Gaps(ArEntries1, 0, 0, 512) == []
  {
  }

  lemma ArFlat()
    ensures Inner(ArEntries1, 0) == []
  {
  }

  /** `struct array` has no hole. */
  lemma ArHoles()
    ensures LayoutOf(ArrayStruct).Ok? && HolesOf(ArrayStruct) == []
  {
    ArLayout();
    ArGaps();
    ArFlat();
    assert Gaps(ArEntries1, 0, 0, 512) + Inner(ArEntries1, 0) == [];
  }

  lemma ArLeaves()
    ensures ReachedAll(ArFields1) == {Block(Struct, "nested_struct", NeFields1)}
  {
    NeBlocks(); assert ReachedBy(ArField1) == {Block(Struct, "nested_struct", NeFields1)};
  }

  /** An array member brings the blocks of its element type: `struct array`
      brings its own and that of `struct nested_struct`. */
  lemma ArBlocks()
    ensures Reached(ArrayStruct, None) == {Block(Struct, "array", ArFields1), Block(Struct, "nested_struct", NeFields1)}
  {
    ArLeaves();
  }

  /** The report on `t` lays out `struct array` and `struct nested_struct`, in
      whatever order. */
  lemma ReportOfT()
    ensures ReportBlocks([ArrayStruct]) ==
      {Block(Struct, "array", ArFields1), Block(Struct, "nested_struct", NeFields1)}
  {
    ArBlocks();
    assert [ArrayStruct][1..] == [];
  }

}
