/** tests/gcc/nested_struct.c: `struct outer_struct` holds a `struct
    inner_struct` by value. The inner struct is 8 bytes, since its `char`
    leaves 3 bytes of tail padding up to its alignment 4; the outer struct
    places it at 0 and the `unsigned int` after it at 8. The report lays out
    both structs. */
module NestedStruct {
  import opened Common
  import opened Abi
  import opened Types
  import opened Resolver
  import opened Stepwise
  import opened Holes
  import opened Blocks

  // struct inner_struct

  const InnerStruct: Type := Agg(Struct, Some(["inner_struct"]), InFields1)

  const InField1 := Member("inner_field1", Scalar(Int))
  const InField2 := Member("inner_field2", Scalar(Char))

  const InFields2: seq<Field> := [InField2]
  const InFields1: seq<Field> := [InField1] + InFields2

  const InEntry1 := Placed("inner_field1", 4, 4, 0, None)
  const InEntry2 := Placed("inner_field2", 1, 1, 4, None)

  const InEntries2: seq<Entry> := [InEntry2]
  const InEntries1: seq<Entry> := [InEntry1] + InEntries2

  // The cursor after each member.
  const InAfter1 := Cursor(4, None, 4)
  const InAfter2 := Cursor(5, None, 4)

  lemma InPlace1() ensures Place(InField1, Start) == Ok((InEntry1, InAfter1)) { PlaceNamed(InField1, Start, Layout(4, 4, []), 0); }
  lemma InPlace2() ensures Place(InField2, InAfter1) == Ok((InEntry2, InAfter2)) { PlaceNamed(InField2, InAfter1, Layout(1, 1, []), 4); }

  lemma InFold()
    ensures Fold(InFields1, Start) == Ok((InEntries1, InAfter2))
  {
    InPlace2(); FoldOne(InField2, InAfter1, InEntry2, InAfter2);
    InPlace1(); FoldCons(InField1, InFields2, Start, InEntry1, InAfter1, InEntries2, InAfter2);
  }

  lemma InEnd()
    ensures Close(InAfter2).align == 4 && AlignUp(Close(InAfter2).bytes, 4) == 8
  {
  }

  lemma InStruct()
    ensures StructLayout(InFields1) == Ok(Layout(8, 4, InEntries1))
  {
    InFold();
    InEnd();
    StructFromFold(InFields1, InEntries1, InAfter2, 8, 4);
  }

  /** `struct inner_struct`: the `int` at 0, the `char` at 4, and 8 bytes. */
  lemma InLayout()
    ensures LayoutOf(InnerStruct) == Ok(Layout(8, 4, InEntries1))
  {
    InStruct();
    AggOf(Struct, Some(["inner_struct"]), InFields1, Layout(8, 4, InEntries1));
  }

  lemma InGaps()
    ensures Gaps(InEntries1, 0, 0, 64) == [Hole([2], 3, 0)]
  {
    assert Gaps(InEntries2, 1, 32, 64) == [Hole([2], 3, 0)];
  }

  lemma InFlat()
    ensures Inner(InEntries1, 0) == []
  {
    assert Inner(InEntries2, 1) == [];
  }

  /** `struct inner_struct` ends with 3 bytes of padding after its `char`, a
      trailing hole that the gcc report does not print. */
  lemma InHoles()
    ensures LayoutOf(InnerStruct).Ok? && HolesOf(InnerStruct) == [Hole([2], 3, 0)]
  {
    InLayout();
    InGaps();
    InFlat();
    assert Gaps(InEntries1, 0, 0, 64) + Inner(InEntries1, 0) == [Hole([2], 3, 0)];
  }

  lemma InLeaves()
    ensures ReachedAll(InFields1) == {}
  {
    assert ReachedAll(InFields2) == {};
  }

  /** `struct inner_struct` is one block. */
  lemma InBlocks()
    ensures Reached(InnerStruct, None) == {Block(Struct, "inner_struct", InFields1)}
  {
    InLeaves();
  }

  // struct outer_struct

  const OuterStruct: Type := Agg(Struct, Some(["outer_struct"]), OutFields1)

  const OutField1 := Member("field_ins1", InnerStruct)
  const OutField2 := Member("field2", Scalar(UnsignedInt))

  const OutFields2: seq<Field> := [OutField2]
  const OutFields1: seq<Field> := [OutField1] + OutFields2

  const OutEntry1 := Placed("field_ins1", 8, 4, 0, None)
  const OutEntry2 := Placed("field2", 4, 4, 8, None)

  const OutEntries2: seq<Entry> := [OutEntry2]
  const OutEntries1: seq<Entry> := [OutEntry1] + OutEntries2

  // The cursor after each member.
  const OutAfter1 := Cursor(8, None, 4)
  const OutAfter2 := Cursor(12, None, 4)

  lemma OutPlace1() ensures Place(OutField1, Start) == Ok((OutEntry1, OutAfter1)) { InLayout(); PlaceNamed(OutField1, Start, Layout(8, 4, InEntries1), 0); }
  lemma OutPlace2() ensures Place(OutField2, OutAfter1) == Ok((OutEntry2, OutAfter2)) { PlaceNamed(OutField2, OutAfter1, Layout(4, 4, []), 8); }

  lemma OutFold()
    ensures Fold(OutFields1, Start) == Ok((OutEntries1, OutAfter2))
  {
    OutPlace2(); FoldOne(OutField2, OutAfter1, OutEntry2, OutAfter2);
    OutPlace1(); FoldCons(OutField1, OutFields2, Start, OutEntry1, OutAfter1, OutEntries2, OutAfter2);
  }

  lemma OutEnd()
    ensures Close(OutAfter2).align == 4 && AlignUp(Close(OutAfter2).bytes, 4) == 12
  {
  }

  lemma OutStruct()
    ensures StructLayout(OutFields1) == Ok(Layout(12, 4, OutEntries1))
  {
    OutFold();
    OutEnd();
    StructFromFold(OutFields1, OutEntries1, OutAfter2, 12, 4);
  }

  /** `struct outer_struct`: the inner struct at 0 with its 8 bytes, the
      `unsigned int` at 8, and 12 bytes. */
  lemma OutLayout()
    ensures LayoutOf(OuterStruct) == Ok(Layout(12, 4, OutEntries1))
  {
    OutStruct();
    AggOf(Struct, Some(["outer_struct"]), OutFields1, Layout(12, 4, OutEntries1));
  }

  lemma OutGaps()
    ensures Gaps(OutEntries1, 0, 0, 96) == []
  {
    assert Gaps(OutEntries2, 1, 64, 96) == [];
  }

  lemma OutFlat()
    ensures Inner(OutEntries1, 0) == []
  {
    assert Inner(OutEntries2, 1) == [];
  }

  /** `struct outer_struct` has no hole of its own: the inner struct is a named
      member, whose padding belongs to its own block. */
  lemma OutHoles()
    ensures LayoutOf(OuterStruct).Ok? && HolesOf(OuterStruct) == []
  {
    OutLayout();
    OutGaps();
    OutFlat();
    assert Gaps(OutEntries1, 0, 0, 96) + Inner(OutEntries1, 0) == [];
  }

  lemma OutLeaves()
    ensures ReachedAll(OutFields1) == {Block(Struct, "inner_struct", InFields1)}
  {
    InBlocks();
    assert ReachedAll(OutFields2) == {};
  }

  /** The outer struct brings its own block and that of the inner struct. */
  lemma OutBlocks()
    ensures Reached(OuterStruct, None) == {Block(Struct, "outer_struct", OutFields1), Block(Struct, "inner_struct", InFields1)}
  {
    OutLeaves();
  }

  /** The report on `t` lays out both structs. */
  lemma ReportOfT()
    ensures ReportBlocks([OuterStruct]) ==
      {Block(Struct, "outer_struct", OutFields1), Block(Struct, "inner_struct", InFields1)}
  {
    OutBlocks();
    assert [OuterStruct][1..] == [];
  }

}
