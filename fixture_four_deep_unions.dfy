/** tests/four_deep_inline_unions.c: `union u` nests three anonymous
    unions. Every member of a union is at offset 0, and so is every member of
    an anonymous union inside it, at every depth; each level is 8 bytes, the
    size of its pointers or `double`s. Only `union u` has a block.

    The levels are built from the innermost out: `PointerUnion` (entries
    `Pu`), `CharUnion` (entries `Cu`), `DoubleUnion` (entries `Du`) and
    `FourDeepUnions` (entries `U`). */
module FourDeepUnions {
  import opened Common
  import opened Abi
  import opened Types
  import opened Resolver
  import opened Stepwise
  import opened Holes
  import opened Blocks

  // union { void *f7; char *f8; }

  const PointerUnion: Type := Agg(Union, None, PuFields1)

  const PuField1 := Member("f7", Pointer(Void))
  const PuField2 := Member("f8", Pointer(Scalar(Char)))

  const PuFields2: seq<Field> := [PuField2]
  const PuFields1: seq<Field> := [PuField1] + PuFields2

  const PuEntry1 := Placed("f7", 8, 8, 0, None)
  const PuEntry2 := Placed("f8", 8, 8, 0, None)

  const PuEntries2: seq<Entry> := [PuEntry2]
  const PuEntries1: seq<Entry> := [PuEntry1] + PuEntries2

  lemma PuMember1() ensures MemberLayout(PuField1) == Ok(Layout(8, 8, [])) && EntryAt(PuField1, Layout(8, 8, []), 0) == PuEntry1 {}
  lemma PuMember2() ensures MemberLayout(PuField2) == Ok(Layout(8, 8, [])) && EntryAt(PuField2, Layout(8, 8, []), 0) == PuEntry2 {}

  lemma PuFold()
    ensures UnionFold(PuFields1, 0, 1) == Ok((PuEntries1, 8, 8))
  {
    PuMember2(); UnionOne(PuField2, 8, 8, Layout(8, 8, []));
    PuMember1(); UnionCons(PuField1, PuFields2, 0, 1, Layout(8, 8, []), PuEntries2, 8, 8);
  }

  lemma PuEnd()
    ensures AlignUp(8, 8) == 8
  {
  }

  lemma PuUnion()
    ensures UnionLayout(PuFields1) == Ok(Layout(8, 8, PuEntries1))
  {
    PuFold();
    PuEnd();
    UnionFromFold(PuFields1, PuEntries1, 8, 8, 8);
  }

  /** The innermost union: both pointers at 0; 8 bytes. */
  lemma PuLayout()
    ensures LayoutOf(PointerUnion) == Ok(Layout(8, 8, PuEntries1))
  {
    PuUnion();
    AggOf(Union, None, PuFields1, Layout(8, 8, PuEntries1));
  }
  lemma PuLeaves()
    ensures ReachedAll(PuFields1) == {}
  {
    assert ReachedAll(PuFields2) == {};
  }

  // union { char f5; char f6; union { ... }; }

  const CharUnion: Type := Agg(Union, None, CuFields1)

  const CuField1 := Member("f5", Scalar(Char))
  const CuField2 := Member("f6", Scalar(Char))
  const CuField3 := Anonymous(PointerUnion)

  const CuFields3: seq<Field> := [CuField3]
  const CuFields2: seq<Field> := [CuField2] + CuFields3
  const CuFields1: seq<Field> := [CuField1] + CuFields2

  const CuEntry1 := Placed("f5", 1, 1, 0, None)
  const CuEntry2 := Placed("f6", 1, 1, 0, None)
  const CuEntry3 := Inline(Union, 8, 8, 0, PuEntries1)

  const CuEntries3: seq<Entry> := [CuEntry3]
  const CuEntries2: seq<Entry> := [CuEntry2] + CuEntries3
  const CuEntries1: seq<Entry> := [CuEntry1] + CuEntries2

  lemma CuMember1() ensures MemberLayout(CuField1) == Ok(Layout(1, 1, [])) && EntryAt(CuField1, Layout(1, 1, []), 0) == CuEntry1 {}
  lemma CuMember2() ensures MemberLayout(CuField2) == Ok(Layout(1, 1, [])) && EntryAt(CuField2, Layout(1, 1, []), 0) == CuEntry2 {}
  lemma CuMember3() ensures MemberLayout(CuField3) == Ok(Layout(8, 8, PuEntries1)) && EntryAt(CuField3, Layout(8, 8, PuEntries1), 0) == CuEntry3 { PuLayout(); ShiftZero(PuEntries1); }

  lemma CuFold()
    ensures UnionFold(CuFields1, 0, 1) == Ok((CuEntries1, 8, 8))
  {
    CuMember3(); UnionOne(CuField3, 1, 1, Layout(8, 8, PuEntries1));
    CuMember2(); UnionCons(CuField2, CuFields3, 1, 1, Layout(1, 1, []), CuEntries3, 8, 8);
    CuMember1(); UnionCons(CuField1, CuFields2, 0, 1, Layout(1, 1, []), CuEntries2, 8, 8);
  }

  lemma CuEnd()
    ensures AlignUp(8, 8) == 8
  {
  }

  lemma CuUnion()
    ensures UnionLayout(CuFields1) == Ok(Layout(8, 8, CuEntries1))
  {
    CuFold();
    CuEnd();
    UnionFromFold(CuFields1, CuEntries1, 8, 8, 8);
  }

  /** The union of `char`s: everything at 0, and 8 bytes, the size of the
      pointer union inside it. */
  lemma CuLayout()
    ensures LayoutOf(CharUnion) == Ok(Layout(8, 8, CuEntries1))
  {
    CuUnion();
    AggOf(Union, None, CuFields1, Layout(8, 8, CuEntries1));
  }
  lemma CuLeaves()
    ensures ReachedAll(CuFields1) == {}
  {
    PuLeaves(); assert ReachedBy(CuField3) == {};
    assert ReachedAll(CuFields3) == {};
    assert ReachedAll(CuFields2) == {};
  }

  // union { double f3; double f4; union { ... }; }

  const DoubleUnion: Type := Agg(Union, None, DuFields1)

  const DuField1 := Member("f3", Scalar(Double))
  const DuField2 := Member("f4", Scalar(Double))
  const DuField3 := Anonymous(CharUnion)

  const DuFields3: seq<Field> := [DuField3]
  const DuFields2: seq<Field> := [DuField2] + DuFields3
  const DuFields1: seq<Field> := [DuField1] + DuFields2

  const DuEntry1 := Placed("f3", 8, 8, 0, None)
  const DuEntry2 := Placed("f4", 8, 8, 0, None)
  const DuEntry3 := Inline(Union, 8, 8, 0, CuEntries1)

  const DuEntries3: seq<Entry> := [DuEntry3]
  const DuEntries2: seq<Entry> := [DuEntry2] + DuEntries3
  const DuEntries1: seq<Entry> := [DuEntry1] + DuEntries2

  lemma DuMember1() ensures MemberLayout(DuField1) == Ok(Layout(8, 8, [])) && EntryAt(DuField1, Layout(8, 8, []), 0) == DuEntry1 {}
  lemma DuMember2() ensures MemberLayout(DuField2) == Ok(Layout(8, 8, [])) && EntryAt(DuField2, Layout(8, 8, []), 0) == DuEntry2 {}
  lemma DuMember3() ensures MemberLayout(DuField3) == Ok(Layout(8, 8, CuEntries1)) && EntryAt(DuField3, Layout(8, 8, CuEntries1), 0) == DuEntry3 { CuLayout(); ShiftZero(CuEntries1); }

  lemma DuFold()
    ensures UnionFold(DuFields1, 0, 1) == Ok((DuEntries1, 8, 8))
  {
    DuMember3(); UnionOne(DuField3, 8, 8, Layout(8, 8, CuEntries1));
    DuMember2(); UnionCons(DuField2, DuFields3, 8, 8, Layout(8, 8, []), DuEntries3, 8, 8);
    DuMember1(); UnionCons(DuField1, DuFields2, 0, 1, Layout(8, 8, []), DuEntries2, 8, 8);
  }

  lemma DuEnd()
    ensures AlignUp(8, 8) == 8
  {
  }

  lemma DuUnion()
    ensures UnionLayout(DuFields1) == Ok(Layout(8, 8, DuEntries1))
  {
    DuFold();
    DuEnd();
    UnionFromFold(DuFields1, DuEntries1, 8, 8, 8);
  }

  /** The union of `double`s: everything at 0; 8 bytes. */
  lemma DuLayout()
    ensures LayoutOf(DoubleUnion) == Ok(Layout(8, 8, DuEntries1))
  {
    DuUnion();
    AggOf(Union, None, DuFields1, Layout(8, 8, DuEntries1));
  }
  lemma DuLeaves()
    ensures ReachedAll(DuFields1) == {}
  {
    CuLeaves(); assert ReachedBy(DuField3) == {};
    assert ReachedAll(DuFields3) == {};
    assert ReachedAll(DuFields2) == {};
  }

  // union u

  const FourDeepU: Type := Agg(Union, Some(["u"]), UFields1)

  const UField1 := Member("f1", Scalar(Int))
  const UField2 := Member("f2", Scalar(Int))
  const UField3 := Anonymous(DoubleUnion)

  const UFields3: seq<Field> := [UField3]
  const UFields2: seq<Field> := [UField2] + UFields3
  const UFields1: seq<Field> := [UField1] + UFields2

  const UEntry1 := Placed("f1", 4, 4, 0, None)
  const UEntry2 := Placed("f2", 4, 4, 0, None)
  const UEntry3 := Inline(Union, 8, 8, 0, DuEntries1)

  const UEntries3: seq<Entry> := [UEntry3]
  const UEntries2: seq<Entry> := [UEntry2] + UEntries3
  const UEntries1: seq<Entry> := [UEntry1] + UEntries2

  lemma UMember1() ensures MemberLayout(UField1) == Ok(Layout(4, 4, [])) && EntryAt(UField1, Layout(4, 4, []), 0) == UEntry1 {}
  lemma UMember2() ensures MemberLayout(UField2) == Ok(Layout(4, 4, [])) && EntryAt(UField2, Layout(4, 4, []), 0) == UEntry2 {}
  lemma UMember3() ensures MemberLayout(UField3) == Ok(Layout(8, 8, DuEntries1)) && EntryAt(UField3, Layout(8, 8, DuEntries1), 0) == UEntry3 { DuLayout(); ShiftZero(DuEntries1); }

  lemma UFold()
    ensures UnionFold(UFields1, 0, 1) == Ok((UEntries1, 8, 8))
  {
    UMember3(); UnionOne(UField3, 4, 4, Layout(8, 8, DuEntries1));
    UMember2(); UnionCons(UField2, UFields3, 4, 4, Layout(4, 4, []), UEntries3, 8, 8);
    UMember1(); UnionCons(UField1, UFields2, 0, 1, Layout(4, 4, []), UEntries2, 8, 8);
  }

  lemma UEnd()
    ensures AlignUp(8, 8) == 8
  {
  }

  lemma UUnion()
    ensures UnionLayout(UFields1) == Ok(Layout(8, 8, UEntries1))
  {
    UFold();
    UEnd();
    UnionFromFold(UFields1, UEntries1, 8, 8, 8);
  }

  /** `union u`: the `int`s, the nested unions and all their members at offset
      0; 8 bytes. */
  lemma ULayout()
    ensures LayoutOf(FourDeepU) == Ok(Layout(8, 8, UEntries1))
  {
    UUnion();
    AggOf(Union, Some(["u"]), UFields1, Layout(8, 8, UEntries1));
  }

  lemma ULeaves()
    ensures ReachedAll(UFields1) == {}
  {
    DuLeaves(); assert ReachedBy(UField3) == {};
    assert ReachedAll(UFields3) == {};
    assert ReachedAll(UFields2) == {};
  }

  /** Only `union u` is reported as a block. */
  lemma UBlocks()
    ensures Reached(FourDeepU, None) == {Block(Union, "u", UFields1)}
  {
    ULeaves();
  }

  lemma PuHoles()
    ensures HolesIn(Union, PuEntries1, 0, 8) == []
  {
    assert Inner(PuEntries2, 1) == [];
    assert Inner(PuEntries1, 0) == [];
  }

  lemma CuHoles()
    ensures HolesIn(Union, CuEntries1, 0, 8) == []
  {
    PuHoles();
    assert Under(2, []) == [];
    assert Inner(CuEntries3, 2) == [];
    assert Inner(CuEntries2, 1) == [];
    assert Inner(CuEntries1, 0) == [];
  }

  lemma DuHoles()
    ensures HolesIn(Union, DuEntries1, 0, 8) == []
  {
    CuHoles();
    assert Under(2, []) == [];
    assert Inner(DuEntries3, 2) == [];
    assert Inner(DuEntries2, 1) == [];
    assert Inner(DuEntries1, 0) == [];
  }

  lemma ULevels()
    ensures HolesIn(Union, UEntries1, 0, 8) == []
  {
    DuHoles();
    assert Under(2, []) == [];
    assert Inner(UEntries3, 2) == [];
    assert Inner(UEntries2, 1) == [];
    assert Inner(UEntries1, 0) == [];
  }

  /** `union u` has no holes at any depth: unions have none of their own,
      and every anonymous aggregate inside it is a union too. */
  lemma UHoles()
    ensures LayoutOf(FourDeepU).Ok? && HolesOf(FourDeepU) == []
  {
    ULayout();
    ULevels();
  }
}
