/** tests/common/four_deep_inline_union_and_struct.c: `struct s` nests an
    anonymous union, inside it an anonymous struct, inside that an anonymous
    union, four levels in all. The members of each anonymous aggregate are
    reported in place, at offsets from the start of `struct s`; the inner
    struct leaves 6 bytes before its pointer union, a hole found two levels
    down; and only `struct s` has a block, since anonymous aggregates have no
    name to report them under.

    The levels are built from the innermost out: `PointerUnion` (the two
    pointers, entries `Q`), `CharStruct` (two `char`s and `PointerUnion`,
    entries `R`), `DoubleUnion` (two `double`s and `CharStruct`, entries `D`)
    and `FourDeep` itself (entries `Fd`). Each level's entries count from its
    own first byte; `<X>At<d>` is list `X` moved to start at byte `d`, as it
    appears inside the outer levels. */
module FourDeepStruct {
  import opened Common
  import opened Abi
  import opened Types
  import opened Resolver
  import opened Stepwise
  import opened Holes
  import opened Blocks

  // union { void *f7; char *f8; }

  const PointerUnion: Type := Agg(Union, None, QFields1)

  const QField1 := Member("f7", Pointer(Void))
  const QField2 := Member("f8", Pointer(Scalar(Char)))

  const QFields2: seq<Field> := [QField2]
  const QFields1: seq<Field> := [QField1] + QFields2

  const QEntry1 := Placed("f7", 8, 8, 0, None)
  const QEntry2 := Placed("f8", 8, 8, 0, None)

  const QEntries2: seq<Entry> := [QEntry2]
  const QEntries1: seq<Entry> := [QEntry1] + QEntries2

  lemma QMember1() ensures MemberLayout(QField1) == Ok(Layout(8, 8, [])) && EntryAt(QField1, Layout(8, 8, []), 0) == QEntry1 {}
  lemma QMember2() ensures MemberLayout(QField2) == Ok(Layout(8, 8, [])) && EntryAt(QField2, Layout(8, 8, []), 0) == QEntry2 {}

  lemma QFold()
    ensures UnionFold(QFields1, 0, 1) == Ok((QEntries1, 8, 8))
  {
    QMember2(); UnionOne(QField2, 8, 8, Layout(8, 8, []));
    QMember1(); UnionCons(QField1, QFields2, 0, 1, Layout(8, 8, []), QEntries2, 8, 8);
  }

  lemma QEnd()
    ensures AlignUp(8, 8) == 8
  {
  }

  lemma QUnion()
    ensures UnionLayout(QFields1) == Ok(Layout(8, 8, QEntries1))
  {
    QFold();
    QEnd();
    UnionFromFold(QFields1, QEntries1, 8, 8, 8);
  }

  /** The innermost union: both pointers at 0; 8 bytes. */
  lemma QLayout()
    ensures LayoutOf(PointerUnion) == Ok(Layout(8, 8, QEntries1))
  {
    QUnion();
    AggOf(Union, None, QFields1, Layout(8, 8, QEntries1));
  }
  lemma QLeaves()
    ensures ReachedAll(QFields1) == {}
  {
    assert ReachedAll(QFields2) == {};
  }

  // struct { char f5; char f6; union { ... }; }

  const CharStruct: Type := Agg(Struct, None, RFields1)

  const RField1 := Member("f5", Scalar(Char))
  const RField2 := Member("f6", Scalar(Char))
  const RField3 := Anonymous(PointerUnion)

  const RFields3: seq<Field> := [RField3]
  const RFields2: seq<Field> := [RField2] + RFields3
  const RFields1: seq<Field> := [RField1] + RFields2

  const REntry1 := Placed("f5", 1, 1, 0, None)
  const REntry2 := Placed("f6", 1, 1, 1, None)
  const REntry3 := Inline(Union, 8, 8, 8, QAt8Entries1)

  const REntries3: seq<Entry> := [REntry3]
  const REntries2: seq<Entry> := [REntry2] + REntries3
  const REntries1: seq<Entry> := [REntry1] + REntries2

  // The cursor after each member.
  const RAfter1 := Cursor(1, None, 1)
  const RAfter2 := Cursor(2, None, 1)
  const RAfter3 := Cursor(16, None, 8)

  // The entries `Q` moved to start at byte 8.
  const QAt8Entry1 := Placed("f7", 8, 8, 8, None)
  const QAt8Entry2 := Placed("f8", 8, 8, 8, None)

  const QAt8Entries2: seq<Entry> := [QAt8Entry2]
  const QAt8Entries1: seq<Entry> := [QAt8Entry1] + QAt8Entries2

  lemma QAt8Shift()
    ensures Shift(QEntries1, 8) == QAt8Entries1
  {
    ShiftCons(QEntry2, [], 8);
    ShiftCons(QEntry1, QEntries2, 8);
    assert [QEntry2] + [] == QEntries2;
  }

  lemma RPlace1() ensures Place(RField1, Start) == Ok((REntry1, RAfter1)) { PlaceNamed(RField1, Start, Layout(1, 1, []), 0); }
  lemma RPlace2() ensures Place(RField2, RAfter1) == Ok((REntry2, RAfter2)) { PlaceNamed(RField2, RAfter1, Layout(1, 1, []), 1); }
  lemma RPlace3() ensures Place(RField3, RAfter2) == Ok((REntry3, RAfter3)) { QLayout(); QAt8Shift(); PlaceAnon(RField3, RAfter2, Layout(8, 8, QEntries1), 8, QAt8Entries1); }

  lemma RFold()
    ensures Fold(RFields1, Start) == Ok((REntries1, RAfter3))
  {
    RPlace3(); FoldOne(RField3, RAfter2, REntry3, RAfter3);
    RPlace2(); FoldCons(RField2, RFields3, RAfter1, REntry2, RAfter2, REntries3, RAfter3);
    RPlace1(); FoldCons(RField1, RFields2, Start, REntry1, RAfter1, REntries2, RAfter3);
  }

  lemma REnd()
    ensures Close(RAfter3).align == 8 && AlignUp(Close(RAfter3).bytes, 8) == 16
  {
  }

  lemma RStruct()
    ensures StructLayout(RFields1) == Ok(Layout(16, 8, REntries1))
  {
    RFold();
    REnd();
    StructFromFold(RFields1, REntries1, RAfter3, 16, 8);
  }

  /** The anonymous struct: the `char`s at 0 and 1, the pointer union at 8, its
      alignment; 16 bytes. */
  lemma RLayout()
    ensures LayoutOf(CharStruct) == Ok(Layout(16, 8, REntries1))
  {
    RStruct();
    AggOf(Struct, None, RFields1, Layout(16, 8, REntries1));
  }
  lemma RLeaves()
    ensures ReachedAll(RFields1) == {}
  {
    QLeaves(); assert ReachedBy(RField3) == {};
    assert ReachedAll(RFields3) == {};
    assert ReachedAll(RFields2) == {};
  }

  // union { double f3; double f4; struct { ... }; }

  const DoubleUnion: Type := Agg(Union, None, DFields1)

  const DField1 := Member("f3", Scalar(Double))
  const DField2 := Member("f4", Scalar(Double))
  const DField3 := Anonymous(CharStruct)

  const DFields3: seq<Field> := [DField3]
  const DFields2: seq<Field> := [DField2] + DFields3
  const DFields1: seq<Field> := [DField1] + DFields2

  const DEntry1 := Placed("f3", 8, 8, 0, None)
  const DEntry2 := Placed("f4", 8, 8, 0, None)
  const DEntry3 := Inline(Struct, 16, 8, 0, REntries1)

  const DEntries3: seq<Entry> := [DEntry3]
  const DEntries2: seq<Entry> := [DEntry2] + DEntries3
  const DEntries1: seq<Entry> := [DEntry1] + DEntries2

  lemma DMember1() ensures MemberLayout(DField1) == Ok(Layout(8, 8, [])) && EntryAt(DField1, Layout(8, 8, []), 0) == DEntry1 {}
  lemma DMember2() ensures MemberLayout(DField2) == Ok(Layout(8, 8, [])) && EntryAt(DField2, Layout(8, 8, []), 0) == DEntry2 {}
  lemma DMember3() ensures MemberLayout(DField3) == Ok(Layout(16, 8, REntries1)) && EntryAt(DField3, Layout(16, 8, REntries1), 0) == DEntry3 { RLayout(); ShiftZero(REntries1); }

  lemma DFold()
    ensures UnionFold(DFields1, 0, 1) == Ok((DEntries1, 16, 8))
  {
    DMember3(); UnionOne(DField3, 8, 8, Layout(16, 8, REntries1));
    DMember2(); UnionCons(DField2, DFields3, 8, 8, Layout(8, 8, []), DEntries3, 16, 8);
    DMember1(); UnionCons(DField1, DFields2, 0, 1, Layout(8, 8, []), DEntries2, 16, 8);
  }

  lemma DEnd()
    ensures AlignUp(16, 8) == 16
  {
  }

  lemma DUnion()
    ensures UnionLayout(DFields1) == Ok(Layout(16, 8, DEntries1))
  {
    DFold();
    DEnd();
    UnionFromFold(DFields1, DEntries1, 16, 8, 16);
  }

  /** The anonymous union: both `double`s and the struct at 0; 16 bytes. */
  lemma DLayout()
    ensures LayoutOf(DoubleUnion) == Ok(Layout(16, 8, DEntries1))
  {
    DUnion();
    AggOf(Union, None, DFields1, Layout(16, 8, DEntries1));
  }
  lemma DLeaves()
    ensures ReachedAll(DFields1) == {}
  {
    RLeaves(); assert ReachedBy(DField3) == {};
    assert ReachedAll(DFields3) == {};
    assert ReachedAll(DFields2) == {};
  }

  // struct s

  const FourDeep: Type := Agg(Struct, Some(["s"]), FdFields1)

  const FdField1 := Member("f1", Scalar(Int))
  const FdField2 := Member("f2", Scalar(Int))
  const FdField3 := Anonymous(DoubleUnion)

  const FdFields3: seq<Field> := [FdField3]
  const FdFields2: seq<Field> := [FdField2] + FdFields3
  const FdFields1: seq<Field> := [FdField1] + FdFields2

  const FdEntry1 := Placed("f1", 4, 4, 0, None)
  const FdEntry2 := Placed("f2", 4, 4, 4, None)
  const FdEntry3 := Inline(Union, 16, 8, 8, DAt8Entries1)

  const FdEntries3: seq<Entry> := [FdEntry3]
  const FdEntries2: seq<Entry> := [FdEntry2] + FdEntries3
  const FdEntries1: seq<Entry> := [FdEntry1] + FdEntries2

  // The cursor after each member.
  const FdAfter1 := Cursor(4, None, 4)
  const FdAfter2 := Cursor(8, None, 4)
  const FdAfter3 := Cursor(24, None, 8)

  // The entries `Q` moved to start at byte 16.
  const QAt16Entry1 := Placed("f7", 8, 8, 16, None)
  const QAt16Entry2 := Placed("f8", 8, 8, 16, None)

  const QAt16Entries2: seq<Entry> := [QAt16Entry2]
  const QAt16Entries1: seq<Entry> := [QAt16Entry1] + QAt16Entries2

  lemma QAt16Shift()
    ensures Shift(QAt8Entries1, 8) == QAt16Entries1
  {
    ShiftCons(QAt8Entry2, [], 8);
    ShiftCons(QAt8Entry1, QAt8Entries2, 8);
    assert [QAt8Entry2] + [] == QAt8Entries2;
  }

  // The entries `R` moved to start at byte 8.
  const RAt8Entry1 := Placed("f5", 1, 1, 8, None)
  const RAt8Entry2 := Placed("f6", 1, 1, 9, None)
  const RAt8Entry3 := Inline(Union, 8, 8, 16, QAt16Entries1)

  const RAt8Entries3: seq<Entry> := [RAt8Entry3]
  const RAt8Entries2: seq<Entry> := [RAt8Entry2] + RAt8Entries3
  const RAt8Entries1: seq<Entry> := [RAt8Entry1] + RAt8Entries2

  lemma RAt8Shift()
    ensures Shift(REntries1, 8) == RAt8Entries1
  {
    QAt16Shift();
    ShiftCons(REntry3, [], 8);
    ShiftCons(REntry2, REntries3, 8);
    ShiftCons(REntry1, REntries2, 8);
    assert [REntry3] + [] == REntries3;
  }

  // The entries `D` moved to start at byte 8.
  const DAt8Entry1 := Placed("f3", 8, 8, 8, None)
  const DAt8Entry2 := Placed("f4", 8, 8, 8, None)
  const DAt8Entry3 := Inline(Struct, 16, 8, 8, RAt8Entries1)

  const DAt8Entries3: seq<Entry> := [DAt8Entry3]
  const DAt8Entries2: seq<Entry> := [DAt8Entry2] + DAt8Entries3
  const DAt8Entries1: seq<Entry> := [DAt8Entry1] + DAt8Entries2

  lemma DAt8Shift()
    ensures Shift(DEntries1, 8) == DAt8Entries1
  {
    RAt8Shift();
    ShiftCons(DEntry3, [], 8);
    ShiftCons(DEntry2, DEntries3, 8);
    ShiftCons(DEntry1, DEntries2, 8);
    assert [DEntry3] + [] == DEntries3;
  }

  lemma FdPlace1() ensures Place(FdField1, Start) == Ok((FdEntry1, FdAfter1)) { PlaceNamed(FdField1, Start, Layout(4, 4, []), 0); }
  lemma FdPlace2() ensures Place(FdField2, FdAfter1) == Ok((FdEntry2, FdAfter2)) { PlaceNamed(FdField2, FdAfter1, Layout(4, 4, []), 4); }
  lemma FdPlace3() ensures Place(FdField3, FdAfter2) == Ok((FdEntry3, FdAfter3)) { DLayout(); DAt8Shift(); PlaceAnon(FdField3, FdAfter2, Layout(16, 8, DEntries1), 8, DAt8Entries1); }

  lemma FdFold()
    ensures Fold(FdFields1, Start) == Ok((FdEntries1, FdAfter3))
  {
    FdPlace3(); FoldOne(FdField3, FdAfter2, FdEntry3, FdAfter3);
    FdPlace2(); FoldCons(FdField2, FdFields3, FdAfter1, FdEntry2, FdAfter2, FdEntries3, FdAfter3);
    FdPlace1(); FoldCons(FdField1, FdFields2, Start, FdEntry1, FdAfter1, FdEntries2, FdAfter3);
  }

  lemma FdEnd()
    ensures Close(FdAfter3).align == 8 && AlignUp(Close(FdAfter3).bytes, 8) == 24
  {
  }

  lemma FdStruct()
    ensures StructLayout(FdFields1) == Ok(Layout(24, 8, FdEntries1))
  {
    FdFold();
    FdEnd();
    StructFromFold(FdFields1, FdEntries1, FdAfter3, 24, 8);
  }

  /** `struct s`: the `int`s at 0 and 4, the anonymous union at 8 with its
      members in place at 8, the anonymous struct at 8 with its `char`s at 8 and
      9 and its pointer union at 16; 24 bytes. */
  lemma FdLayout()
    ensures LayoutOf(FourDeep) == Ok(Layout(24, 8, FdEntries1))
  {
    FdStruct();
    AggOf(Struct, Some(["s"]), FdFields1, Layout(24, 8, FdEntries1));
  }

  lemma FdLeaves()
    ensures ReachedAll(FdFields1) == {}
  {
    DLeaves(); assert ReachedBy(FdField3) == {};
    assert ReachedAll(FdFields3) == {};
    assert ReachedAll(FdFields2) == {};
  }

  /** Only `struct s` is reported as a block: anonymous aggregates carry no
      name. */
  lemma FdBlocks()
    ensures Reached(FourDeep, None) == {Block(Struct, "s", FdFields1)}
  {
    FdLeaves();
  }

  lemma QAt16Holes()
    ensures HolesIn(Union, QAt16Entries1, 16, 8) == []
  {
    assert Inner(QAt16Entries2, 1) == [];
    assert Inner(QAt16Entries1, 0) == [];
  }

  lemma RAt8Holes()
    ensures HolesIn(Struct, RAt8Entries1, 8, 16) == [Hole([2], 6, 0)]
  {
    QAt16Holes();
    assert Gaps(RAt8Entries3, 2, 80, 192) == [Hole([2], 6, 0)];
    assert Gaps(RAt8Entries2, 1, 72, 192) == [Hole([2], 6, 0)];
    assert Under(2, []) == [];
    assert Inner(RAt8Entries3, 2) == [];
    assert Inner(RAt8Entries2, 1) == [];
    assert Gaps(RAt8Entries1, 0, 64, 192) == [Hole([2], 6, 0)];
    assert Inner(RAt8Entries1, 0) == [];
  }

  lemma DAt8Holes()
    ensures HolesIn(Union, DAt8Entries1, 8, 16) == [Hole([2, 2], 6, 0)]
  {
    RAt8Holes();
    assert [2] + [2] == [2, 2];
    assert Under(2, [Hole([2], 6, 0)]) == [Hole([2, 2], 6, 0)];
    assert Inner(DAt8Entries3, 2) == [Hole([2, 2], 6, 0)];
    assert Inner(DAt8Entries2, 1) == [Hole([2, 2], 6, 0)];
    assert Inner(DAt8Entries1, 0) == [Hole([2, 2], 6, 0)];
  }

  lemma FdLevels()
    ensures HolesIn(Struct, FdEntries1, 0, 24) == [Hole([2, 2, 2], 6, 0)]
  {
    DAt8Holes();
    assert Gaps(FdEntries3, 2, 64, 192) == [];
    assert Gaps(FdEntries2, 1, 32, 192) == [];
    assert [2] + [2, 2] == [2, 2, 2];
    assert Under(2, [Hole([2, 2], 6, 0)]) == [Hole([2, 2, 2], 6, 0)];
    assert Inner(FdEntries3, 2) == [Hole([2, 2, 2], 6, 0)];
    assert Inner(FdEntries2, 1) == [Hole([2, 2, 2], 6, 0)];
    assert Gaps(FdEntries1, 0, 0, 192) == [];
    assert Inner(FdEntries1, 0) == [Hole([2, 2, 2], 6, 0)];
  }

  /** The holes of `struct s`: one, 6 bytes before the pointer union inside
      the anonymous struct (entry 2) inside the anonymous union (entry 2):
      the hole the report prints at that depth. */
  lemma FdHoles()
    ensures LayoutOf(FourDeep).Ok? && HolesOf(FourDeep) == [Hole([2, 2, 2], 6, 0)]
  {
    FdLayout();
    FdLevels();
  }
}
