/** tests/three_typedefed_unions.c: three unions declared without a tag and
    named by typedefs. `third` overlays a `first` (4 bytes) and a `second`
    (16 bytes), so it is 16 bytes. An untagged aggregate is reported under
    the typedef name it is reached through, so the report names all three
    blocks `first`, `second` and `third`. */
module ThreeTypedefedUnions {
  import opened Common
  import opened Abi
  import opened Types
  import opened Resolver
  import opened Stepwise
  import opened Holes
  import opened Blocks

  const First: Type := Typedef("first", FirstUnion)
  const Second: Type := Typedef("second", SecondUnion)
  const Third: Type := Typedef("third", ThirdUnion)

  // first

  const FirstUnion: Type := Agg(Union, None, FuFields1)

  const FuField1 := Member("inting", Scalar(Int))
  const FuField2 := Member("charing", Scalar(Char))

  const FuFields2: seq<Field> := [FuField2]
  const FuFields1: seq<Field> := [FuField1] + FuFields2

  const FuEntry1 := Placed("inting", 4, 4, 0, None)
  const FuEntry2 := Placed("charing", 1, 1, 0, None)

  const FuEntries2: seq<Entry> := [FuEntry2]
  const FuEntries1: seq<Entry> := [FuEntry1] + FuEntries2

  lemma FuMember1() ensures MemberLayout(FuField1) == Ok(Layout(4, 4, [])) && EntryAt(FuField1, Layout(4, 4, []), 0) == FuEntry1 {}
  lemma FuMember2() ensures MemberLayout(FuField2) == Ok(Layout(1, 1, [])) && EntryAt(FuField2, Layout(1, 1, []), 0) == FuEntry2 {}

  lemma FuFold()
    ensures UnionFold(FuFields1, 0, 1) == Ok((FuEntries1, 4, 4))
  {
    FuMember2(); UnionOne(FuField2, 4, 4, Layout(1, 1, []));
    FuMember1(); UnionCons(FuField1, FuFields2, 0, 1, Layout(4, 4, []), FuEntries2, 4, 4);
  }

  lemma FuEnd()
    ensures AlignUp(4, 4) == 4
  {
  }

  lemma FuUnion()
    ensures UnionLayout(FuFields1) == Ok(Layout(4, 4, FuEntries1))
  {
    FuFold();
    FuEnd();
    UnionFromFold(FuFields1, FuEntries1, 4, 4, 4);
  }

  /** The union behind `first`: both members at 0, and 4 bytes. */
  lemma FuLayout()
    ensures LayoutOf(FirstUnion) == Ok(Layout(4, 4, FuEntries1))
  {
    FuUnion();
    AggOf(Union, None, FuFields1, Layout(4, 4, FuEntries1));
  }

  lemma FuFlat()
    ensures Inner(FuEntries1, 0) == []
  {
    assert Inner(FuEntries2, 1) == [];
  }

  /** `first` has no holes. */
  lemma FuHoles()
    ensures LayoutOf(FirstUnion).Ok? && HolesOf(FirstUnion) == []
  {
    FuLayout();
    FuFlat();
  }

  lemma FuLeaves()
    ensures ReachedAll(FuFields1) == {}
  {
    assert ReachedAll(FuFields2) == {};
  }

  /** `first` is reported under its typedef name. */
  lemma FuBlocks()
    ensures Reached(First, None) == {Block(Union, "first", FuFields1)}
  {
    FuLeaves();
  }

  // second

  const SecondUnion: Type := Agg(Union, None, SuFields1)

  const SuField1 := Member("whoosh", Array(Scalar(Char), 15))
  const SuField2 := Member("boosh", Array(Scalar(Float), 4))

  const SuFields2: seq<Field> := [SuField2]
  const SuFields1: seq<Field> := [SuField1] + SuFields2

  const SuEntry1 := Placed("whoosh", 15, 1, 0, None)
  const SuEntry2 := Placed("boosh", 16, 4, 0, None)

  const SuEntries2: seq<Entry> := [SuEntry2]
  const SuEntries1: seq<Entry> := [SuEntry1] + SuEntries2

  lemma SuMember1() ensures MemberLayout(SuField1) == Ok(Layout(15, 1, [])) && EntryAt(SuField1, Layout(15, 1, []), 0) == SuEntry1 {}
  lemma SuMember2() ensures MemberLayout(SuField2) == Ok(Layout(16, 4, [])) && EntryAt(SuField2, Layout(16, 4, []), 0) == SuEntry2 {}

  lemma SuFold()
    ensures UnionFold(SuFields1, 0, 1) == Ok((SuEntries1, 16, 4))
  {
    SuMember2(); UnionOne(SuField2, 15, 1, Layout(16, 4, []));
    SuMember1(); UnionCons(SuField1, SuFields2, 0, 1, Layout(15, 1, []), SuEntries2, 16, 4);
  }

  lemma SuEnd()
    ensures AlignUp(16, 4) == 16
  {
  }

  lemma SuUnion()
    ensures UnionLayout(SuFields1) == Ok(Layout(16, 4, SuEntries1))
  {
    SuFold();
    SuEnd();
    UnionFromFold(SuFields1, SuEntries1, 16, 4, 16);
  }

  /** The union behind `second`: 15 `char`s and 4 `float`s at 0, and 16 bytes. */
  lemma SuLayout()
    ensures LayoutOf(SecondUnion) == Ok(Layout(16, 4, SuEntries1))
  {
    SuUnion();
    AggOf(Union, None, SuFields1, Layout(16, 4, SuEntries1));
  }

  lemma SuFlat()
    ensures Inner(SuEntries1, 0) == []
  {
    assert Inner(SuEntries2, 1) == [];
  }

  /** `second` has no holes. */
  lemma SuHoles()
    ensures LayoutOf(SecondUnion).Ok? && HolesOf(SecondUnion) == []
  {
    SuLayout();
    SuFlat();
  }

  lemma SuLeaves()
    ensures ReachedAll(SuFields1) == {}
  {
    assert ReachedAll(SuFields2) == {};
  }

  /** `second` is reported under its typedef name. */
  lemma SuBlocks()
    ensures Reached(Second, None) == {Block(Union, "second", SuFields1)}
  {
    SuLeaves();
  }

  // third

  const ThirdUnion: Type := Agg(Union, None, TuFields1)

  const TuField1 := Member("f", First)
  const TuField2 := Member("s", Second)

  const TuFields2: seq<Field> := [TuField2]
  const TuFields1: seq<Field> := [TuField1] + TuFields2

  const TuEntry1 := Placed("f", 4, 4, 0, None)
  const TuEntry2 := Placed("s", 16, 4, 0, None)

  const TuEntries2: seq<Entry> := [TuEntry2]
  const TuEntries1: seq<Entry> := [TuEntry1] + TuEntries2

  lemma TuMember1() ensures MemberLayout(TuField1) == Ok(Layout(4, 4, FuEntries1)) && EntryAt(TuField1, Layout(4, 4, FuEntries1), 0) == TuEntry1 { FuLayout(); }
  lemma TuMember2() ensures MemberLayout(TuField2) == Ok(Layout(16, 4, SuEntries1)) && EntryAt(TuField2, Layout(16, 4, SuEntries1), 0) == TuEntry2 { SuLayout(); }

  lemma TuFold()
    ensures UnionFold(TuFields1, 0, 1) == Ok((TuEntries1, 16, 4))
  {
    TuMember2(); UnionOne(TuField2, 4, 4, Layout(16, 4, SuEntries1));
    TuMember1(); UnionCons(TuField1, TuFields2, 0, 1, Layout(4, 4, FuEntries1), TuEntries2, 16, 4);
  }

  lemma TuEnd()
    ensures AlignUp(16, 4) == 16
  {
  }

  lemma TuUnion()
    ensures UnionLayout(TuFields1) == Ok(Layout(16, 4, TuEntries1))
  {
    TuFold();
    TuEnd();
    UnionFromFold(TuFields1, TuEntries1, 16, 4, 16);
  }

  /** The union behind `third`: `f` and `s` at 0, and 16 bytes, the size of
      `second`. */
  lemma TuLayout()
    ensures LayoutOf(ThirdUnion) == Ok(Layout(16, 4, TuEntries1))
  {
    TuUnion();
    AggOf(Union, None, TuFields1, Layout(16, 4, TuEntries1));
  }

  lemma TuFlat()
    ensures Inner(TuEntries1, 0) == []
  {
    assert Inner(TuEntries2, 1) == [];
  }

  /** `third` has no holes. */
  lemma TuHoles()
    ensures LayoutOf(ThirdUnion).Ok? && HolesOf(ThirdUnion) == []
  {
    TuLayout();
    TuFlat();
  }

  lemma TuLeaves()
    ensures ReachedAll(TuFields1) == {Block(Union, "first", FuFields1), Block(Union, "second", SuFields1)}
  {
    FuBlocks();
    SuBlocks();
    assert ReachedAll(TuFields2) == {Block(Union, "second", SuFields1)};
  }

  /** `third` brings three blocks, each named by its typedef. */
  lemma TuBlocks()
    ensures Reached(Third, None) == {Block(Union, "third", TuFields1), Block(Union, "first", FuFields1), Block(Union, "second", SuFields1)}
  {
    TuLeaves();
  }

  /** A typedef is laid out as the union it names. */
  lemma ThirdLayout()
    ensures LayoutOf(Third) == Ok(Layout(16, 4, TuEntries1))
  {
    TuLayout();
  }

  /** The report on `t` has the three blocks `third`, `first` and `second`. */
  lemma ReportOfT()
    ensures ReportBlocks([Third]) ==
      {Block(Union, "third", TuFields1), Block(Union, "first", FuFields1), Block(Union, "second", SuFields1)}
  {
    TuBlocks();
    assert [Third][1..] == [];
  }

}
