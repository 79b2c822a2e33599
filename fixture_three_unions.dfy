/** tests/zig_cc/three_unions.c: the same three unions declared with tags
    instead of typedefs. `first` and `second` have the member lists of their
    typedef-named counterparts, so their layouts are shared with them; the
    report is the same, with the names now coming from the tags. */
module ThreeUnions {
  import opened Common
  import opened Abi
  import opened Types
  import opened Resolver
  import opened Stepwise
  import opened Holes
  import opened Blocks
  import opened ThreeTypedefedUnions

  const FirstTagged: Type := Agg(Union, Some(["first"]), FuFields1)
  const SecondTagged: Type := Agg(Union, Some(["second"]), SuFields1)

  /** `union first`: laid out as the untagged union behind the typedef. */
  lemma FirstLayout()
    ensures LayoutOf(FirstTagged) == Ok(Layout(4, 4, FuEntries1))
  {
    FuUnion();
    AggOf(Union, Some(["first"]), FuFields1, Layout(4, 4, FuEntries1));
  }

  /** `union second`: likewise 16 bytes. */
  lemma SecondLayout()
    ensures LayoutOf(SecondTagged) == Ok(Layout(16, 4, SuEntries1))
  {
    SuUnion();
    AggOf(Union, Some(["second"]), SuFields1, Layout(16, 4, SuEntries1));
  }

  lemma FirstBlocks()
    ensures Reached(FirstTagged, None) == {Block(Union, "first", FuFields1)}
  {
    FuLeaves();
  }

  lemma SecondBlocks()
    ensures Reached(SecondTagged, None) == {Block(Union, "second", SuFields1)}
  {
    SuLeaves();
  }

  // third

  const ThirdTagged: Type := Agg(Union, Some(["third"]), ZuFields1)

  const ZuField1 := Member("f", FirstTagged)
  const ZuField2 := Member("s", SecondTagged)

  const ZuFields2: seq<Field> := [ZuField2]
  const ZuFields1: seq<Field> := [ZuField1] + ZuFields2

  const ZuEntry1 := Placed("f", 4, 4, 0, None)
  const ZuEntry2 := Placed("s", 16, 4, 0, None)

  const ZuEntries2: seq<Entry> := [ZuEntry2]
  const ZuEntries1: seq<Entry> := [ZuEntry1] + ZuEntries2

  lemma ZuMember1() ensures MemberLayout(ZuField1) == Ok(Layout(4, 4, FuEntries1)) && EntryAt(ZuField1, Layout(4, 4, FuEntries1), 0) == ZuEntry1 { FirstLayout(); }
  lemma ZuMember2() ensures MemberLayout(ZuField2) == Ok(Layout(16, 4, SuEntries1)) && EntryAt(ZuField2, Layout(16, 4, SuEntries1), 0) == ZuEntry2 { SecondLayout(); }

  lemma ZuFold()
    ensures UnionFold(ZuFields1, 0, 1) == Ok((ZuEntries1, 16, 4))
  {
    ZuMember2(); UnionOne(ZuField2, 4, 4, Layout(16, 4, SuEntries1));
    ZuMember1(); UnionCons(ZuField1, ZuFields2, 0, 1, Layout(4, 4, FuEntries1), ZuEntries2, 16, 4);
  }

  lemma ZuEnd()
    ensures AlignUp(16, 4) == 16
  {
  }

  lemma ZuUnion()
    ensures UnionLayout(ZuFields1) == Ok(Layout(16, 4, ZuEntries1))
  {
    ZuFold();
    ZuEnd();
    UnionFromFold(ZuFields1, ZuEntries1, 16, 4, 16);
  }

  /** `union third`: `f` and `s` at 0, and 16 bytes. */
  lemma ZuLayout()
    ensures LayoutOf(ThirdTagged) == Ok(Layout(16, 4, ZuEntries1))
  {
    ZuUnion();
    AggOf(Union, Some(["third"]), ZuFields1, Layout(16, 4, ZuEntries1));
  }

  lemma ZuFlat()
    ensures Inner(ZuEntries1, 0) == []
  {
    assert Inner(ZuEntries2, 1) == [];
  }

  /** `union third` has no holes. */
  lemma ZuHoles()
    ensures LayoutOf(ThirdTagged).Ok? && HolesOf(ThirdTagged) == []
  {
    ZuLayout();
    ZuFlat();
  }

  lemma ZuLeaves()
    ensures ReachedAll(ZuFields1) == {Block(Union, "first", FuFields1), Block(Union, "second", SuFields1)}
  {
    FirstBlocks();
    SecondBlocks();
    assert ReachedAll(ZuFields2) == {Block(Union, "second", SuFields1)};
  }

  /** `union third` brings three blocks, each named by its tag. */
  lemma ZuBlocks()
    ensures Reached(ThirdTagged, None) == {Block(Union, "third", ZuFields1), Block(Union, "first", FuFields1), Block(Union, "second", SuFields1)}
  {
    ZuLeaves();
  }

  /** The report on `t` has the blocks `third`, `first` and `second`. */
  lemma ReportOfT()
    ensures ReportBlocks([ThirdTagged]) ==
      {Block(Union, "third", ZuFields1), Block(Union, "first", FuFields1), Block(Union, "second", SuFields1)}
  {
    ZuBlocks();
    assert [ThirdTagged][1..] == [];
  }

  /** Tags or typedefs, the same members give the same layouts. */
  lemma SameAsTypedefed()
    ensures LayoutOf(FirstTagged) == LayoutOf(First)
    ensures LayoutOf(SecondTagged) == LayoutOf(Second)
    ensures LayoutOf(ThirdTagged).Ok? && LayoutOf(Third).Ok?
    ensures LayoutOf(ThirdTagged).value.size == LayoutOf(Third).value.size
  {
    FirstLayout();
    FuLayout();
    SecondLayout();
    SuLayout();
    ZuLayout();
    ThirdLayout();
  }
}
