/** tests/union_uneven_members.c: `union vec3u` over members of sizes 12,
    4, 1 and 15. Every member is at offset 0; the union is as big as its
    largest member, 15 bytes, rounded up to the largest alignment, 4: 16
    bytes. The report also lays out `struct vec3`, which the union holds by
    value. */
module UnionUnevenMembers {
  import opened Common
  import opened Abi
  import opened Types
  import opened Resolver
  import opened Stepwise
  import opened Holes
  import opened Blocks
  import opened Vec3

  const Vec3u: Type := Agg(Union, Some(["vec3u"]), UFields1)

  const UField1 := Member("v3", Vec3Struct)
  const UField2 := Member("inting", Scalar(Int))
  const UField3 := Member("charing", Scalar(Char))
  const UField4 := Member("whoosh", Array(Scalar(Char), 15))

  const UFields4: seq<Field> := [UField4]
  const UFields3: seq<Field> := [UField3] + UFields4
  const UFields2: seq<Field> := [UField2] + UFields3
  const UFields1: seq<Field> := [UField1] + UFields2

  const UEntry1 := Placed("v3", 12, 4, 0, None)
  const UEntry2 := Placed("inting", 4, 4, 0, None)
  const UEntry3 := Placed("charing", 1, 1, 0, None)
  const UEntry4 := Placed("whoosh", 15, 1, 0, None)

  const UEntries4: seq<Entry> := [UEntry4]
  const UEntries3: seq<Entry> := [UEntry3] + UEntries4
  const UEntries2: seq<Entry> := [UEntry2] + UEntries3
  const UEntries1: seq<Entry> := [UEntry1] + UEntries2

  lemma UMember1() ensures MemberLayout(UField1) == Ok(Layout(12, 4, VEntries1)) && EntryAt(UField1, Layout(12, 4, VEntries1), 0) == UEntry1 { VLayout(); }
  lemma UMember2() ensures MemberLayout(UField2) == Ok(Layout(4, 4, [])) && EntryAt(UField2, Layout(4, 4, []), 0) == UEntry2 {}
  lemma UMember3() ensures MemberLayout(UField3) == Ok(Layout(1, 1, [])) && EntryAt(UField3, Layout(1, 1, []), 0) == UEntry3 {}
  lemma UMember4() ensures MemberLayout(UField4) == Ok(Layout(15, 1, [])) && EntryAt(UField4, Layout(15, 1, []), 0) == UEntry4 {}

  lemma UFold()
    ensures UnionFold(UFields1, 0, 1) == Ok((UEntries1, 15, 4))
  {
    UMember4(); UnionOne(UField4, 12, 4, Layout(15, 1, []));
    UMember3(); UnionCons(UField3, UFields4, 12, 4, Layout(1, 1, []), UEntries4, 15, 4);
    UMember2(); UnionCons(UField2, UFields3, 12, 4, Layout(4, 4, []), UEntries3, 15, 4);
    UMember1(); UnionCons(UField1, UFields2, 0, 1, Layout(12, 4, VEntries1), UEntries2, 15, 4);
  }

  lemma UEnd()
    ensures AlignUp(15, 4) == 16
  {
  }

  lemma UUnion()
    ensures UnionLayout(UFields1) == Ok(Layout(16, 4, UEntries1))
  {
    UFold();
    UEnd();
    UnionFromFold(UFields1, UEntries1, 15, 4, 16);
  }

  /** `union vec3u`: all four members at offset 0, and 16 bytes: the 15 of
      `whoosh` rounded up to the alignment 4 of `vec3` and `int`. */
  lemma ULayout()
    ensures LayoutOf(Vec3u) == Ok(Layout(16, 4, UEntries1))
  {
    UUnion();
    AggOf(Union, Some(["vec3u"]), UFields1, Layout(16, 4, UEntries1));
  }

  lemma UFlat()
    ensures Inner(UEntries1, 0) == []
  {
    assert Inner(UEntries4, 3) == [];
    assert Inner(UEntries3, 2) == [];
    assert Inner(UEntries2, 1) == [];
  }

  /** A union has no holes of its own, and none of its members is anonymous. */
  lemma UHoles()
    ensures LayoutOf(Vec3u).Ok? && HolesOf(Vec3u) == []
  {
    ULayout();
    UFlat();
  }

  lemma ULeaves()
    ensures ReachedAll(UFields1) == {Block(Struct, "vec3", VFields1)}
  {
    VBlocks();
    assert ReachedAll(UFields4) == {};
    assert ReachedAll(UFields3) == {};
    assert ReachedAll(UFields2) == {};
  }

  /** The union brings two blocks: its own and that of `struct vec3`. */
  lemma UBlocks()
    ensures Reached(Vec3u, None) == {Block(Union, "vec3u", UFields1), Block(Struct, "vec3", VFields1)}
  {
    ULeaves();
  }

  /** The report on `t` lays out the union and `struct vec3`. */
  lemma ReportOfT()
    ensures ReportBlocks([Vec3u]) ==
      {Block(Union, "vec3u", UFields1), Block(Struct, "vec3", VFields1)}
  {
    UBlocks();
    assert [Vec3u][1..] == [];
  }

}
