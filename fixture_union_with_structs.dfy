/** tests/union_with_structs.c: `union vec3u` overlays `struct vec3` with
    an array of three `float`s; both are 12 bytes at offset 0, so the union is
    12 bytes. */
module UnionWithStructs {
  import opened Common
  import opened Abi
  import opened Types
  import opened Resolver
  import opened Stepwise
  import opened Holes
  import opened Blocks
  import opened Vec3

  const Vec3u: Type := Agg(Union, Some(["vec3u"]), WFields1)

  const WField1 := Member("v3", Vec3Struct)
  const WField2 := Member("m", Array(Scalar(Float), 3))

  const WFields2: seq<Field> := [WField2]
  const WFields1: seq<Field> := [WField1] + WFields2

  const WEntry1 := Placed("v3", 12, 4, 0, None)
  const WEntry2 := Placed("m", 12, 4, 0, None)

  const WEntries2: seq<Entry> := [WEntry2]
  const WEntries1: seq<Entry> := [WEntry1] + WEntries2

  lemma WMember1() ensures MemberLayout(WField1) == Ok(Layout(12, 4, VEntries1)) && EntryAt(WField1, Layout(12, 4, VEntries1), 0) == WEntry1 { VLayout(); }
  lemma WMember2() ensures MemberLayout(WField2) == Ok(Layout(12, 4, [])) && EntryAt(WField2, Layout(12, 4, []), 0) == WEntry2 {}

  lemma WFold()
    ensures UnionFold(WFields1, 0, 1) == Ok((WEntries1, 12, 4))
  {
    WMember2(); UnionOne(WField2, 12, 4, Layout(12, 4, []));
    WMember1(); UnionCons(WField1, WFields2, 0, 1, Layout(12, 4, VEntries1), WEntries2, 12, 4);
  }

  lemma WEnd()
    ensures AlignUp(12, 4) == 12
  {
  }

  lemma WUnion()
    ensures UnionLayout(WFields1) == Ok(Layout(12, 4, WEntries1))
  {
    WFold();
    WEnd();
    UnionFromFold(WFields1, WEntries1, 12, 4, 12);
  }

  /** `union vec3u`: `v3` and `m` at offset 0; 12 bytes with alignment 4. */
  lemma WLayout()
    ensures LayoutOf(Vec3u) == Ok(Layout(12, 4, WEntries1))
  {
    WUnion();
    AggOf(Union, Some(["vec3u"]), WFields1, Layout(12, 4, WEntries1));
  }

  lemma WFlat()
    ensures Inner(WEntries1, 0) == []
  {
    assert Inner(WEntries2, 1) == [];
  }

  /** The union has no holes. */
  lemma WHoles()
    ensures LayoutOf(Vec3u).Ok? && HolesOf(Vec3u) == []
  {
    WLayout();
    WFlat();
  }

  lemma WLeaves()
    ensures ReachedAll(WFields1) == {Block(Struct, "vec3", VFields1)}
  {
    VBlocks();
    assert ReachedAll(WFields2) == {};
  }

  /** The union brings its own block and that of `struct vec3`. */
  lemma WBlocks()
    ensures Reached(Vec3u, None) == {Block(Union, "vec3u", WFields1), Block(Struct, "vec3", VFields1)}
  {
    WLeaves();
  }

  /** The report on `t` lays out `struct vec3` and the union. */
  lemma ReportOfT()
    ensures ReportBlocks([Vec3u]) ==
      {Block(Union, "vec3u", WFields1), Block(Struct, "vec3", VFields1)}
  {
    WBlocks();
    assert [Vec3u][1..] == [];
  }

}
