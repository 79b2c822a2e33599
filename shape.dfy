/** The layout rules stated without the resolver's cursor: where each struct
    member goes, how big a struct or union is, and which changes to a
    declaration leave its layout alone. */
module Shape {
  import opened Common
  import opened Abi
  import opened Types
  import opened Resolver
  import opened Geometry
  import opened Stepwise
  import opened Alignment

  /** The largest alignment among `es`, or 1 when there are none. */
  function MaxAlignOf(es: seq<Entry>): (r: nat)
    ensures r >= 1
    ensures forall i :: 0 <= i < |es| ==> es[i].align <= r
    ensures r == 1 || exists i :: 0 <= i < |es| && es[i].align == r
  {
    if es == [] then 1
    else
      var m := MaxAlignOf(es[1..]);
      assert forall i :: 1 <= i < |es| ==> es[i] == es[1..][i - 1];
      Max(es[0].align, m)
  }

  /** The largest size among `es`, or 0 when there are none. */
  function MaxSizeOf(es: seq<Entry>): (r: nat)
    ensures forall i :: 0 <= i < |es| ==> es[i].size <= r
    ensures r == 0 || exists i :: 0 <= i < |es| && es[i].size == r
  {
    if es == [] then 0
    else
      var m := MaxSizeOf(es[1..]);
      assert forall i :: 1 <= i < |es| ==> es[i] == es[1..][i - 1];
      Max(es[0].size, m)
  }

  /** The bit after the last member, or 0 for none. */
  function EndOf(es: seq<Entry>): nat
  {
    if es == [] then 0 else EndBit(es[|es| - 1])
  }

  /** Each struct member goes where its predecessor ends (`from` for the
      first): a bit-field at the very next bit, any other member at the first
      byte after that which its alignment allows. */
  predicate Placement(es: seq<Entry>, from: nat)
  {
    && (|es| > 0 ==> PlacedFrom(es[0], from))
    && forall i :: 0 < i < |es| ==> PlacedFrom(es[i], EndBit(es[i - 1]))
  }

  lemma CloseBytes(c: Cursor)
    ensures Close(c).bytes == CeilDiv8(Frontier(c)) && Close(c).run.None? && Close(c).align == c.align
  {
    if c.run.Some? {
      var u := c.run.value.used;
      DivModUnique(8 * c.bytes + u + 7, 8, c.bytes + (u + 7) / 8, (u + 7) % 8);
    } else {
      DivModUnique(8 * c.bytes + 7, 8, c.bytes, 7);
    }
  }

  /** Entry `e` reports member `f`. A bit-field is a slice of its width in a
      storage unit of its integer type, under its own name. Any other member
      has the size and alignment of its own layout, and is either named or an
      anonymous aggregate whose members are reported moved to its offset. */
  predicate Reports(f: Field, e: Entry)
  {
    if f.width.Some? then
      && f.name.Some? && IntegerBase(f.ty).Some?
      && IsBitField(e) && e.name == f.name.value
      && e.slot.value.width == f.width.value
      && e.size == ScalarSize(IntegerBase(f.ty).value)
      && e.align == ScalarAlign(IntegerBase(f.ty).value)
    else
      && MemberLayout(f).Ok?
      && e.size == MemberLayout(f).value.size
      && e.align == MemberLayout(f).value.align
      && (f.name.Some? ==> e.Placed? && e.slot.None? && e.name == f.name.value)
      && (f.name.None? ==>
            e.Inline? && e.kind == f.ty.kind && e.members == Shift(MemberLayout(f).value.entries, e.offset))
  }

  /** Member `i` of `fs` is reported by entry `i` of `es`, and no entry is
      left over. */
  predicate ReportsAll(fs: seq<Field>, es: seq<Entry>)
  {
    |es| == |fs| && forall i :: 0 <= i < |fs| ==> Reports(fs[i], es[i])
  }

  /** A struct: entry `i` reports member `i`, every member placed by
      `Placement` from bit 0; the alignment is the largest member alignment;
      the size is the end of the last member, in whole bytes, rounded up to
      that alignment. */
  lemma StructShape(fs: seq<Field>)
    requires StructLayout(fs).Ok?
    ensures var l := StructLayout(fs).value;
      && ReportsAll(fs, l.entries)
      && Placement(l.entries, 0)
      && l.align == MaxAlignOf(l.entries)
      && l.size == AlignUp(CeilDiv8(EndOf(l.entries)), l.align)
  {
    assert UnitCovered(Start);
    FoldReports(fs, Start);
    FoldShape(fs, Start);
    var (es, c) := Fold(fs, Start).value;
    CloseBytes(c);
  }

  /** The cursor invariant this module needs: an open storage unit is no more
      aligned than the struct so far. */
  predicate UnitCovered(c: Cursor)
  {
    c.align >= 1 && (c.run.Some? ==> ScalarAlign(c.run.value.base) <= c.align)
  }

  /** `e`, placed from `from`, obeys the placement rule. */
  predicate PlacedFrom(e: Entry, from: nat)
  {
    if IsBitField(e) then StartBit(e) == from
    else e.align > 0 && e.offset == AlignUp(CeilDiv8(from), e.align)
  }

  lemma PlacementCons(e: Entry, es: seq<Entry>, from: nat)
    requires PlacedFrom(e, from) && Placement(es, EndBit(e))
    ensures Placement([e] + es, from)
  {
    var all := [e] + es;
    assert all[0] == e;
    forall i | 1 < i < |all| ensures PlacedFrom(all[i], EndBit(all[i - 1])) {
      assert all[i] == es[i - 1] && all[i - 1] == es[i - 2];
    }
    if es != [] {
      assert all[1] == es[0];
    }
  }

  lemma {:induction false} FoldShape(fs: seq<Field>, c: Cursor)
    requires UnitCovered(c) && Fold(fs, c).Ok?
    ensures var (es, c2) := Fold(fs, c).value;
      && Placement(es, Frontier(c))
      && c2.align == Max(c.align, MaxAlignOf(es))
      && Frontier(c2) == (if es == [] then Frontier(c) else EndOf(es))
    decreases fs
  {
    if fs != [] {
      PlaceFrontier(fs[0], c);
      var (e, c1) := Place(fs[0], c).value;
      FoldShape(fs[1..], c1);
      var (es, c2) := Fold(fs[1..], c1).value;
      var all := [e] + es;
      assert Fold(fs, c).value.0 == all;
      assert all[1..] == es;
      PlacementCons(e, es, Frontier(c));
      if es != [] {
        assert all[|all| - 1] == es[|es| - 1];
      }
    }
  }

  /** One member: a bit-field starts at the frontier, any other member at the
      first byte after it that its alignment allows, and the frontier moves to
      the member's end. A bit-field lies in the open unit, at the bit after
      those already taken (bit 0 of a new unit at the cursor when none is
      open), and adds its width to the bits taken. */
  lemma PlaceShape(f: Field, c: Cursor)
    requires UnitCovered(c) && Place(f, c).Ok?
    ensures var (e, c1) := Place(f, c).value;
      && PlacedFrom(e, Frontier(c))
      && c1.align == Max(c.align, e.align)
      && Frontier(c1) == EndBit(e)
      && UnitCovered(c1)
      && (f.width.Some? ==>
            && IsBitField(e) && e.offset == c.bytes && e.slot.value.bit == Used(c)
            && c1.bytes == c.bytes && c1.run.Some? && Used(c1) == Used(c) + e.slot.value.width)
  {
    PlaceFrontier(f, c);
  }

  /** The part of `PlaceShape` that a fold carries from member to member. */
  lemma PlaceFrontier(f: Field, c: Cursor)
    requires UnitCovered(c) && Place(f, c).Ok?
    ensures var (e, c1) := Place(f, c).value;
      && PlacedFrom(e, Frontier(c))
      && c1.align == Max(c.align, e.align)
      && Frontier(c1) == EndBit(e)
      && UnitCovered(c1)
  {
    CloseBytes(c);
  }

  /** The bits taken in the open storage unit, 0 when none is open. */
  function Used(c: Cursor): nat
  {
    if c.run.Some? then c.run.value.used else 0
  }

  /** The sum of the widths of the bit-fields among `fs`. */
  function Widths(fs: seq<Field>): nat
  {
    if fs == [] then 0
    else (if fs[0].width.Some? then fs[0].width.value else 0) + Widths(fs[1..])
  }

  /** A run of bit-fields shares one storage unit at the cursor: each sits at
      the bit given by the widths of the bit-fields before it, after the bits
      the open unit already had taken. */
  lemma {:induction false} RunBits(fs: seq<Field>, c: Cursor)
    requires forall i :: 0 <= i < |fs| ==> fs[i].width.Some?
    requires Fold(fs, c).Ok?
    ensures var (es, c2) := Fold(fs, c).value;
      && (forall i :: 0 <= i < |fs| ==>
            IsBitField(es[i]) && es[i].offset == c.bytes && es[i].slot.value.bit == Used(c) + Widths(fs[..i]))
      && c2.bytes == c.bytes && Used(c2) == Used(c) + Widths(fs)
    decreases fs
  {
    if fs != [] {
      var (e, c1) := Place(fs[0], c).value;
      assert c1.bytes == c.bytes && Used(c1) == Used(c) + fs[0].width.value && IsBitField(e)
        && e.offset == c.bytes && e.slot.value.bit == Used(c);
      assert forall i :: 0 <= i < |fs| - 1 ==> fs[1..][i] == fs[i + 1];
      RunBits(fs[1..], c1);
      var (es, c2) := Fold(fs[1..], c1).value;
      var all := [e] + es;
      assert Fold(fs, c).value.0 == all;
      forall i | 0 <= i < |fs|
        ensures IsBitField(all[i]) && all[i].offset == c.bytes && all[i].slot.value.bit == Used(c) + Widths(fs[..i])
      {
        if i == 0 {
          assert fs[..0] == [];
        } else {
          assert all[i] == es[i - 1];
          assert fs[..i][1..] == fs[1..][..i - 1];
        }
      }
    }
  }

  lemma PlaceReports(f: Field, c: Cursor)
    requires Place(f, c).Ok?
    ensures Reports(f, Place(f, c).value.0)
  {
  }

  /** In a fold, entry `i` reports member `i`. */
  lemma {:induction false} FoldReports(fs: seq<Field>, c: Cursor)
    requires Fold(fs, c).Ok?
    ensures ReportsAll(fs, Fold(fs, c).value.0)
    decreases fs
  {
    if fs != [] {
      PlaceReports(fs[0], c);
      var (e, c1) := Place(fs[0], c).value;
      FoldReports(fs[1..], c1);
      var (es, c2) := Fold(fs[1..], c1).value;
      var all := [e] + es;
      assert Fold(fs, c).value.0 == all;
      forall i | 0 <= i < |fs| ensures Reports(fs[i], all[i]) {
        if i > 0 {
          assert all[i] == es[i - 1] && fs[i] == fs[1..][i - 1];
        }
      }
    }
  }

  /** In a union, entry `i` reports member `i`. */
  lemma {:induction false} UnionFoldReports(fs: seq<Field>, size: nat, align: nat)
    requires UnionFold(fs, size, align).Ok?
    ensures ReportsAll(fs, UnionFold(fs, size, align).value.0)
    decreases fs
  {
    if fs != [] {
      var l := MemberLayout(fs[0]).value;
      UnionFoldReports(fs[1..], Max(size, l.size), Max(align, l.align));
      var (es, s, a) := UnionFold(fs[1..], Max(size, l.size), Max(align, l.align)).value;
      var all := [EntryAt(fs[0], l, 0)] + es;
      assert UnionFold(fs, size, align).value.0 == all;
      forall i | 0 <= i < |fs| ensures Reports(fs[i], all[i]) {
        if i > 0 {
          assert all[i] == es[i - 1] && fs[i] == fs[1..][i - 1];
        }
      }
    }
  }

  /** A union: entry `i` reports member `i`; the alignment is the largest
      member alignment, and the size is the largest member size rounded up to
      it. */
  lemma UnionShape(fs: seq<Field>)
    requires UnionLayout(fs).Ok?
    ensures var l := UnionLayout(fs).value;
      && ReportsAll(fs, l.entries)
      && l.align == MaxAlignOf(l.entries)
      && l.size == AlignUp(MaxSizeOf(l.entries), l.align)
  {
    UnionFoldReports(fs, 0, 1);
    UnionFoldShape(fs, 0, 1);
  }

  lemma {:induction false} UnionFoldShape(fs: seq<Field>, size: nat, align: nat)
    requires align >= 1 && UnionFold(fs, size, align).Ok?
    ensures var (es, s, a) := UnionFold(fs, size, align).value;
      s == Max(size, MaxSizeOf(es)) && a == Max(align, MaxAlignOf(es))
    decreases fs
  {
    if fs != [] {
      var l := MemberLayout(fs[0]).value;
      UnionFoldShape(fs[1..], Max(size, l.size), Max(align, l.align));
      var (es, s, a) := UnionFold(fs[1..], Max(size, l.size), Max(align, l.align)).value;
      var all := [EntryAt(fs[0], l, 0)] + es;
      assert UnionFold(fs, size, align).value.0 == all;
      assert all[1..] == es;
    }
  }

  /** Every member of a resolved aggregate is reported at an offset that is a
      multiple of the alignment of its own type (for a bit-field, of its
      integer type), and that alignment divides the aggregate's. */
  lemma MembersAligned(k: AggKind, p: Option<Path>, fs: seq<Field>)
    requires LayoutOf(Agg(k, p, fs)).Ok?
    ensures var l := LayoutOf(Agg(k, p, fs)).value;
      && ReportsAll(fs, l.entries)
      && forall i :: 0 <= i < |fs| ==>
           l.entries[i].align >= 1 && l.entries[i].offset % l.entries[i].align == 0 && l.align % l.entries[i].align == 0
  {
    var l := LayoutOf(Agg(k, p, fs)).value;
    if k == Union {
      UnionShape(fs);
    } else {
      StructShape(fs);
    }
    LayoutAligned(Agg(k, p, fs));
    forall i | 0 <= i < |fs|
      ensures l.entries[i].align >= 1 && l.entries[i].offset % l.entries[i].align == 0 && l.align % l.entries[i].align == 0
    {
      assert EntryAligned(l.entries[i], l.align);
      PowerOfTwoPositive(l.entries[i].align);
      PowerOfTwoDivides(l.entries[i].align, l.align);
    }
  }

  /** `es` with `e` inserted at position `k`. */
  function Insert(r: Result<(seq<Entry>, Cursor), Error>, k: nat, e: Entry): Result<(seq<Entry>, Cursor), Error>
  {
    match r
    case Err(x) => Err(x)
    case Ok((es, c)) => if k <= |es| then Ok((es[..k] + [e] + es[k..], c)) else r
  }

  /** A zero-length member (an array of no elements, or a typedef of one)
      after no open bit-field run, at a byte offset that is a multiple of its
      alignment, and no more aligned than the members before it, adds no
      bytes and moves nothing: the members around it are laid out exactly as
      without it, and it is reported at the offset where it stands. */
  lemma ZeroLengthNeutral(a: seq<Field>, z: Field, b: seq<Field>, c: Cursor)
    requires z.width.None? && MemberLayout(z).Ok? && MemberLayout(z).value.size == 0
    requires Fold(a, c).Ok?
    requires Fold(a, c).value.1.run.None?
    requires Fold(a, c).value.1.bytes % MemberLayout(z).value.align == 0
    requires MemberLayout(z).value.align <= Fold(a, c).value.1.align
    ensures Fold(a + [z] + b, c) ==
      Insert(Fold(a + b, c), |a|, EntryAt(z, MemberLayout(z).value, Fold(a, c).value.1.bytes))
  {
    var l := MemberLayout(z).value;
    var (ea, c1) := Fold(a, c).value;
    var e := EntryAt(z, l, c1.bytes);
    assert Place(z, c1) == Ok((e, c1));
    assert Fold([z], c1) == Ok(([e], c1)) by {
      FoldCons(z, [], c1, e, c1, [], c1);
      assert [z] + [] == [z] && [e] + [] == [e];
    }
    FoldAppend(a, [z], c);
    FoldAppend(a + [z], b, c);
    FoldAppend(a, b, c);
    match Fold(b, c1)
    case Err(_) =>
    case Ok((eb, c2)) =>
      var joined := ea + eb;
      assert |ea| == |a|;
      assert joined[..|a|] == ea && joined[|a|..] == eb;
  }

  /** Two members that a struct cannot tell apart: the same name and width,
      and the same layout, or for a bit-field the same integer base type. */
  predicate SameShape(f: Field, g: Field)
  {
    && f.name == g.name
    && f.width == g.width
    && (f.width.None? ==> MemberLayout(f) == MemberLayout(g))
    && (f.width.Some? ==> IntegerBase(f.ty) == IntegerBase(g.ty))
    && (f.name.None? ==> f.ty == g.ty)
  }

  /** Member lists that agree member by member up to `SameShape` have the
      same layout, from any cursor. */
  lemma {:induction false} FoldSameShape(fs: seq<Field>, gs: seq<Field>, c: Cursor)
    requires |fs| == |gs| && forall i :: 0 <= i < |fs| ==> SameShape(fs[i], gs[i])
    ensures Fold(fs, c) == Fold(gs, c)
    decreases fs
  {
    if fs != [] {
      assert SameShape(fs[0], gs[0]);
      assert Place(fs[0], c) == Place(gs[0], c);
      match Place(fs[0], c)
      case Err(_) =>
      case Ok((_, c1)) =>
        assert forall i :: 0 <= i < |fs| - 1 ==> fs[1..][i] == fs[i + 1] && gs[1..][i] == gs[i + 1];
        FoldSameShape(fs[1..], gs[1..], c1);
    }
  }

  /** A typedef alias is a member of the same shape as the aliased type. */
  lemma AliasSameShape(f: Field, alias: string)
    requires f.name.Some?
    ensures SameShape(f, Field(f.name, Typedef(alias, f.ty), f.width))
  {
  }

  /** A `class` is laid out as a `struct`, and neither its tag nor the
      namespace it is declared in changes its layout. */
  lemma KeywordAndTagIrrelevant(fs: seq<Field>, p: Option<Path>, q: Option<Path>)
    ensures LayoutOf(Agg(Class, p, fs)) == LayoutOf(Agg(Struct, q, fs))
  {
  }

  /** A pointer's layout does not depend on what it points to, even an
      incomplete type. */
  lemma PointerLayout(p: Type)
    ensures LayoutOf(Pointer(p)) == Ok(Layout(PointerSize, PointerAlign, []))
  {
  }

  /** An array of `n` elements is `n` times the element's size, with the
      element's alignment; `n` may be zero. */
  lemma ArrayLayout(e: Type, n: nat)
    requires LayoutOf(e).Ok?
    ensures LayoutOf(Array(e, n)) == Ok(Layout(n * LayoutOf(e).value.size, LayoutOf(e).value.align, []))
  {
  }
}
