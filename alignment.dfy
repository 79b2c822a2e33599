/** Every offset the resolver reports, at every depth of anonymous nesting, is
    a multiple of its member's alignment, and every alignment is a power of
    two that divides the alignment of the aggregate holding it. */
module Alignment {
  import opened Common
  import opened Abi
  import opened Types
  import opened Resolver

  /** `e` sits at a multiple of its alignment, which is a power of two no
      larger than `a`; so do the members of an anonymous aggregate, within
      their own alignment. */
  predicate EntryAligned(e: Entry, a: nat)
    decreases e
  {
    && PowerOfTwo(e.align)
    && e.align <= a
    && e.offset % e.align == 0
    && (e.Inline? ==> AllAligned(e.members, e.align))
  }

  predicate AllAligned(es: seq<Entry>, a: nat)
    decreases es
  {
    forall i :: 0 <= i < |es| ==> EntryAligned(es[i], a)
  }

  /** What the struct cursor keeps: a power-of-two running alignment, and an
      open storage unit that starts at a multiple of its own alignment. */
  predicate CursorAligned(c: Cursor)
  {
    && PowerOfTwo(c.align)
    && (c.run.Some? ==>
          c.bytes % ScalarAlign(c.run.value.base) == 0 && ScalarAlign(c.run.value.base) <= c.align)
  }

  lemma MaxPowerOfTwo(a: nat, b: nat)
    requires PowerOfTwo(a) && PowerOfTwo(b)
    ensures PowerOfTwo(Max(a, b)) && a <= Max(a, b) && b <= Max(a, b)
  {
  }

  /** Moving aligned entries by a multiple of their container's alignment
      keeps them aligned. */
  lemma {:induction false} ShiftAligned(es: seq<Entry>, d: nat, a: nat)
    requires PowerOfTwo(a) && d % a == 0 && AllAligned(es, a)
    ensures AllAligned(Shift(es, d), a)
    decreases es, 1
  {
    forall i | 0 <= i < |es| ensures EntryAligned(Shift(es, d)[i], a) {
      ShiftAt(es, d, i);
      ShiftEntryAligned(es[i], d, a);
    }
  }

  lemma {:induction false} ShiftEntryAligned(e: Entry, d: nat, a: nat)
    requires PowerOfTwo(a) && d % a == 0 && EntryAligned(e, a)
    ensures EntryAligned(ShiftEntry(e, d), a)
    decreases e, 0
  {
    PowerOfTwoPositive(e.align);
    PowerOfTwoPositive(a);
    PowerOfTwoDivides(e.align, a);
    DividesTrans(d, a, e.align);
    AddKeepsMultiple(e.offset, d, e.align);
    if e.Inline? {
      ShiftAligned(e.members, d, e.align);
    }
  }

  /** The headline property: a resolved layout's entries are aligned. */
  lemma {:induction false} LayoutAligned(t: Type)
    requires LayoutOf(t).Ok?
    ensures AllAligned(LayoutOf(t).value.entries, LayoutOf(t).value.align)
    decreases t, 1
  {
    match t
    case Typedef(_, u) => LayoutAligned(u);
    case Agg(k, _, fs) =>
      if k == Union {
        UnionAligned(fs);
      } else {
        StructAligned(fs);
      }
    case _ =>
  }

  lemma {:induction false} StructAligned(fs: seq<Field>)
    requires StructLayout(fs).Ok?
    ensures AllAligned(StructLayout(fs).value.entries, StructLayout(fs).value.align)
    decreases fs, 1
  {
    assert CursorAligned(Start);
    FoldAligned(fs, Start);
  }

  lemma {:induction false} FoldAligned(fs: seq<Field>, c: Cursor)
    requires CursorAligned(c) && Fold(fs, c).Ok?
    ensures CursorAligned(Fold(fs, c).value.1)
    ensures c.align <= Fold(fs, c).value.1.align
    ensures AllAligned(Fold(fs, c).value.0, Fold(fs, c).value.1.align)
    decreases fs, 0
  {
    if fs != [] {
      PlaceAligned(fs[0], c);
      var (e, c1) := Place(fs[0], c).value;
      FoldAligned(fs[1..], c1);
      var (es, c2) := Fold(fs[1..], c1).value;
      assert Fold(fs, c).value.0 == [e] + es;
      assert EntryAligned(e, c2.align);
    }
  }

  lemma {:induction false} PlaceAligned(f: Field, c: Cursor)
    requires CursorAligned(c) && Place(f, c).Ok?
    ensures CursorAligned(Place(f, c).value.1)
    ensures c.align <= Place(f, c).value.1.align
    ensures EntryAligned(Place(f, c).value.0, Place(f, c).value.1.align)
    decreases f, 1
  {
    match f.width
    case Some(w) =>
      var k := IntegerBase(f.ty).value;
      ScalarAlignIsSize(k);
      MaxPowerOfTwo(c.align, ScalarAlign(k));
    case None =>
      var l := MemberLayout(f).value;
      var o := AlignUp(Close(c).bytes, l.align);
      MaxPowerOfTwo(c.align, l.align);
      if f.name.None? {
        MemberAligned(f);
        ShiftAligned(l.entries, o, l.align);
      }
  }

  lemma {:induction false} MemberAligned(f: Field)
    requires MemberLayout(f).Ok?
    ensures AllAligned(MemberLayout(f).value.entries, MemberLayout(f).value.align)
    decreases f, 0
  {
    LayoutAligned(f.ty);
  }

  lemma {:induction false} UnionAligned(fs: seq<Field>)
    requires UnionLayout(fs).Ok?
    ensures AllAligned(UnionLayout(fs).value.entries, UnionLayout(fs).value.align)
    decreases fs, 1
  {
    UnionFoldAligned(fs, 0, 1);
  }

  lemma {:induction false} UnionFoldAligned(fs: seq<Field>, size: nat, align: nat)
    requires PowerOfTwo(align) && UnionFold(fs, size, align).Ok?
    ensures PowerOfTwo(UnionFold(fs, size, align).value.2)
    ensures align <= UnionFold(fs, size, align).value.2
    ensures AllAligned(UnionFold(fs, size, align).value.0, UnionFold(fs, size, align).value.2)
    decreases fs, 0
  {
    if fs != [] {
      var l := MemberLayout(fs[0]).value;
      MaxPowerOfTwo(align, l.align);
      UnionFoldAligned(fs[1..], Max(size, l.size), Max(align, l.align));
      var (es, s, a) := UnionFold(fs[1..], Max(size, l.size), Max(align, l.align)).value;
      var e := EntryAt(fs[0], l, 0);
      if fs[0].name.None? {
        MemberAligned(fs[0]);
        ShiftAligned(l.entries, 0, l.align);
      }
      assert EntryAligned(e, a);
      assert UnionFold(fs, size, align).value.0 == [e] + es;
    }
  }
}
