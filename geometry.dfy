/** Where the entries of a resolved aggregate lie, in bits: the members of a
    struct follow one another without overlapping, every member of a union
    starts at the union's first byte, nothing reaches past the aggregate's
    size, and the members of an anonymous aggregate lie inside it, at every
    depth of nesting. */
module Geometry {
  import opened Common
  import opened Abi
  import opened Types
  import opened Resolver

  /** The first bit not yet taken by the members placed so far. */
  function Frontier(c: Cursor): nat
  {
    8 * c.bytes + (if c.run.Some? then c.run.value.used else 0)
  }

  /** Entries in order, each ending at or before the next one starts. */
  predicate Disjoint(es: seq<Entry>)
  {
    forall i, j :: 0 <= i < j < |es| ==> EndBit(es[i]) <= StartBit(es[j])
  }

  /** One level of an aggregate of kind `k` that starts at byte `base` and
      has `size` bytes: every entry lies inside it, and a bit-field inside its
      storage unit; a union's entries all start at `base` and none is a
      bit-field; a struct's entries are disjoint. */
  predicate Level(k: AggKind, es: seq<Entry>, base: nat, size: nat)
  {
    && (forall i :: 0 <= i < |es| ==>
          && 8 * base <= StartBit(es[i]) <= EndBit(es[i]) <= 8 * (base + size)
          && EndBit(es[i]) <= 8 * (es[i].offset + es[i].size))
    && (k == Union ==> forall i :: 0 <= i < |es| ==> es[i].offset == base && !IsBitField(es[i]))
    && (k != Union ==> Disjoint(es))
  }

  /** `Level` at this depth and inside every anonymous member. */
  predicate Nested(k: AggKind, es: seq<Entry>, base: nat, size: nat)
    decreases es, 1
  {
    Level(k, es, base, size) && AllNested(es)
  }

  predicate AllNested(es: seq<Entry>)
    decreases es, 0
  {
    forall i :: 0 <= i < |es| ==> EntryNested(es[i])
  }

  predicate EntryNested(e: Entry)
    decreases e
  {
    e.Inline? ==> Nested(e.kind, e.members, e.offset, e.size)
  }

  /** The headline property, for every aggregate that resolves. */
  lemma {:induction false} AggGeometry(t: Type)
    requires t.Agg? && LayoutOf(t).Ok?
    ensures Nested(t.kind, LayoutOf(t).value.entries, 0, LayoutOf(t).value.size)
    decreases t, 2
  {
    if t.kind == Union {
      UnionGeometry(t.fields);
    } else {
      StructGeometry(t.fields);
    }
  }

  lemma {:induction false} StructGeometry(fs: seq<Field>)
    requires StructLayout(fs).Ok?
    ensures Nested(Struct, StructLayout(fs).value.entries, 0, StructLayout(fs).value.size)
    ensures Nested(Class, StructLayout(fs).value.entries, 0, StructLayout(fs).value.size)
    decreases fs, 1
  {
    FoldGeometry(fs, Start);
    var (es, c) := Fold(fs, Start).value;
    var l := StructLayout(fs).value;
    assert 8 * l.size >= Frontier(c) by {
      var run := c.run;
      if run.Some? {
        assert 8 * CeilDiv8(run.value.used) >= run.value.used;
      }
    }
  }

  lemma {:induction false} FoldGeometry(fs: seq<Field>, c: Cursor)
    requires Fold(fs, c).Ok?
    ensures Frontier(c) <= Frontier(Fold(fs, c).value.1)
    ensures Disjoint(Fold(fs, c).value.0) && AllNested(Fold(fs, c).value.0)
    ensures forall i :: 0 <= i < |Fold(fs, c).value.0| ==>
      var e := Fold(fs, c).value.0[i];
      Frontier(c) <= StartBit(e) <= EndBit(e) <= 8 * (e.offset + e.size) && EndBit(e) <= Frontier(Fold(fs, c).value.1)
    decreases fs, 0
  {
    if fs != [] {
      PlaceGeometry(fs[0], c);
      var (e, c1) := Place(fs[0], c).value;
      FoldGeometry(fs[1..], c1);
      var (es, c2) := Fold(fs[1..], c1).value;
      var all := [e] + es;
      assert Fold(fs, c).value.0 == all;
      forall i | 0 <= i < |all|
        ensures Frontier(c) <= StartBit(all[i]) <= EndBit(all[i]) <= 8 * (all[i].offset + all[i].size)
        ensures EndBit(all[i]) <= Frontier(c2)
        ensures EntryNested(all[i])
      {
        if i > 0 {
          assert all[i] == es[i - 1];
        }
      }
      forall i, j | 0 <= i < j < |all| ensures EndBit(all[i]) <= StartBit(all[j]) {
        assert all[j] == es[j - 1];
        if i > 0 {
          assert all[i] == es[i - 1];
        }
      }
    }
  }

  /** A member starts at or after the frontier and moves the frontier to its
      own end. */
  lemma {:induction false} PlaceGeometry(f: Field, c: Cursor)
    requires Place(f, c).Ok?
    ensures var (e, c1) := Place(f, c).value;
      && Frontier(c) <= StartBit(e) <= EndBit(e) <= 8 * (e.offset + e.size)
      && EndBit(e) == Frontier(c1)
      && EntryNested(e)
    decreases f, 1
  {
    if f.width.None? {
      var l := MemberLayout(f).value;
      var c1 := Close(c);
      if c.run.Some? {
        assert 8 * CeilDiv8(c.run.value.used) >= c.run.value.used;
      }
      var o := AlignUp(c1.bytes, l.align);
      if f.name.None? {
        MemberGeometry(f);
        ShiftNested(f.ty.kind, l.entries, 0, l.size, o);
      }
    }
  }

  lemma {:induction false} MemberGeometry(f: Field)
    requires MemberLayout(f).Ok? && f.name.None?
    ensures f.ty.Agg?
    ensures Nested(f.ty.kind, MemberLayout(f).value.entries, 0, MemberLayout(f).value.size)
    decreases f, 0
  {
    AggGeometry(f.ty);
  }

  lemma {:induction false} UnionGeometry(fs: seq<Field>)
    requires UnionLayout(fs).Ok?
    ensures Nested(Union, UnionLayout(fs).value.entries, 0, UnionLayout(fs).value.size)
    decreases fs, 1
  {
    UnionFoldGeometry(fs, 0, 1);
  }

  lemma {:induction false} UnionFoldGeometry(fs: seq<Field>, size: nat, align: nat)
    requires UnionFold(fs, size, align).Ok?
    ensures var (es, s, _) := UnionFold(fs, size, align).value;
      && size <= s
      && AllNested(es)
      && forall i :: 0 <= i < |es| ==>
           es[i].offset == 0 && !IsBitField(es[i]) && es[i].size <= s
    decreases fs, 0
  {
    if fs != [] {
      var l := MemberLayout(fs[0]).value;
      UnionFoldGeometry(fs[1..], Max(size, l.size), Max(align, l.align));
      var (es, s, a) := UnionFold(fs[1..], Max(size, l.size), Max(align, l.align)).value;
      var e := EntryAt(fs[0], l, 0);
      if fs[0].name.None? {
        MemberGeometry(fs[0]);
        ShiftNested(fs[0].ty.kind, l.entries, 0, l.size, 0);
      }
      var all := [e] + es;
      assert UnionFold(fs, size, align).value.0 == all;
      forall i | 0 <= i < |all|
        ensures all[i].offset == 0 && !IsBitField(all[i]) && all[i].size <= s && EntryNested(all[i])
      {
        if i > 0 {
          assert all[i] == es[i - 1];
        }
      }
    }
  }

  /** Moving a nested level by `d` bytes moves everything in it by `d`. */
  lemma {:induction false} ShiftNested(k: AggKind, es: seq<Entry>, base: nat, size: nat, d: nat)
    requires Nested(k, es, base, size)
    ensures Nested(k, Shift(es, d), base + d, size)
    decreases es, 1
  {
    var moved := Shift(es, d);
    forall i | 0 <= i < |es|
      ensures StartBit(moved[i]) == StartBit(es[i]) + 8 * d
      ensures EndBit(moved[i]) == EndBit(es[i]) + 8 * d
      ensures moved[i].offset == es[i].offset + d && moved[i].size == es[i].size
      ensures IsBitField(moved[i]) == IsBitField(es[i])
      ensures EntryNested(moved[i])
    {
      ShiftAt(es, d, i);
      ShiftEntryNested(es[i], d);
    }
    assert Level(k, moved, base + d, size);
  }

  lemma {:induction false} ShiftEntryNested(e: Entry, d: nat)
    requires EntryNested(e)
    ensures EntryNested(ShiftEntry(e, d))
    decreases e, 0
  {
    if e.Inline? {
      ShiftNested(e.kind, e.members, e.offset, e.size, d);
    }
  }
}
