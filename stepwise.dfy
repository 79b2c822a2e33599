/** A struct's layout is the composition of its members' placements, and a
    union's the composition of its members' layouts: the facts that let a
    layout be computed one member at a time. */
module Stepwise {
  import opened Common
  import opened Types
  import opened Resolver

  /** A struct's member list laid out from cursor `c`, as one value. */
  function Then(r: Result<(seq<Entry>, Cursor), Error>, rest: seq<Field>): Result<(seq<Entry>, Cursor), Error>
  {
    match r
    case Err(x) => Err(x)
    case Ok((es, c1)) =>
      match Fold(rest, c1) {
        case Err(x) => Err(x)
        case Ok((es2, c2)) => Ok((es + es2, c2))
      }
  }

  /** Placing the first member, then the rest from where it left the cursor. */
  lemma FoldCons(f: Field, rest: seq<Field>, c: Cursor, e: Entry, c1: Cursor, es: seq<Entry>, c2: Cursor)
    requires Place(f, c) == Ok((e, c1))
    requires Fold(rest, c1) == Ok((es, c2))
    ensures Fold([f] + rest, c) == Ok(([e] + es, c2))
  {
    assert ([f] + rest)[0] == f && ([f] + rest)[1..] == rest;
  }

  /** A one-member list is laid out by placing that member. */
  lemma FoldOne(f: Field, c: Cursor, e: Entry, c1: Cursor)
    requires Place(f, c) == Ok((e, c1))
    ensures Fold([f], c) == Ok(([e], c1))
  {
    assert [f][0] == f && [f][1..] == [];
    assert [e] + [] == [e];
  }

  /** Laying out `a + b` is laying out `a`, then `b` from the cursor `a`
      leaves; the first failing member decides the error. */
  lemma {:induction false} FoldAppend(a: seq<Field>, b: seq<Field>, c: Cursor)
    ensures Fold(a + b, c) == Then(Fold(a, c), b)
    decreases a
  {
    if a == [] {
      assert a + b == b;
      match Fold(b, c)
      case Err(_) =>
      case Ok((es, c2)) => assert [] + es == es;
    } else {
      assert (a + b)[0] == a[0] && (a + b)[1..] == a[1..] + b;
      match Place(a[0], c)
      case Err(_) =>
      case Ok((e, c1)) =>
        FoldAppend(a[1..], b, c1);
        match Fold(a[1..], c1)
        case Err(_) =>
        case Ok((es, c2)) =>
          match Fold(b, c2)
          case Err(_) =>
          case Ok((es2, c3)) => assert [e] + (es + es2) == ([e] + es) + es2;
    }
  }

  /** A union member's layout, then the rest with the running maxima. */
  lemma UnionCons(f: Field, rest: seq<Field>, size: nat, align: nat, l: Layout, es: seq<Entry>, s: nat, a: nat)
    requires f.width.None?
    requires MemberLayout(f) == Ok(l)
    requires UnionFold(rest, Max(size, l.size), Max(align, l.align)) == Ok((es, s, a))
    ensures UnionFold([f] + rest, size, align) == Ok(([EntryAt(f, l, 0)] + es, s, a))
  {
    assert ([f] + rest)[0] == f && ([f] + rest)[1..] == rest;
  }

  /** A one-member union is that member at offset 0. */
  lemma UnionOne(f: Field, size: nat, align: nat, l: Layout)
    requires f.width.None?
    requires MemberLayout(f) == Ok(l)
    ensures UnionFold([f], size, align) == Ok(([EntryAt(f, l, 0)], Max(size, l.size), Max(align, l.align)))
  {
    assert [f][0] == f && [f][1..] == [];
    assert [EntryAt(f, l, 0)] + [] == [EntryAt(f, l, 0)];
  }

  /** A struct's layout from the fold of its members, with the size and
      alignment that closing the final cursor gives. */
  lemma StructFromFold(fs: seq<Field>, es: seq<Entry>, c: Cursor, size: nat, align: nat)
    requires Fold(fs, Start) == Ok((es, c))
    requires Close(c).align == align && AlignUp(Close(c).bytes, align) == size
    ensures StructLayout(fs) == Ok(Layout(size, align, es))
  {
  }

  /** A union's layout from the fold of its members: the largest size
      rounded up to the largest alignment. */
  lemma UnionFromFold(fs: seq<Field>, es: seq<Entry>, s: nat, a: nat, size: nat)
    requires UnionFold(fs, 0, 1) == Ok((es, s, a))
    requires a > 0 && AlignUp(s, a) == size
    ensures UnionLayout(fs) == Ok(Layout(size, a, es))
  {
  }

  /** A non-empty member list is laid out as a struct under either
      keyword and any tag, and as a union under `union`. */
  lemma AggOf(k: AggKind, tag: Option<Path>, fs: seq<Field>, l: Layout)
    requires |fs| > 0
    requires k != Union ==> StructLayout(fs) == Ok(l)
    requires k == Union ==> UnionLayout(fs) == Ok(l)
    ensures LayoutOf(Agg(k, tag, fs)) == Ok(l)
  {
  }

  /** A named member that is not a bit-field, placed where no bit-field run
      is open. */
  lemma PlaceNamed(f: Field, c: Cursor, l: Layout, o: nat)
    requires f.name.Some? && f.width.None? && c.run.None?
    requires LayoutOf(f.ty) == Ok(l) && l.align > 0 && AlignUp(c.bytes, l.align) == o
    ensures Place(f, c) == Ok((Placed(f.name.value, l.size, l.align, o, None), Cursor(o + l.size, None, Max(c.align, l.align))))
  {
  }

  /** An anonymous aggregate member, placed where no bit-field run is open:
      it is reported in place, its members moved to its offset. */
  lemma PlaceAnon(f: Field, c: Cursor, l: Layout, o: nat, ms: seq<Entry>)
    requires f.name.None? && f.width.None? && c.run.None? && f.ty.Agg?
    requires LayoutOf(f.ty) == Ok(l) && l.align > 0 && AlignUp(c.bytes, l.align) == o
    requires Shift(l.entries, o) == ms
    ensures Place(f, c) == Ok((Inline(f.ty.kind, l.size, l.align, o, ms), Cursor(o + l.size, None, Max(c.align, l.align))))
  {
  }

  /** Moving entries by nothing leaves them as they are. */
  lemma {:induction false} ShiftZero(es: seq<Entry>)
    ensures Shift(es, 0) == es
    decreases es, 1
  {
    if es != [] {
      ShiftEntryZero(es[0]);
      ShiftZero(es[1..]);
      assert es == [es[0]] + es[1..];
    }
  }

  lemma {:induction false} ShiftEntryZero(e: Entry)
    ensures ShiftEntry(e, 0) == e
    decreases e, 0
  {
    if e.Inline? {
      ShiftZero(e.members);
    }
  }

  /** Shifting a list moves its first entry, then the rest. */
  lemma ShiftCons(e: Entry, rest: seq<Entry>, d: nat)
    ensures Shift([e] + rest, d) == [ShiftEntry(e, d)] + Shift(rest, d)
  {
    assert ([e] + rest)[0] == e && ([e] + rest)[1..] == rest;
  }
}
