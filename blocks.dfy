/** Report blocks: which aggregates a report lays out on their own, under
    which name. A block is due for every aggregate reached by value from the
    reported type (the type itself, member types, array element types, at
    any depth) that has a name: its tag, joined with its namespaces, or for
    an untagged aggregate the typedef that introduces it. Pointers are not
    followed, and an aggregate is reported once however often it is
    reached. */
module Blocks {
  import opened Common
  import opened Types
  import opened Resolver

  datatype Block = Block(kind: AggKind, name: string, fields: seq<Field>)

  /** The blocks a value of type `t` brings in; `alias` is the typedef name
      `t` was reached through, if any. */
  function Reached(t: Type, alias: Option<string>): set<Block>
    decreases t, 1
  {
    match t
    case Typedef(n, u) => Reached(u, Some(n))
    case Array(e, _) => Reached(e, None)
    case Agg(k, tag, fs) =>
      var own: set<Block> :=
        if tag.Some? then {Block(k, QualifiedName(tag.value), fs)}
        else if alias.Some? then {Block(k, alias.value, fs)}
        else {};
      own + ReachedAll(fs)
    case _ => {}
  }

  function ReachedAll(fs: seq<Field>): set<Block>
    decreases fs, 0
  {
    if fs == [] then {} else ReachedBy(fs[0]) + ReachedAll(fs[1..])
  }

  function ReachedBy(f: Field): set<Block>
    decreases f, 2
  {
    Reached(f.ty, None)
  }

  /** The blocks of a report on the given types. */
  function ReportBlocks(roots: seq<Type>): set<Block>
  {
    if roots == [] then {} else Reached(roots[0], None) + ReportBlocks(roots[1..])
  }

  function BlockLayout(b: Block): Result<Layout, Error>
  {
    LayoutOf(Agg(b.kind, None, b.fields))
  }

  /** What a member list that resolves says about its members: each member
      that is not a bit-field has a layout, and each bit-field has an
      integer type. */
  predicate MembersResolve(fs: seq<Field>)
  {
    forall i :: 0 <= i < |fs| ==>
      (fs[i].width.None? ==> LayoutOf(fs[i].ty).Ok?) && (fs[i].width.Some? ==> IntegerBase(fs[i].ty).Some?)
  }

  lemma {:induction false} FoldMembersResolve(fs: seq<Field>, c: Cursor)
    requires Fold(fs, c).Ok?
    ensures MembersResolve(fs)
    decreases fs
  {
    if fs != [] {
      var c1 := Place(fs[0], c).value.1;
      if fs[0].width.None? {
        assert MemberLayout(fs[0]).Ok?;
      } else {
        assert PlaceBits(fs[0].name, fs[0].ty, fs[0].width.value, c).Ok?;
      }
      FoldMembersResolve(fs[1..], c1);
      assert forall i :: 1 <= i < |fs| ==> fs[i] == fs[1..][i - 1];
    }
  }

  lemma {:induction false} UnionFoldMembersResolve(fs: seq<Field>, size: nat, align: nat)
    requires UnionFold(fs, size, align).Ok?
    ensures MembersResolve(fs)
    decreases fs
  {
    if fs != [] {
      var l := MemberLayout(fs[0]).value;
      UnionFoldMembersResolve(fs[1..], Max(size, l.size), Max(align, l.align));
      assert forall i :: 1 <= i < |fs| ==> fs[i] == fs[1..][i - 1];
    }
  }

  /** A bit-field's integer type brings no block. */
  lemma {:induction false} IntegerTypeNoBlocks(t: Type, alias: Option<string>)
    requires IntegerBase(t).Some?
    ensures Reached(t, alias) == {}
  {
    if t.Typedef? {
      IntegerTypeNoBlocks(t.target, Some(t.name));
    }
  }

  /** Every block a resolved type brings into a report can itself be laid
      out: a report never names an aggregate it cannot lay out, such as an
      incomplete type, which only a pointer can reach. */
  lemma {:induction false} BlocksResolve(t: Type, alias: Option<string>)
    requires LayoutOf(t).Ok?
    ensures forall b :: b in Reached(t, alias) ==> BlockLayout(b).Ok?
    decreases t, 1
  {
    match t
    case Typedef(n, u) => BlocksResolve(u, Some(n));
    case Array(e, _) => BlocksResolve(e, None);
    case Agg(k, _, fs) =>
      if k == Union {
        UnionFoldMembersResolve(fs, 0, 1);
      } else {
        FoldMembersResolve(fs, Start);
      }
      MembersBlocksResolve(fs);
    case _ =>
  }

  lemma {:induction false} MembersBlocksResolve(fs: seq<Field>)
    requires MembersResolve(fs)
    ensures forall b :: b in ReachedAll(fs) ==> BlockLayout(b).Ok?
    decreases fs, 0
  {
    if fs != [] {
      MemberBlocksResolve(fs[0]);
      assert MembersResolve(fs[1..]) by {
        forall i | 0 <= i < |fs| - 1 ensures fs[1..][i] == fs[i + 1] {}
      }
      MembersBlocksResolve(fs[1..]);
    }
  }

  lemma {:induction false} MemberBlocksResolve(f: Field)
    requires f.width.None? ==> LayoutOf(f.ty).Ok?
    requires f.width.Some? ==> IntegerBase(f.ty).Some?
    ensures forall b :: b in ReachedBy(f) ==> BlockLayout(b).Ok?
    decreases f, 2
  {
    if f.width.None? {
      BlocksResolve(f.ty, None);
    } else {
      IntegerTypeNoBlocks(f.ty, None);
    }
  }

  /** The blocks of `a + b` are those of `a` and those of `b`. */
  lemma {:induction false} ReachedAllAppend(a: seq<Field>, b: seq<Field>)
    ensures ReachedAll(a + b) == ReachedAll(a) + ReachedAll(b)
    decreases a
  {
    if a == [] {
      assert a + b == b;
    } else {
      assert (a + b)[0] == a[0] && (a + b)[1..] == a[1..] + b;
      ReachedAllAppend(a[1..], b);
    }
  }

  /** A pointer brings no block, whatever it points to. */
  lemma PointerNoBlocks(p: Type, alias: Option<string>)
    ensures Reached(Pointer(p), alias) == {}
  {
  }
}
