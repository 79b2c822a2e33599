/** The layout resolver: the size and alignment of every type, and for an
    aggregate the offset of each member, with the members of anonymous
    aggregates reported in place at offsets from the outermost aggregate. */
module Resolver {
  import opened Common
  import opened Abi
  import opened Types

  /** Structural defects of the input; each one fails only the aggregate that
      contains it. */
  datatype Error =
      /** A forward-declared type used by value. */
    | IncompleteByValue(path: Path)
    | VoidByValue
    | EmptyAggregate
      /** A member without a name that is not an anonymous aggregate. */
    | UnnamedMember
      /** A bit-field this model does not place: see `PlaceBits`. */
    | UnsupportedBitField(field: Option<string>)

  /** Where a bit-field sits inside its storage unit. */
  datatype BitSlot = BitSlot(bit: nat, width: nat)

  /** One line of an aggregate's layout. A bit-field reports the size and
      offset of its storage unit and its bit position inside it. An anonymous
      aggregate reports its own size and offset and, nested, its members. */
  datatype Entry =
    | Placed(name: string, size: nat, align: nat, offset: nat, slot: Option<BitSlot>)
    | Inline(kind: AggKind, size: nat, align: nat, offset: nat, members: seq<Entry>)

  predicate IsBitField(e: Entry)
  {
    e.Placed? && e.slot.Some?
  }

  /** The first bit an entry occupies, counted from the outermost aggregate's
      first byte. */
  function StartBit(e: Entry): nat
  {
    8 * e.offset + (if IsBitField(e) then e.slot.value.bit else 0)
  }

  /** The bit after the last one an entry occupies. */
  function EndBit(e: Entry): nat
  {
    if IsBitField(e) then 8 * e.offset + e.slot.value.bit + e.slot.value.width
    else 8 * (e.offset + e.size)
  }

  /** The resolved layout of a type. Only aggregates have entries; their
      offsets count from the aggregate's first byte. */
  datatype Layout = Layout(size: nat, align: nat, entries: seq<Entry>)

  /** An open bit-field run: the storage unit's declared type and how many of
      its bits are taken. */
  datatype Run = Run(base: ScalarKind, used: nat)

  /** The state carried across a struct's members: the byte cursor (the first
      free byte, or the open unit's first byte while a run is open), the open
      run, and the largest alignment seen. */
  datatype Cursor = Cursor(bytes: nat, run: Option<Run>, align: nat)

  const Start: Cursor := Cursor(0, None, 1)

  function LayoutOf(t: Type): (r: Result<Layout, Error>)
    ensures r.Ok? ==> PowerOfTwo(r.value.align) && r.value.size % r.value.align == 0
    decreases t, 1
  {
    match t
    case Scalar(k) =>
      ScalarAlignIsSize(k);
      Ok(Layout(ScalarSize(k), ScalarAlign(k), []))
    case Void => Err(VoidByValue)
    case Incomplete(p) => Err(IncompleteByValue(p))
    case Pointer(_) =>
      ScalarAlignIsSize(Long);
      Ok(Layout(PointerSize, PointerAlign, []))
    case Array(e, n) =>
      match LayoutOf(e) {
        case Err(x) => Err(x)
        case Ok(l) =>
          MulKeepsMultiple(n, l.size, l.align);
          Ok(Layout(n * l.size, l.align, []))
      }
    case Typedef(_, u) => LayoutOf(u)
    case Agg(k, _, fs) =>
      if |fs| == 0 then Err(EmptyAggregate)
      else if k == Union then UnionLayout(fs)
      else StructLayout(fs)
  }

  /** Members in declaration order, each at the next offset its alignment
      allows; the size is the end of the last member rounded up to the
      largest alignment. */
  function StructLayout(fs: seq<Field>): (r: Result<Layout, Error>)
    ensures r.Ok? ==> PowerOfTwo(r.value.align) && r.value.size % r.value.align == 0
    decreases fs, 1
  {
    match Fold(fs, Start)
    case Err(x) => Err(x)
    case Ok((es, c)) =>
      var end := Close(c);
      Ok(Layout(AlignUp(end.bytes, end.align), end.align, es))
  }

  function Fold(fs: seq<Field>, c: Cursor): (r: Result<(seq<Entry>, Cursor), Error>)
    ensures r.Ok? ==> |r.value.0| == |fs|
    ensures r.Ok? && PowerOfTwo(c.align) ==> PowerOfTwo(r.value.1.align)
    decreases fs, 0
  {
    if fs == [] then Ok(([], c))
    else
      match Place(fs[0], c)
      case Err(x) => Err(x)
      case Ok((e, c1)) =>
        match Fold(fs[1..], c1) {
          case Err(x) => Err(x)
          case Ok((es, c2)) => Ok(([e] + es, c2))
        }
  }

  /** Ends an open bit-field run: the next member may start at the first byte
      after the bits taken, since bit-fields share their storage unit with the
      members that follow. */
  function Close(c: Cursor): Cursor
  {
    match c.run
    case None => c
    case Some(run) => Cursor(c.bytes + CeilDiv8(run.used), None, c.align)
  }

  /** Places one struct member at the cursor. */
  function Place(f: Field, c: Cursor): (r: Result<(Entry, Cursor), Error>)
    ensures r.Ok? && PowerOfTwo(c.align) ==> PowerOfTwo(r.value.1.align)
    decreases f, 1
  {
    match f.width
    case Some(w) => PlaceBits(f.name, f.ty, w, c)
    case None =>
      match MemberLayout(f) {
        case Err(x) => Err(x)
        case Ok(l) =>
          var c1 := Close(c);
          var o := AlignUp(c1.bytes, l.align);
          Ok((EntryAt(f, l, o), Cursor(o + l.size, None, Max(c1.align, l.align))))
      }
  }

  /** The layout of a member that is not a bit-field. */
  function MemberLayout(f: Field): (r: Result<Layout, Error>)
    ensures r.Ok? ==> PowerOfTwo(r.value.align) && r.value.size % r.value.align == 0
    ensures r.Ok? ==> f.name.Some? || f.ty.Agg?
    decreases f, 0
  {
    if f.name.None? && !f.ty.Agg? then Err(UnnamedMember)
    else LayoutOf(f.ty)
  }

  /** The entry of a member placed at offset `o`; an anonymous aggregate's
      members are moved to offsets from the outermost aggregate. */
  function EntryAt(f: Field, l: Layout, o: nat): Entry
    requires f.name.Some? || f.ty.Agg?
  {
    if f.name.Some? then Placed(f.name.value, l.size, l.align, o, None)
    else Inline(f.ty.kind, l.size, l.align, o, Shift(l.entries, o))
  }

  /** The integer type a bit-field is declared with, through typedefs. */
  function IntegerBase(t: Type): Option<ScalarKind>
  {
    match t
    case Scalar(k) => if IsInteger(k) then Some(k) else None
    case Typedef(_, u) => IntegerBase(u)
    case _ => None
  }

  /** Places a bit-field. A run of named bit-fields of one integer type packs
      into one storage unit of that type, each at the bit after the previous
      one. The model places only such runs, opened at an offset aligned for
      the unit; a bit-field of width 0 or wider than its unit, one that would
      overflow the open unit, one of a different type than the open run, or
      one that would open a unit at an unaligned offset is rejected. */
  function PlaceBits(name: Option<string>, ty: Type, w: nat, c: Cursor): (r: Result<(Entry, Cursor), Error>)
    ensures r.Ok? && PowerOfTwo(c.align) ==> PowerOfTwo(r.value.1.align)
  {
    match (name, IntegerBase(ty))
    case (Some(n), Some(k)) =>
      ScalarAlignIsSize(k);
      var unit, align := ScalarSize(k), ScalarAlign(k);
      if w == 0 || w > 8 * unit then Err(UnsupportedBitField(name))
      else
        match c.run {
          case None =>
            if c.bytes % align != 0 then Err(UnsupportedBitField(name))
            else
              Ok((Placed(n, unit, align, c.bytes, Some(BitSlot(0, w))),
                  Cursor(c.bytes, Some(Run(k, w)), Max(c.align, align))))
          case Some(run) =>
            if run.base != k || run.used + w > 8 * unit then Err(UnsupportedBitField(name))
            else
              Ok((Placed(n, unit, align, c.bytes, Some(BitSlot(run.used, w))),
                  c.(run := Some(Run(k, run.used + w)))))
        }
    case _ => Err(UnsupportedBitField(name))
  }

  /** Every member at offset 0; the size is the largest member size rounded
      up to the largest member alignment. */
  function UnionLayout(fs: seq<Field>): (r: Result<Layout, Error>)
    ensures r.Ok? ==> PowerOfTwo(r.value.align) && r.value.size % r.value.align == 0
    decreases fs, 1
  {
    match UnionFold(fs, 0, 1)
    case Err(x) => Err(x)
    case Ok((es, size, align)) => Ok(Layout(AlignUp(size, align), align, es))
  }

  /** Lays out union members, carrying the largest size and alignment so far. */
  function UnionFold(fs: seq<Field>, size: nat, align: nat): (r: Result<(seq<Entry>, nat, nat), Error>)
    ensures r.Ok? ==> |r.value.0| == |fs|
    ensures r.Ok? && PowerOfTwo(align) ==> PowerOfTwo(r.value.2)
    decreases fs, 0
  {
    if fs == [] then Ok(([], size, align))
    else if fs[0].width.Some? then Err(UnsupportedBitField(fs[0].name))
    else
      match MemberLayout(fs[0])
      case Err(x) => Err(x)
      case Ok(l) =>
        match UnionFold(fs[1..], Max(size, l.size), Max(align, l.align)) {
          case Err(x) => Err(x)
          case Ok((es, s, a)) => Ok(([EntryAt(fs[0], l, 0)] + es, s, a))
        }
  }

  function Shift(es: seq<Entry>, d: nat): (r: seq<Entry>)
    ensures |r| == |es|
    decreases es
  {
    if es == [] then [] else [ShiftEntry(es[0], d)] + Shift(es[1..], d)
  }

  /** Shifting moves each entry on its own. */
  lemma {:induction false} ShiftAt(es: seq<Entry>, d: nat, i: nat)
    requires i < |es|
    ensures Shift(es, d)[i] == ShiftEntry(es[i], d)
    decreases es
  {
    if i > 0 {
      ShiftAt(es[1..], d, i - 1);
    }
  }

  function ShiftEntry(e: Entry, d: nat): Entry
    decreases e
  {
    match e
    case Placed(n, s, a, o, sl) => Placed(n, s, a, o + d, sl)
    case Inline(k, s, a, o, ms) => Inline(k, s, a, o + d, Shift(ms, d))
  }
}
