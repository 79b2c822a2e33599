/** The resolved type graph the layout resolver reads: fundamental types,
    pointers, arrays (including zero-length ones), typedef aliases, and struct,
    class and union aggregates whose members may be anonymous aggregates. */
module Types {
  import opened Common
  import opened Abi

  /** `class` and `struct` differ only in default access; their layout is the
      same. */
  datatype AggKind = Struct | Class | Union

  /** A qualified name: namespace and class segments, outermost first. */
  type Path = seq<string>

  datatype Type =
    | Scalar(scalar: ScalarKind)
    | Void
      /** A type that is only declared (`class decl;`): usable behind a
          pointer, never by value. */
    | Incomplete(path: Path)
    | Pointer(pointee: Type)
    | Array(elem: Type, count: nat)
    | Typedef(name: string, target: Type)
      /** `tag` is None for an aggregate declared without a name. */
    | Agg(kind: AggKind, tag: Option<Path>, fields: seq<Field>)

  /** One member, in declaration order. A member without a name is an
      anonymous aggregate whose members belong to the enclosing aggregate;
      `width` is present for bit-fields only. */
  datatype Field = Field(name: Option<string>, ty: Type, width: Option<nat>)

  function Member(name: string, ty: Type): Field
  {
    Field(Some(name), ty, None)
  }

  function BitField(name: string, ty: Type, width: nat): Field
  {
    Field(Some(name), ty, Some(width))
  }

  function Anonymous(ty: Type): Field
  {
    Field(None, ty, None)
  }

  function Struct_(tag: Path, fields: seq<Field>): Type
  {
    Agg(Struct, Some(tag), fields)
  }

  /** The `<stdint.h>` typedef `intN_t` or `uintN_t`, an alias of the kind
      `FixedWidthKind` gives. */
  function FixedWidth(bits: nat, signed: bool): (t: Type)
    requires bits == 8 || bits == 16 || bits == 32 || bits == 64
    ensures t.Typedef? && t.target.Scalar?
    ensures 8 * ScalarSize(t.target.scalar) == bits && IsSigned(t.target.scalar) == signed
  {
    var name :=
      if signed then
        (if bits == 8 then "int8_t" else if bits == 16 then "int16_t"
         else if bits == 32 then "int32_t" else "int64_t")
      else
        (if bits == 8 then "uint8_t" else if bits == 16 then "uint16_t"
         else if bits == 32 then "uint32_t" else "uint64_t");
    Typedef(name, Scalar(FixedWidthKind(bits, signed).value))
  }

  /** Path segments joined by `::`, as C++ writes a qualified name. */
  function QualifiedName(p: Path): string
    decreases |p|
  {
    if |p| == 0 then ""
    else if |p| == 1 then p[0]
    else p[0] + "::" + QualifiedName(p[1..])
  }

  /** The keyword a report opens an aggregate with. */
  function Keyword(k: AggKind): string
  {
    match k
    case Struct => "struct"
    case Class => "class"
    case Union => "union"
  }

  predicate ColonFree(s: string)
  {
    forall i :: 0 <= i < |s| ==> s[i] != ':'
  }

  /** C++ identifiers contain no colon. */
  predicate WellFormedPath(p: Path)
  {
    |p| > 0 && forall i :: 0 <= i < |p| ==> ColonFree(p[i])
  }

  /** The first colon of a joined name sits right after its first segment. */
  lemma {:induction false} FirstColon(p: Path)
    requires WellFormedPath(p)
    ensures |p| == 1 ==> ColonFree(QualifiedName(p))
    ensures |p| > 1 ==>
      && |QualifiedName(p)| > |p[0]|
      && QualifiedName(p)[..|p[0]|] == p[0]
      && QualifiedName(p)[|p[0]|] == ':'
  {
    if |p| > 1 {
      var rest := QualifiedName(p[1..]);
      assert QualifiedName(p) == p[0] + "::" + rest;
      assert (p[0] + "::" + rest)[..|p[0]|] == p[0];
    }
  }

  /** Different namespace paths give different qualified names, so two
      classes with the same simple name in different namespaces are never
      confused. */
  lemma {:induction false} QualifiedNameInjective(p: Path, q: Path)
    requires WellFormedPath(p) && WellFormedPath(q)
    requires QualifiedName(p) == QualifiedName(q)
    ensures p == q
    decreases |p|
  {
    var n := QualifiedName(p);
    FirstColon(p);
    FirstColon(q);
    // A single segment has no colon, and a longer path's first colon ends
    // its first segment; so the paths agree in length class and first segment.
    if |p| > 1 && |q| > 1 && |p[0]| == |q[0]| {
      assert p[0] == q[0];
      var k := |p[0]| + 2;
      assert QualifiedName(p) == p[0] + "::" + QualifiedName(p[1..]);
      assert QualifiedName(q) == q[0] + "::" + QualifiedName(q[1..]);
      assert QualifiedName(p[1..]) == n[k..] == QualifiedName(q[1..]);
      assert WellFormedPath(p[1..]) by {
        forall i | 0 <= i < |p[1..]| ensures ColonFree(p[1..][i]) {
          assert p[1..][i] == p[i + 1];
        }
      }
      assert WellFormedPath(q[1..]) by {
        forall i | 0 <= i < |q[1..]| ensures ColonFree(q[1..][i]) {
          assert q[1..][i] == q[i + 1];
        }
      }
      QualifiedNameInjective(p[1..], q[1..]);
      assert p == [p[0]] + p[1..] && q == [q[0]] + q[1..];
    }
  }
}
