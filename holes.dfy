/** Holes: the bits of an aggregate that no member occupies. A hole is
    computed between consecutive members of a struct and after its last
    member; a union has none of its own, but an anonymous struct inside it
    can. Every hole is reported as whole bytes and left-over bits. */
module Holes {
  import opened Common
  import opened Types
  import opened Resolver
  import opened Geometry

  /** A hole of `8 * bytes + bits` bits. `at` is the path of entry indices
      from the outermost aggregate down to the level holding the hole,
      ending with the index of the entry the hole precedes (the number of
      entries at that level when the hole comes last). */
  datatype Hole = Hole(at: seq<nat>, bytes: nat, bits: nat)

  /** `r` bits as `r / 8` bytes and `r % 8` bits. */
  function HoleOf(at: seq<nat>, r: nat): (h: Hole)
    ensures h.at == at && 8 * h.bytes + h.bits == r && h.bits < 8
  {
    Hole(at, r / 8, r % 8)
  }

  function HoleBits(h: Hole): nat
  {
    8 * h.bytes + h.bits
  }

  /** Bytes and left-over bits are the only split of a length with fewer
      than 8 left-over bits. */
  lemma HoleOfUnique(at: seq<nat>, r: nat, h: Hole)
    requires h.at == at && HoleBits(h) == r && h.bits < 8
    ensures h == HoleOf(at, r)
  {
    DivModUnique(r, 8, h.bytes, h.bits);
  }

  /** The holes of one struct level: before each entry, the bits between the
      end of the previous entry (bit `prev` for the first) and its start; and
      after the last, the bits up to `end`. `i` is the index of `es[0]`. */
  function Gaps(es: seq<Entry>, i: nat, prev: nat, end: nat): seq<Hole>
    decreases es
  {
    if es == [] then
      (if prev < end then [HoleOf([i], end - prev)] else [])
    else
      (if prev < StartBit(es[0]) then [HoleOf([i], StartBit(es[0]) - prev)] else [])
      + Gaps(es[1..], i + 1, EndBit(es[0]), end)
  }

  /** The holes of a level of kind `k` at byte `base` of `size` bytes, then
      those inside its anonymous members. */
  function HolesIn(k: AggKind, es: seq<Entry>, base: nat, size: nat): seq<Hole>
    decreases es, 1
  {
    (if k == Union then [] else Gaps(es, 0, 8 * base, 8 * (base + size))) + Inner(es, 0)
  }

  function Inner(es: seq<Entry>, i: nat): seq<Hole>
    decreases es, 0
  {
    if es == [] then []
    else
      (if es[0].Inline? then Under(i, HolesIn(es[0].kind, es[0].members, es[0].offset, es[0].size)) else [])
      + Inner(es[1..], i + 1)
  }

  /** Holes of the entry at index `i`, seen from the level above. */
  function Under(i: nat, hs: seq<Hole>): (r: seq<Hole>)
    ensures |r| == |hs|
    ensures forall j :: 0 <= j < |hs| ==> r[j] == hs[j].(at := [i] + hs[j].at)
  {
    if hs == [] then [] else [hs[0].(at := [i] + hs[0].at)] + Under(i, hs[1..])
  }

  /** The holes of a resolved aggregate, at every depth. */
  function HolesOf(t: Type): seq<Hole>
    requires t.Agg? && LayoutOf(t).Ok?
  {
    HolesIn(t.kind, LayoutOf(t).value.entries, 0, LayoutOf(t).value.size)
  }

  /** The bits the entries of one level occupy. */
  function Occupied(es: seq<Entry>): nat
  {
    if es == [] then 0 else EndBit(es[0]) - StartBit(es[0]) + Occupied(es[1..])
  }

  function TotalBits(hs: seq<Hole>): nat
  {
    if hs == [] then 0 else HoleBits(hs[0]) + TotalBits(hs[1..])
  }

  lemma {:induction false} TotalBitsAppend(a: seq<Hole>, b: seq<Hole>)
    ensures TotalBits(a + b) == TotalBits(a) + TotalBits(b)
    decreases a
  {
    if a == [] {
      assert a + b == b;
    } else {
      assert (a + b)[0] == a[0] && (a + b)[1..] == a[1..] + b;
      TotalBitsAppend(a[1..], b);
    }
  }

  /** Entries in order from `prev` to `end`, as `Level` and `Disjoint`
      describe a struct level. */
  predicate Spans(es: seq<Entry>, prev: nat, end: nat)
  {
    && Disjoint(es)
    && (forall j :: 0 <= j < |es| ==> prev <= StartBit(es[j]) <= EndBit(es[j]) <= end)
    && prev <= end
  }

  /** Members and holes together fill a level exactly, and every hole is at
      least one bit long. */
  lemma {:induction false} GapsFill(es: seq<Entry>, i: nat, prev: nat, end: nat)
    requires Spans(es, prev, end)
    ensures Occupied(es) + TotalBits(Gaps(es, i, prev, end)) == end - prev
    ensures forall j :: 0 <= j < |Gaps(es, i, prev, end)| ==> HoleBits(Gaps(es, i, prev, end)[j]) > 0
    decreases es
  {
    if es != [] {
      var e := es[0];
      assert Spans(es[1..], EndBit(e), end) by {
        forall j | 0 <= j < |es| - 1 ensures EndBit(e) <= StartBit(es[1..][j]) {
          assert es[1..][j] == es[j + 1];
        }
        forall j, k | 0 <= j < k < |es| - 1 ensures EndBit(es[1..][j]) <= StartBit(es[1..][k]) {
          assert es[1..][j] == es[j + 1] && es[1..][k] == es[k + 1];
        }
        if |es| == 1 {
          assert EndBit(e) <= end;
        }
      }
      GapsFill(es[1..], i + 1, EndBit(e), end);
      var here: seq<Hole> := if prev < StartBit(e) then [HoleOf([i], StartBit(e) - prev)] else [];
      TotalBitsAppend(here, Gaps(es[1..], i + 1, EndBit(e), end));
      assert TotalBits(here) == StartBit(e) - prev;
    }
  }

  /** A level has no hole exactly when its members fill it. */
  lemma NoGapsIff(es: seq<Entry>, i: nat, prev: nat, end: nat)
    requires Spans(es, prev, end)
    ensures Gaps(es, i, prev, end) == [] <==> Occupied(es) == end - prev
  {
    GapsFill(es, i, prev, end);
    var hs := Gaps(es, i, prev, end);
    if hs != [] {
      assert HoleBits(hs[0]) > 0;
      assert TotalBits(hs) >= HoleBits(hs[0]);
    }
  }

  /** In every resolved struct, the members and the holes between and after
      them add up to the struct's size. */
  lemma StructFilled(t: Type)
    requires t.Agg? && t.kind != Union && LayoutOf(t).Ok?
    ensures var l := LayoutOf(t).value;
      Occupied(l.entries) + TotalBits(Gaps(l.entries, 0, 0, 8 * l.size)) == 8 * l.size
  {
    AggGeometry(t);
    var l := LayoutOf(t).value;
    assert Spans(l.entries, 0, 8 * l.size);
    GapsFill(l.entries, 0, 0, 8 * l.size);
  }
}
