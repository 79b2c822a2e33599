/** Why `Shape.ZeroLengthNeutral` asks for no open bit-field run: in
    `struct { int a:8; int z[0]; int b:3; }` the zero-length `z` closes the
    run of `a`, so `b` opens a new storage unit at byte 4, where without `z`
    it shares the unit of `a`, and the struct grows from 4 bytes to 8. */
module ZeroLengthAfterRun {
  import opened Common
  import opened Abi
  import opened Types
  import opened Resolver
  import opened Stepwise

  const RField1 := BitField("a", Scalar(Int), 8)
  const RField2 := Member("z", Array(Scalar(Int), 0))
  const RField3 := BitField("b", Scalar(Int), 3)

  // With `z`.
  const RFields3: seq<Field> := [RField3]
  const RFields2: seq<Field> := [RField2] + RFields3
  const RFields1: seq<Field> := [RField1] + RFields2

  const REntry1 := Placed("a", 4, 4, 0, Some(BitSlot(0, 8)))
  const REntry2 := Placed("z", 0, 4, 4, None)
  const REntry3 := Placed("b", 4, 4, 4, Some(BitSlot(0, 3)))

  const REntries3: seq<Entry> := [REntry3]
  const REntries2: seq<Entry> := [REntry2] + REntries3
  const REntries1: seq<Entry> := [REntry1] + REntries2

  // The cursor after each member.
  const RAfter1 := Cursor(0, Some(Run(Int, 8)), 4)
  const RAfter2 := Cursor(4, None, 4)
  const RAfter3 := Cursor(4, Some(Run(Int, 3)), 4)

  // Without `z`.
  const WFields2: seq<Field> := [RField3]
  const WFields1: seq<Field> := [RField1] + WFields2

  const WEntry2 := Placed("b", 4, 4, 0, Some(BitSlot(8, 3)))
  const WEntries2: seq<Entry> := [WEntry2]
  const WEntries1: seq<Entry> := [REntry1] + WEntries2

  const WAfter2 := Cursor(0, Some(Run(Int, 11)), 4)

  lemma RPlace1() ensures Place(RField1, Start) == Ok((REntry1, RAfter1)) {}

  lemma RPlace2()
    ensures Place(RField2, RAfter1) == Ok((REntry2, RAfter2))
  {
    assert MemberLayout(RField2) == Ok(Layout(0, 4, []));
    assert Close(RAfter1) == Cursor(1, None, 4);
    assert AlignUp(1, 4) == 4;
  }

  lemma RPlace3() ensures Place(RField3, RAfter2) == Ok((REntry3, RAfter3)) {}

  lemma WPlace2() ensures Place(RField3, RAfter1) == Ok((WEntry2, WAfter2)) {}

  lemma RFold()
    ensures Fold(RFields1, Start) == Ok((REntries1, RAfter3))
  {
    RPlace3(); FoldOne(RField3, RAfter2, REntry3, RAfter3);
    RPlace2(); FoldCons(RField2, RFields3, RAfter1, REntry2, RAfter2, REntries3, RAfter3);
    RPlace1(); FoldCons(RField1, RFields2, Start, REntry1, RAfter1, REntries2, RAfter3);
  }

  lemma WFold()
    ensures Fold(WFields1, Start) == Ok((WEntries1, WAfter2))
  {
    WPlace2(); FoldOne(RField3, RAfter1, WEntry2, WAfter2);
    RPlace1(); FoldCons(RField1, WFields2, Start, REntry1, RAfter1, WEntries2, WAfter2);
  }

  lemma REnd()
    ensures Close(RAfter3).align == 4 && AlignUp(Close(RAfter3).bytes, 4) == 8
  {
    assert Close(RAfter3) == Cursor(5, None, 4);
  }

  lemma WEnd()
    ensures Close(WAfter2).align == 4 && AlignUp(Close(WAfter2).bytes, 4) == 4
  {
  }

  /** With `z` after the open run, `b` opens a new unit at byte 4, and the
      struct is 8 bytes. */
  lemma WithZero()
    ensures StructLayout(RFields1) == Ok(Layout(8, 4, REntries1))
  {
    RFold();
    REnd();
    StructFromFold(RFields1, REntries1, RAfter3, 8, 4);
  }

  /** Without `z`, `b` takes bits 8 to 10 of the unit of `a`, and the struct
      is 4 bytes. */
  lemma WithoutZero()
    ensures StructLayout(WFields1) == Ok(Layout(4, 4, WEntries1))
  {
    WFold();
    WEnd();
    StructFromFold(WFields1, WEntries1, WAfter2, 4, 4);
  }

  /** So a zero-length member after an open run is not neutral: removing it
      changes the size and moves the following bit-field. */
  lemma NotNeutral()
    ensures RFields1 == [RField1, RField2, RField3] && WFields1 == [RField1, RField3]
    ensures StructLayout(RFields1).Ok? && StructLayout(WFields1).Ok?
    ensures StructLayout(RFields1).value.size != StructLayout(WFields1).value.size
    ensures StructLayout(RFields1).value.entries[2] != StructLayout(WFields1).value.entries[1]
  {
    WithZero();
    WithoutZero();
  }
}
