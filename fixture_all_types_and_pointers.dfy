/** tests/all_types_and_pointers.c: the members of the all-types struct
    followed by a pointer to each of their types. The scalar members are laid
    out exactly as in the all-types struct; every pointer, whatever its
    pointee, is 8 bytes at a multiple of 8; and the struct's end, 408, is
    rounded up to the alignment of `long double`.

    `PPlace<k>` places pointer member k, and `PFold` chains those placements
    from the cursor the scalar members leave. */
module AllTypesAndPointers {
  import opened Common
  import opened Abi
  import opened Types
  import opened Resolver
  import opened Stepwise
  import opened Blocks
  import opened AllTypes

  const AllTypesAndPtrsStructure: Type := Agg(Struct, Some(["all_types_and_ptrs_structure"]), AFields1 + PFields1)

  const PField1 := Member("field1_ptr", Pointer(Scalar(Char)))
  const PField2 := Member("field2_ptr", Pointer(Scalar(SignedChar)))
  const PField3 := Member("field3_ptr", Pointer(Scalar(UnsignedChar)))
  const PField4 := Member("field4_ptr", Pointer(Scalar(Short)))
  const PField5 := Member("field5_ptr", Pointer(Scalar(Short)))
  const PField6 := Member("field6_ptr", Pointer(Scalar(Short)))
  const PField7 := Member("field7_ptr", Pointer(Scalar(Short)))
  const PField8 := Member("field8_ptr", Pointer(Scalar(UnsignedShort)))
  const PField9 := Member("field9_ptr", Pointer(Scalar(UnsignedShort)))
  const PField10 := Member("field10_ptr", Pointer(Scalar(Int)))
  const PField11 := Member("field11_ptr", Pointer(Scalar(Int)))
  const PField12 := Member("field12_ptr", Pointer(Scalar(Int)))
  const PField13 := Member("field13_ptr", Pointer(Scalar(UnsignedInt)))
  const PField14 := Member("field14_ptr", Pointer(Scalar(UnsignedInt)))
  const PField15 := Member("field15_ptr", Pointer(Scalar(Long)))
  const PField16 := Member("field16_ptr", Pointer(Scalar(Long)))
  const PField17 := Member("field17_ptr", Pointer(Scalar(Long)))
  const PField18 := Member("field18_ptr", Pointer(Scalar(Long)))
  const PField19 := Member("field19_ptr", Pointer(Scalar(UnsignedLong)))
  const PField20 := Member("field20_ptr", Pointer(Scalar(UnsignedLong)))
  const PField21 := Member("field21_ptr", Pointer(Scalar(LongLong)))
  const PField22 := Member("field22_ptr", Pointer(Scalar(LongLong)))
  const PField23 := Member("field23_ptr", Pointer(Scalar(LongLong)))
  const PField24 := Member("field24_ptr", Pointer(Scalar(LongLong)))
  const PField25 := Member("field25_ptr", Pointer(Scalar(UnsignedLongLong)))
  const PField26 := Member("field26_ptr", Pointer(Scalar(UnsignedLongLong)))
  const PField27 := Member("field27_ptr", Pointer(Scalar(Float)))
  const PField28 := Member("field28_ptr", Pointer(Scalar(Double)))
  const PField29 := Member("field29_ptr", Pointer(Scalar(LongDouble)))

  const PFields29: seq<Field> := [PField29]
  const PFields28: seq<Field> := [PField28] + PFields29
  const PFields27: seq<Field> := [PField27] + PFields28
  const PFields26: seq<Field> := [PField26] + PFields27
  const PFields25: seq<Field> := [PField25] + PFields26
  const PFields24: seq<Field> := [PField24] + PFields25
  const PFields23: seq<Field> := [PField23] + PFields24
  const PFields22: seq<Field> := [PField22] + PFields23
  const PFields21: seq<Field> := [PField21] + PFields22
  const PFields20: seq<Field> := [PField20] + PFields21
  const PFields19: seq<Field> := [PField19] + PFields20
  const PFields18: seq<Field> := [PField18] + PFields19
  const PFields17: seq<Field> := [PField17] + PFields18
  const PFields16: seq<Field> := [PField16] + PFields17
  const PFields15: seq<Field> := [PField15] + PFields16
  const PFields14: seq<Field> := [PField14] + PFields15
  const PFields13: seq<Field> := [PField13] + PFields14
  const PFields12: seq<Field> := [PField12] + PFields13
  const PFields11: seq<Field> := [PField11] + PFields12
  const PFields10: seq<Field> := [PField10] + PFields11
  const PFields9: seq<Field> := [PField9] + PFields10
  const PFields8: seq<Field> := [PField8] + PFields9
  const PFields7: seq<Field> := [PField7] + PFields8
  const PFields6: seq<Field> := [PField6] + PFields7
  const PFields5: seq<Field> := [PField5] + PFields6
  const PFields4: seq<Field> := [PField4] + PFields5
  const PFields3: seq<Field> := [PField3] + PFields4
  const PFields2: seq<Field> := [PField2] + PFields3
  const PFields1: seq<Field> := [PField1] + PFields2

  const PEntry1 := Placed("field1_ptr", 8, 8, 176, None)
  const PEntry2 := Placed("field2_ptr", 8, 8, 184, None)
  const PEntry3 := Placed("field3_ptr", 8, 8, 192, None)
  const PEntry4 := Placed("field4_ptr", 8, 8, 200, None)
  const PEntry5 := Placed("field5_ptr", 8, 8, 208, None)
  const PEntry6 := Placed("field6_ptr", 8, 8, 216, None)
  const PEntry7 := Placed("field7_ptr", 8, 8, 224, None)
  const PEntry8 := Placed("field8_ptr", 8, 8, 232, None)
  const PEntry9 := Placed("field9_ptr", 8, 8, 240, None)
  const PEntry10 := Placed("field10_ptr", 8, 8, 248, None)
  const PEntry11 := Placed("field11_ptr", 8, 8, 256, None)
  const PEntry12 := Placed("field12_ptr", 8, 8, 264, None)
  const PEntry13 := Placed("field13_ptr", 8, 8, 272, None)
  const PEntry14 := Placed("field14_ptr", 8, 8, 280, None)
  const PEntry15 := Placed("field15_ptr", 8, 8, 288, None)
  const PEntry16 := Placed("field16_ptr", 8, 8, 296, None)
  const PEntry17 := Placed("field17_ptr", 8, 8, 304, None)
  const PEntry18 := Placed("field18_ptr", 8, 8, 312, None)
  const PEntry19 := Placed("field19_ptr", 8, 8, 320, None)
  const PEntry20 := Placed("field20_ptr", 8, 8, 328, None)
  const PEntry21 := Placed("field21_ptr", 8, 8, 336, None)
  const PEntry22 := Placed("field22_ptr", 8, 8, 344, None)
  const PEntry23 := Placed("field23_ptr", 8, 8, 352, None)
  const PEntry24 := Placed("field24_ptr", 8, 8, 360, None)
  const PEntry25 := Placed("field25_ptr", 8, 8, 368, None)
  const PEntry26 := Placed("field26_ptr", 8, 8, 376, None)
  const PEntry27 := Placed("field27_ptr", 8, 8, 384, None)
  const PEntry28 := Placed("field28_ptr", 8, 8, 392, None)
  const PEntry29 := Placed("field29_ptr", 8, 8, 400, None)

  const PEntries29: seq<Entry> := [PEntry29]
  const PEntries28: seq<Entry> := [PEntry28] + PEntries29
  const PEntries27: seq<Entry> := [PEntry27] + PEntries28
  const PEntries26: seq<Entry> := [PEntry26] + PEntries27
  const PEntries25: seq<Entry> := [PEntry25] + PEntries26
  const PEntries24: seq<Entry> := [PEntry24] + PEntries25
  const PEntries23: seq<Entry> := [PEntry23] + PEntries24
  const PEntries22: seq<Entry> := [PEntry22] + PEntries23
  const PEntries21: seq<Entry> := [PEntry21] + PEntries22
  const PEntries20: seq<Entry> := [PEntry20] + PEntries21
  const PEntries19: seq<Entry> := [PEntry19] + PEntries20
  const PEntries18: seq<Entry> := [PEntry18] + PEntries19
  const PEntries17: seq<Entry> := [PEntry17] + PEntries18
  const PEntries16: seq<Entry> := [PEntry16] + PEntries17
  const PEntries15: seq<Entry> := [PEntry15] + PEntries16
  const PEntries14: seq<Entry> := [PEntry14] + PEntries15
  const PEntries13: seq<Entry> := [PEntry13] + PEntries14
  const PEntries12: seq<Entry> := [PEntry12] + PEntries13
  const PEntries11: seq<Entry> := [PEntry11] + PEntries12
  const PEntries10: seq<Entry> := [PEntry10] + PEntries11
  const PEntries9: seq<Entry> := [PEntry9] + PEntries10
  const PEntries8: seq<Entry> := [PEntry8] + PEntries9
  const PEntries7: seq<Entry> := [PEntry7] + PEntries8
  const PEntries6: seq<Entry> := [PEntry6] + PEntries7
  const PEntries5: seq<Entry> := [PEntry5] + PEntries6
  const PEntries4: seq<Entry> := [PEntry4] + PEntries5
  const PEntries3: seq<Entry> := [PEntry3] + PEntries4
  const PEntries2: seq<Entry> := [PEntry2] + PEntries3
  const PEntries1: seq<Entry> := [PEntry1] + PEntries2

  // The cursor after each member.
  const PAfter1 := Cursor(184, None, 16)
  const PAfter2 := Cursor(192, None, 16)
  const PAfter3 := Cursor(200, None, 16)
  const PAfter4 := Cursor(208, None, 16)
  const PAfter5 := Cursor(216, None, 16)
  const PAfter6 := Cursor(224, None, 16)
  const PAfter7 := Cursor(232, None, 16)
  const PAfter8 := Cursor(240, None, 16)
  const PAfter9 := Cursor(248, None, 16)
  const PAfter10 := Cursor(256, None, 16)
  const PAfter11 := Cursor(264, None, 16)
  const PAfter12 := Cursor(272, None, 16)
  const PAfter13 := Cursor(280, None, 16)
  const PAfter14 := Cursor(288, None, 16)
  const PAfter15 := Cursor(296, None, 16)
  const PAfter16 := Cursor(304, None, 16)
  const PAfter17 := Cursor(312, None, 16)
  const PAfter18 := Cursor(320, None, 16)
  const PAfter19 := Cursor(328, None, 16)
  const PAfter20 := Cursor(336, None, 16)
  const PAfter21 := Cursor(344, None, 16)
  const PAfter22 := Cursor(352, None, 16)
  const PAfter23 := Cursor(360, None, 16)
  const PAfter24 := Cursor(368, None, 16)
  const PAfter25 := Cursor(376, None, 16)
  const PAfter26 := Cursor(384, None, 16)
  const PAfter27 := Cursor(392, None, 16)
  const PAfter28 := Cursor(400, None, 16)
  const PAfter29 := Cursor(408, None, 16)

  lemma PPlace1() ensures Place(PField1, AAfter29) == Ok((PEntry1, PAfter1)) { PlaceNamed(PField1, AAfter29, Layout(8, 8, []), 176); }
  lemma PPlace2() ensures Place(PField2, PAfter1) == Ok((PEntry2, PAfter2)) { PlaceNamed(PField2, PAfter1, Layout(8, 8, []), 184); }
  lemma PPlace3() ensures Place(PField3, PAfter2) == Ok((PEntry3, PAfter3)) { PlaceNamed(PField3, PAfter2, Layout(8, 8, []), 192); }
  lemma PPlace4() ensures Place(PField4, PAfter3) == Ok((PEntry4, PAfter4)) { PlaceNamed(PField4, PAfter3, Layout(8, 8, []), 200); }
  lemma PPlace5() ensures Place(PField5, PAfter4) == Ok((PEntry5, PAfter5)) { PlaceNamed(PField5, PAfter4, Layout(8, 8, []), 208); }
  lemma PPlace6() ensures Place(PField6, PAfter5) == Ok((PEntry6, PAfter6)) { PlaceNamed(PField6, PAfter5, Layout(8, 8, []), 216); }
  lemma PPlace7() ensures Place(PField7, PAfter6) == Ok((PEntry7, PAfter7)) { PlaceNamed(PField7, PAfter6, Layout(8, 8, []), 224); }
  lemma PPlace8() ensures Place(PField8, PAfter7) == Ok((PEntry8, PAfter8)) { PlaceNamed(PField8, PAfter7, Layout(8, 8, []), 232); }
  lemma PPlace9() ensures Place(PField9, PAfter8) == Ok((PEntry9, PAfter9)) { PlaceNamed(PField9, PAfter8, Layout(8, 8, []), 240); }
  lemma PPlace10() ensures Place(PField10, PAfter9) == Ok((PEntry10, PAfter10)) { PlaceNamed(PField10, PAfter9, Layout(8, 8, []), 248); }
  lemma PPlace11() ensures Place(PField11, PAfter10) == Ok((PEntry11, PAfter11)) { PlaceNamed(PField11, PAfter10, Layout(8, 8, []), 256); }
  lemma PPlace12() ensures Place(PField12, PAfter11) == Ok((PEntry12, PAfter12)) { PlaceNamed(PField12, PAfter11, Layout(8, 8, []), 264); }
  lemma PPlace13() ensures Place(PField13, PAfter12) == Ok((PEntry13, PAfter13)) { PlaceNamed(PField13, PAfter12, Layout(8, 8, []), 272); }
  lemma PPlace14() ensures Place(PField14, PAfter13) == Ok((PEntry14, PAfter14)) { PlaceNamed(PField14, PAfter13, Layout(8, 8, []), 280); }
  lemma PPlace15() ensures Place(PField15, PAfter14) == Ok((PEntry15, PAfter15)) { PlaceNamed(PField15, PAfter14, Layout(8, 8, []), 288); }
  lemma PPlace16() ensures Place(PField16, PAfter15) == Ok((PEntry16, PAfter16)) { PlaceNamed(PField16, PAfter15, Layout(8, 8, []), 296); }
  lemma PPlace17() ensures Place(PField17, PAfter16) == Ok((PEntry17, PAfter17)) { PlaceNamed(PField17, PAfter16, Layout(8, 8, []), 304); }
  lemma PPlace18() ensures Place(PField18, PAfter17) == Ok((PEntry18, PAfter18)) { PlaceNamed(PField18, PAfter17, Layout(8, 8, []), 312); }
  lemma PPlace19() ensures Place(PField19, PAfter18) == Ok((PEntry19, PAfter19)) { PlaceNamed(PField19, PAfter18, Layout(8, 8, []), 320); }
  lemma PPlace20() ensures Place(PField20, PAfter19) == Ok((PEntry20, PAfter20)) { PlaceNamed(PField20, PAfter19, Layout(8, 8, []), 328); }
  lemma PPlace21() ensures Place(PField21, PAfter20) == Ok((PEntry21, PAfter21)) { PlaceNamed(PField21, PAfter20, Layout(8, 8, []), 336); }
  lemma PPlace22() ensures Place(PField22, PAfter21) == Ok((PEntry22, PAfter22)) { PlaceNamed(PField22, PAfter21, Layout(8, 8, []), 344); }
  lemma PPlace23() ensures Place(PField23, PAfter22) == Ok((PEntry23, PAfter23)) { PlaceNamed(PField23, PAfter22, Layout(8, 8, []), 352); }
  lemma PPlace24() ensures Place(PField24, PAfter23) == Ok((PEntry24, PAfter24)) { PlaceNamed(PField24, PAfter23, Layout(8, 8, []), 360); }
  lemma PPlace25() ensures Place(PField25, PAfter24) == Ok((PEntry25, PAfter25)) { PlaceNamed(PField25, PAfter24, Layout(8, 8, []), 368); }
  lemma PPlace26() ensures Place(PField26, PAfter25) == Ok((PEntry26, PAfter26)) { PlaceNamed(PField26, PAfter25, Layout(8, 8, []), 376); }
  lemma PPlace27() ensures Place(PField27, PAfter26) == Ok((PEntry27, PAfter27)) { PlaceNamed(PField27, PAfter26, Layout(8, 8, []), 384); }
  lemma PPlace28() ensures Place(PField28, PAfter27) == Ok((PEntry28, PAfter28)) { PlaceNamed(PField28, PAfter27, Layout(8, 8, []), 392); }
  lemma PPlace29() ensures Place(PField29, PAfter28) == Ok((PEntry29, PAfter29)) { PlaceNamed(PField29, PAfter28, Layout(8, 8, []), 400); }

  lemma PFold()
    ensures Fold(PFields1, AAfter29) == Ok((PEntries1, PAfter29))
  {
    PFoldFrom10();
    PPlace9(); FoldCons(PField9, PFields10, PAfter8, PEntry9, PAfter9, PEntries10, PAfter29);
    PPlace8(); FoldCons(PField8, PFields9, PAfter7, PEntry8, PAfter8, PEntries9, PAfter29);
    PPlace7(); FoldCons(PField7, PFields8, PAfter6, PEntry7, PAfter7, PEntries8, PAfter29);
    PPlace6(); FoldCons(PField6, PFields7, PAfter5, PEntry6, PAfter6, PEntries7, PAfter29);
    PPlace5(); FoldCons(PField5, PFields6, PAfter4, PEntry5, PAfter5, PEntries6, PAfter29);
    PPlace4(); FoldCons(PField4, PFields5, PAfter3, PEntry4, PAfter4, PEntries5, PAfter29);
    PPlace3(); FoldCons(PField3, PFields4, PAfter2, PEntry3, PAfter3, PEntries4, PAfter29);
    PPlace2(); FoldCons(PField2, PFields3, PAfter1, PEntry2, PAfter2, PEntries3, PAfter29);
    PPlace1(); FoldCons(PField1, PFields2, AAfter29, PEntry1, PAfter1, PEntries2, PAfter29);
  }

  lemma PFoldFrom10()
    ensures Fold(PFields10, PAfter9) == Ok((PEntries10, PAfter29))
  {
    PFoldFrom20();
    PPlace19(); FoldCons(PField19, PFields20, PAfter18, PEntry19, PAfter19, PEntries20, PAfter29);
    PPlace18(); FoldCons(PField18, PFields19, PAfter17, PEntry18, PAfter18, PEntries19, PAfter29);
    PPlace17(); FoldCons(PField17, PFields18, PAfter16, PEntry17, PAfter17, PEntries18, PAfter29);
    PPlace16(); FoldCons(PField16, PFields17, PAfter15, PEntry16, PAfter16, PEntries17, PAfter29);
    PPlace15(); FoldCons(PField15, PFields16, PAfter14, PEntry15, PAfter15, PEntries16, PAfter29);
    PPlace14(); FoldCons(PField14, PFields15, PAfter13, PEntry14, PAfter14, PEntries15, PAfter29);
    PPlace13(); FoldCons(PField13, PFields14, PAfter12, PEntry13, PAfter13, PEntries14, PAfter29);
    PPlace12(); FoldCons(PField12, PFields13, PAfter11, PEntry12, PAfter12, PEntries13, PAfter29);
    PPlace11(); FoldCons(PField11, PFields12, PAfter10, PEntry11, PAfter11, PEntries12, PAfter29);
    PPlace10(); FoldCons(PField10, PFields11, PAfter9, PEntry10, PAfter10, PEntries11, PAfter29);
  }

  lemma PFoldFrom20()
    ensures Fold(PFields20, PAfter19) == Ok((PEntries20, PAfter29))
  {
    PPlace29(); FoldOne(PField29, PAfter28, PEntry29, PAfter29);
    PPlace28(); FoldCons(PField28, PFields29, PAfter27, PEntry28, PAfter28, PEntries29, PAfter29);
    PPlace27(); FoldCons(PField27, PFields28, PAfter26, PEntry27, PAfter27, PEntries28, PAfter29);
    PPlace26(); FoldCons(PField26, PFields27, PAfter25, PEntry26, PAfter26, PEntries27, PAfter29);
    PPlace25(); FoldCons(PField25, PFields26, PAfter24, PEntry25, PAfter25, PEntries26, PAfter29);
    PPlace24(); FoldCons(PField24, PFields25, PAfter23, PEntry24, PAfter24, PEntries25, PAfter29);
    PPlace23(); FoldCons(PField23, PFields24, PAfter22, PEntry23, PAfter23, PEntries24, PAfter29);
    PPlace22(); FoldCons(PField22, PFields23, PAfter21, PEntry22, PAfter22, PEntries23, PAfter29);
    PPlace21(); FoldCons(PField21, PFields22, PAfter20, PEntry21, PAfter21, PEntries22, PAfter29);
    PPlace20(); FoldCons(PField20, PFields21, PAfter19, PEntry20, PAfter20, PEntries21, PAfter29);
  }

  lemma PFoldAll()
    ensures Fold(AFields1 + PFields1, Start) == Ok((AEntries1 + PEntries1, PAfter29))
  {
    AFold();
    PFold();
    FoldAppend(AFields1, PFields1, Start);
  }

  lemma PEnd()
    ensures Close(PAfter29).align == 16 && AlignUp(Close(PAfter29).bytes, 16) == 416
  {
  }

  lemma PStruct()
    ensures StructLayout(AFields1 + PFields1) == Ok(Layout(416, 16, AEntries1 + PEntries1))
  {
    PFoldAll();
    PEnd();
    StructFromFold(AFields1 + PFields1, AEntries1 + PEntries1, PAfter29, 416, 16);
  }

  lemma PNonEmpty()
    ensures AFields1 + PFields1 != []
  {
    assert (AFields1 + PFields1)[0] == AField1;
  }

  /** The layout of the whole struct: the scalar members where the all-types
      struct has them, the pointers from 176 on in steps of 8, and 416 bytes:
      the last pointer ends at 408, rounded up to the alignment 16. */
  lemma PLayout()
    ensures LayoutOf(AllTypesAndPtrsStructure) == Ok(Layout(416, 16, AEntries1 + PEntries1))
  {
    PStruct();
    PNonEmpty();
    AggOf(Struct, Some(["all_types_and_ptrs_structure"]), AFields1 + PFields1, Layout(416, 16, AEntries1 + PEntries1));
  }

  lemma PLeaves()
    ensures ReachedAll(PFields1) == {}
  {
    PLeavesFrom6();
    assert ReachedAll(PFields5) == {};
    assert ReachedAll(PFields4) == {};
    assert ReachedAll(PFields3) == {};
    assert ReachedAll(PFields2) == {};
  }

  lemma PLeavesFrom6()
    ensures ReachedAll(PFields6) == {}
  {
    PLeavesFrom12();
    assert ReachedAll(PFields11) == {};
    assert ReachedAll(PFields10) == {};
    assert ReachedAll(PFields9) == {};
    assert ReachedAll(PFields8) == {};
    assert ReachedAll(PFields7) == {};
  }

  lemma PLeavesFrom12()
    ensures ReachedAll(PFields12) == {}
  {
    PLeavesFrom18();
    assert ReachedAll(PFields17) == {};
    assert ReachedAll(PFields16) == {};
    assert ReachedAll(PFields15) == {};
    assert ReachedAll(PFields14) == {};
    assert ReachedAll(PFields13) == {};
  }

  lemma PLeavesFrom18()
    ensures ReachedAll(PFields18) == {}
  {
    PLeavesFrom24();
    assert ReachedAll(PFields23) == {};
    assert ReachedAll(PFields22) == {};
    assert ReachedAll(PFields21) == {};
    assert ReachedAll(PFields20) == {};
    assert ReachedAll(PFields19) == {};
  }

  lemma PLeavesFrom24()
    ensures ReachedAll(PFields24) == {}
  {
    assert ReachedAll(PFields29) == {};
    assert ReachedAll(PFields28) == {};
    assert ReachedAll(PFields27) == {};
    assert ReachedAll(PFields26) == {};
    assert ReachedAll(PFields25) == {};
  }

  /** Pointers are not followed: the struct is the only block. */
  lemma PBlocks()
    ensures Reached(AllTypesAndPtrsStructure, None) ==
      {Block(Struct, "all_types_and_ptrs_structure", AFields1 + PFields1)}
  {
    ALeaves();
    PLeaves();
    ReachedAllAppend(AFields1, PFields1);
  }
}
