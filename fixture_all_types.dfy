/** tests/gcc/all_types.c and tests/zig_cc/all_types.c: one struct with a
    member of every fundamental type, in every spelling C allows. Both
    toolchains report the same offsets and size; they differ only in how they
    spell the types and in which holes they print.

    The struct is laid out member by member: `APlace<k>` places member k at
    the cursor the previous one left (`AAfter<k-1>`), `AFold` chains the
    placements, and `ALayout` states the whole layout. `AGaps` and `AFlat`
    compute the holes level by level, and `ALeaves` shows that no member
    brings a block of its own. */
module AllTypes {
  import opened Common
  import opened Abi
  import opened Types
  import opened Resolver
  import opened Stepwise
  import opened Holes
  import opened Blocks

  const AllTypesStructure: Type := Agg(Struct, Some(["all_types_structure"]), AFields1)

  const AField1 := Member("field1", Scalar(Char))
  const AField2 := Member("field2", Scalar(SignedChar))
  const AField3 := Member("field3", Scalar(UnsignedChar))
  const AField4 := Member("field4", Scalar(Short))
  const AField5 := Member("field5", Scalar(Short))
  const AField6 := Member("field6", Scalar(Short))
  const AField7 := Member("field7", Scalar(Short))
  const AField8 := Member("field8", Scalar(UnsignedShort))
  const AField9 := Member("field9", Scalar(UnsignedShort))
  const AField10 := Member("field10", Scalar(Int))
  const AField11 := Member("field11", Scalar(Int))
  const AField12 := Member("field12", Scalar(Int))
  const AField13 := Member("field13", Scalar(UnsignedInt))
  const AField14 := Member("field14", Scalar(UnsignedInt))
  const AField15 := Member("field15", Scalar(Long))
  const AField16 := Member("field16", Scalar(Long))
  const AField17 := Member("field17", Scalar(Long))
  const AField18 := Member("field18", Scalar(Long))
  const AField19 := Member("field19", Scalar(UnsignedLong))
  const AField20 := Member("field20", Scalar(UnsignedLong))
  const AField21 := Member("field21", Scalar(LongLong))
  const AField22 := Member("field22", Scalar(LongLong))
  const AField23 := Member("field23", Scalar(LongLong))
  const AField24 := Member("field24", Scalar(LongLong))
  const AField25 := Member("field25", Scalar(UnsignedLongLong))
  const AField26 := Member("field26", Scalar(UnsignedLongLong))
  const AField27 := Member("field27", Scalar(Float))
  const AField28 := Member("field28", Scalar(Double))
  const AField29 := Member("field29", Scalar(LongDouble))

  const AFields29: seq<Field> := [AField29]
  const AFields28: seq<Field> := [AField28] + AFields29
  const AFields27: seq<Field> := [AField27] + AFields28
  const AFields26: seq<Field> := [AField26] + AFields27
  const AFields25: seq<Field> := [AField25] + AFields26
  const AFields24: seq<Field> := [AField24] + AFields25
  const AFields23: seq<Field> := [AField23] + AFields24
  const AFields22: seq<Field> := [AField22] + AFields23
  const AFields21: seq<Field> := [AField21] + AFields22
  const AFields20: seq<Field> := [AField20] + AFields21
  const AFields19: seq<Field> := [AField19] + AFields20
  const AFields18: seq<Field> := [AField18] + AFields19
  const AFields17: seq<Field> := [AField17] + AFields18
  const AFields16: seq<Field> := [AField16] + AFields17
  const AFields15: seq<Field> := [AField15] + AFields16
  const AFields14: seq<Field> := [AField14] + AFields15
  const AFields13: seq<Field> := [AField13] + AFields14
  const AFields12: seq<Field> := [AField12] + AFields13
  const AFields11: seq<Field> := [AField11] + AFields12
  const AFields10: seq<Field> := [AField10] + AFields11
  const AFields9: seq<Field> := [AField9] + AFields10
  const AFields8: seq<Field> := [AField8] + AFields9
  const AFields7: seq<Field> := [AField7] + AFields8
  const AFields6: seq<Field> := [AField6] + AFields7
  const AFields5: seq<Field> := [AField5] + AFields6
  const AFields4: seq<Field> := [AField4] + AFields5
  const AFields3: seq<Field> := [AField3] + AFields4
  const AFields2: seq<Field> := [AField2] + AFields3
  const AFields1: seq<Field> := [AField1] + AFields2

  const AEntry1 := Placed("field1", 1, 1, 0, None)
  const AEntry2 := Placed("field2", 1, 1, 1, None)
  const AEntry3 := Placed("field3", 1, 1, 2, None)
  const AEntry4 := Placed("field4", 2, 2, 4, None)
  const AEntry5 := Placed("field5", 2, 2, 6, None)
  const AEntry6 := Placed("field6", 2, 2, 8, None)
  const AEntry7 := Placed("field7", 2, 2, 10, None)
  const AEntry8 := Placed("field8", 2, 2, 12, None)
  const AEntry9 := Placed("field9", 2, 2, 14, None)
  const AEntry10 := Placed("field10", 4, 4, 16, None)
  const AEntry11 := Placed("field11", 4, 4, 20, None)
  const AEntry12 := Placed("field12", 4, 4, 24, None)
  const AEntry13 := Placed("field13", 4, 4, 28, None)
  const AEntry14 := Placed("field14", 4, 4, 32, None)
  const AEntry15 := Placed("field15", 8, 8, 40, None)
  const AEntry16 := Placed("field16", 8, 8, 48, None)
  const AEntry17 := Placed("field17", 8, 8, 56, None)
  const AEntry18 := Placed("field18", 8, 8, 64, None)
  const AEntry19 := Placed("field19", 8, 8, 72, None)
  const AEntry20 := Placed("field20", 8, 8, 80, None)
  const AEntry21 := Placed("field21", 8, 8, 88, None)
  const AEntry22 := Placed("field22", 8, 8, 96, None)
  const AEntry23 := Placed("field23", 8, 8, 104, None)
  const AEntry24 := Placed("field24", 8, 8, 112, None)
  const AEntry25 := Placed("field25", 8, 8, 120, None)
  const AEntry26 := Placed("field26", 8, 8, 128, None)
  const AEntry27 := Placed("field27", 4, 4, 136, None)
  const AEntry28 := Placed("field28", 8, 8, 144, None)
  const AEntry29 := Placed("field29", 16, 16, 160, None)

  const AEntries29: seq<Entry> := [AEntry29]
  const AEntries28: seq<Entry> := [AEntry28] + AEntries29
  const AEntries27: seq<Entry> := [AEntry27] + AEntries28
  const AEntries26: seq<Entry> := [AEntry26] + AEntries27
  const AEntries25: seq<Entry> := [AEntry25] + AEntries26
  const AEntries24: seq<Entry> := [AEntry24] + AEntries25
  const AEntries23: seq<Entry> := [AEntry23] + AEntries24
  const AEntries22: seq<Entry> := [AEntry22] + AEntries23
  const AEntries21: seq<Entry> := [AEntry21] + AEntries22
  const AEntries20: seq<Entry> := [AEntry20] + AEntries21
  const AEntries19: seq<Entry> := [AEntry19] + AEntries20
  const AEntries18: seq<Entry> := [AEntry18] + AEntries19
  const AEntries17: seq<Entry> := [AEntry17] + AEntries18
  const AEntries16: seq<Entry> := [AEntry16] + AEntries17
  const AEntries15: seq<Entry> := [AEntry15] + AEntries16
  const AEntries14: seq<Entry> := [AEntry14] + AEntries15
  const AEntries13: seq<Entry> := [AEntry13] + AEntries14
  const AEntries12: seq<Entry> := [AEntry12] + AEntries13
  const AEntries11: seq<Entry> := [AEntry11] + AEntries12
  const AEntries10: seq<Entry> := [AEntry10] + AEntries11
  const AEntries9: seq<Entry> := [AEntry9] + AEntries10
  const AEntries8: seq<Entry> := [AEntry8] + AEntries9
  const AEntries7: seq<Entry> := [AEntry7] + AEntries8
  const AEntries6: seq<Entry> := [AEntry6] + AEntries7
  const AEntries5: seq<Entry> := [AEntry5] + AEntries6
  const AEntries4: seq<Entry> := [AEntry4] + AEntries5
  const AEntries3: seq<Entry> := [AEntry3] + AEntries4
  const AEntries2: seq<Entry> := [AEntry2] + AEntries3
  const AEntries1: seq<Entry> := [AEntry1] + AEntries2

  // The cursor after each member.
  const AAfter1 := Cursor(1, None, 1)
  const AAfter2 := Cursor(2, None, 1)
  const AAfter3 := Cursor(3, None, 1)
  const AAfter4 := Cursor(6, None, 2)
  const AAfter5 := Cursor(8, None, 2)
  const AAfter6 := Cursor(10, None, 2)
  const AAfter7 := Cursor(12, None, 2)
  const AAfter8 := Cursor(14, None, 2)
  const AAfter9 := Cursor(16, None, 2)
  const AAfter10 := Cursor(20, None, 4)
  const AAfter11 := Cursor(24, None, 4)
  const AAfter12 := Cursor(28, None, 4)
  const AAfter13 := Cursor(32, None, 4)
  const AAfter14 := Cursor(36, None, 4)
  const AAfter15 := Cursor(48, None, 8)
  const AAfter16 := Cursor(56, None, 8)
  const AAfter17 := Cursor(64, None, 8)
  const AAfter18 := Cursor(72, None, 8)
  const AAfter19 := Cursor(80, None, 8)
  const AAfter20 := Cursor(88, None, 8)
  const AAfter21 := Cursor(96, None, 8)
  const AAfter22 := Cursor(104, None, 8)
  const AAfter23 := Cursor(112, None, 8)
  const AAfter24 := Cursor(120, None, 8)
  const AAfter25 := Cursor(128, None, 8)
  const AAfter26 := Cursor(136, None, 8)
  const AAfter27 := Cursor(140, None, 8)
  const AAfter28 := Cursor(152, None, 8)
  const AAfter29 := Cursor(176, None, 16)

  lemma APlace1() ensures Place(AField1, Start) == Ok((AEntry1, AAfter1)) { PlaceNamed(AField1, Start, Layout(1, 1, []), 0); }
  lemma APlace2() ensures Place(AField2, AAfter1) == Ok((AEntry2, AAfter2)) { PlaceNamed(AField2, AAfter1, Layout(1, 1, []), 1); }
  lemma APlace3() ensures Place(AField3, AAfter2) == Ok((AEntry3, AAfter3)) { PlaceNamed(AField3, AAfter2, Layout(1, 1, []), 2); }
  lemma APlace4() ensures Place(AField4, AAfter3) == Ok((AEntry4, AAfter4)) { PlaceNamed(AField4, AAfter3, Layout(2, 2, []), 4); }
  lemma APlace5() ensures Place(AField5, AAfter4) == Ok((AEntry5, AAfter5)) { PlaceNamed(AField5, AAfter4, Layout(2, 2, []), 6); }
  lemma APlace6() ensures Place(AField6, AAfter5) == Ok((AEntry6, AAfter6)) { PlaceNamed(AField6, AAfter5, Layout(2, 2, []), 8); }
  lemma APlace7() ensures Place(AField7, AAfter6) == Ok((AEntry7, AAfter7)) { PlaceNamed(AField7, AAfter6, Layout(2, 2, []), 10); }
  lemma APlace8() ensures Place(AField8, AAfter7) == Ok((AEntry8, AAfter8)) { PlaceNamed(AField8, AAfter7, Layout(2, 2, []), 12); }
  lemma APlace9() ensures Place(AField9, AAfter8) == Ok((AEntry9, AAfter9)) { PlaceNamed(AField9, AAfter8, Layout(2, 2, []), 14); }
  lemma APlace10() ensures Place(AField10, AAfter9) == Ok((AEntry10, AAfter10)) { PlaceNamed(AField10, AAfter9, Layout(4, 4, []), 16); }
  lemma APlace11() ensures Place(AField11, AAfter10) == Ok((AEntry11, AAfter11)) { PlaceNamed(AField11, AAfter10, Layout(4, 4, []), 20); }
  lemma APlace12() ensures Place(AField12, AAfter11) == Ok((AEntry12, AAfter12)) { PlaceNamed(AField12, AAfter11, Layout(4, 4, []), 24); }
  lemma APlace13() ensures Place(AField13, AAfter12) == Ok((AEntry13, AAfter13)) { PlaceNamed(AField13, AAfter12, Layout(4, 4, []), 28); }
  lemma APlace14() ensures Place(AField14, AAfter13) == Ok((AEntry14, AAfter14)) { PlaceNamed(AField14, AAfter13, Layout(4, 4, []), 32); }
  lemma APlace15() ensures Place(AField15, AAfter14) == Ok((AEntry15, AAfter15)) { PlaceNamed(AField15, AAfter14, Layout(8, 8, []), 40); }
  lemma APlace16() ensures Place(AField16, AAfter15) == Ok((AEntry16, AAfter16)) { PlaceNamed(AField16, AAfter15, Layout(8, 8, []), 48); }
  lemma APlace17() ensures Place(AField17, AAfter16) == Ok((AEntry17, AAfter17)) { PlaceNamed(AField17, AAfter16, Layout(8, 8, []), 56); }
  lemma APlace18() ensures Place(AField18, AAfter17) == Ok((AEntry18, AAfter18)) { PlaceNamed(AField18, AAfter17, Layout(8, 8, []), 64); }
  lemma APlace19() ensures Place(AField19, AAfter18) == Ok((AEntry19, AAfter19)) { PlaceNamed(AField19, AAfter18, Layout(8, 8, []), 72); }
  lemma APlace20() ensures Place(AField20, AAfter19) == Ok((AEntry20, AAfter20)) { PlaceNamed(AField20, AAfter19, Layout(8, 8, []), 80); }
  lemma APlace21() ensures Place(AField21, AAfter20) == Ok((AEntry21, AAfter21)) { PlaceNamed(AField21, AAfter20, Layout(8, 8, []), 88); }
  lemma APlace22() ensures Place(AField22, AAfter21) == Ok((AEntry22, AAfter22)) { PlaceNamed(AField22, AAfter21, Layout(8, 8, []), 96); }
  lemma APlace23() ensures Place(AField23, AAfter22) == Ok((AEntry23, AAfter23)) { PlaceNamed(AField23, AAfter22, Layout(8, 8, []), 104); }
  lemma APlace24() ensures Place(AField24, AAfter23) == Ok((AEntry24, AAfter24)) { PlaceNamed(AField24, AAfter23, Layout(8, 8, []), 112); }
  lemma APlace25() ensures Place(AField25, AAfter24) == Ok((AEntry25, AAfter25)) { PlaceNamed(AField25, AAfter24, Layout(8, 8, []), 120); }
  lemma APlace26() ensures Place(AField26, AAfter25) == Ok((AEntry26, AAfter26)) { PlaceNamed(AField26, AAfter25, Layout(8, 8, []), 128); }
  lemma APlace27() ensures Place(AField27, AAfter26) == Ok((AEntry27, AAfter27)) { PlaceNamed(AField27, AAfter26, Layout(4, 4, []), 136); }
  lemma APlace28() ensures Place(AField28, AAfter27) == Ok((AEntry28, AAfter28)) { PlaceNamed(AField28, AAfter27, Layout(8, 8, []), 144); }
  lemma APlace29() ensures Place(AField29, AAfter28) == Ok((AEntry29, AAfter29)) { PlaceNamed(AField29, AAfter28, Layout(16, 16, []), 160); }

  lemma AFold()
    ensures Fold(AFields1, Start) == Ok((AEntries1, AAfter29))
  {
    AFoldFrom10();
    APlace9(); FoldCons(AField9, AFields10, AAfter8, AEntry9, AAfter9, AEntries10, AAfter29);
    APlace8(); FoldCons(AField8, AFields9, AAfter7, AEntry8, AAfter8, AEntries9, AAfter29);
    APlace7(); FoldCons(AField7, AFields8, AAfter6, AEntry7, AAfter7, AEntries8, AAfter29);
    APlace6(); FoldCons(AField6, AFields7, AAfter5, AEntry6, AAfter6, AEntries7, AAfter29);
    APlace5(); FoldCons(AField5, AFields6, AAfter4, AEntry5, AAfter5, AEntries6, AAfter29);
    APlace4(); FoldCons(AField4, AFields5, AAfter3, AEntry4, AAfter4, AEntries5, AAfter29);
    APlace3(); FoldCons(AField3, AFields4, AAfter2, AEntry3, AAfter3, AEntries4, AAfter29);
    APlace2(); FoldCons(AField2, AFields3, AAfter1, AEntry2, AAfter2, AEntries3, AAfter29);
    APlace1(); FoldCons(AField1, AFields2, Start, AEntry1, AAfter1, AEntries2, AAfter29);
  }

  lemma AFoldFrom10()
    ensures Fold(AFields10, AAfter9) == Ok((AEntries10, AAfter29))
  {
    AFoldFrom20();
    APlace19(); FoldCons(AField19, AFields20, AAfter18, AEntry19, AAfter19, AEntries20, AAfter29);
    APlace18(); FoldCons(AField18, AFields19, AAfter17, AEntry18, AAfter18, AEntries19, AAfter29);
    APlace17(); FoldCons(AField17, AFields18, AAfter16, AEntry17, AAfter17, AEntries18, AAfter29);
    APlace16(); FoldCons(AField16, AFields17, AAfter15, AEntry16, AAfter16, AEntries17, AAfter29);
    APlace15(); FoldCons(AField15, AFields16, AAfter14, AEntry15, AAfter15, AEntries16, AAfter29);
    APlace14(); FoldCons(AField14, AFields15, AAfter13, AEntry14, AAfter14, AEntries15, AAfter29);
    APlace13(); FoldCons(AField13, AFields14, AAfter12, AEntry13, AAfter13, AEntries14, AAfter29);
    APlace12(); FoldCons(AField12, AFields13, AAfter11, AEntry12, AAfter12, AEntries13, AAfter29);
    APlace11(); FoldCons(AField11, AFields12, AAfter10, AEntry11, AAfter11, AEntries12, AAfter29);
    APlace10(); FoldCons(AField10, AFields11, AAfter9, AEntry10, AAfter10, AEntries11, AAfter29);
  }

  lemma AFoldFrom20()
    ensures Fold(AFields20, AAfter19) == Ok((AEntries20, AAfter29))
  {
    APlace29(); FoldOne(AField29, AAfter28, AEntry29, AAfter29);
    APlace28(); FoldCons(AField28, AFields29, AAfter27, AEntry28, AAfter28, AEntries29, AAfter29);
    APlace27(); FoldCons(AField27, AFields28, AAfter26, AEntry27, AAfter27, AEntries28, AAfter29);
    APlace26(); FoldCons(AField26, AFields27, AAfter25, AEntry26, AAfter26, AEntries27, AAfter29);
    APlace25(); FoldCons(AField25, AFields26, AAfter24, AEntry25, AAfter25, AEntries26, AAfter29);
    APlace24(); FoldCons(AField24, AFields25, AAfter23, AEntry24, AAfter24, AEntries25, AAfter29);
    APlace23(); FoldCons(AField23, AFields24, AAfter22, AEntry23, AAfter23, AEntries24, AAfter29);
    APlace22(); FoldCons(AField22, AFields23, AAfter21, AEntry22, AAfter22, AEntries23, AAfter29);
    APlace21(); FoldCons(AField21, AFields22, AAfter20, AEntry21, AAfter21, AEntries22, AAfter29);
    APlace20(); FoldCons(AField20, AFields21, AAfter19, AEntry20, AAfter20, AEntries21, AAfter29);
  }

  lemma AEnd()
    ensures Close(AAfter29).align == 16 && AlignUp(Close(AAfter29).bytes, 16) == 176
  {
  }

  lemma AStruct()
    ensures StructLayout(AFields1) == Ok(Layout(176, 16, AEntries1))
  {
    AFold();
    AEnd();
    StructFromFold(AFields1, AEntries1, AAfter29, 176, 16);
  }

  /** The layout both toolchains report: every member at the first offset its
      size allows (alignment equals size for every scalar here), `long double`
      at 160 with 16 bytes and alignment 16, so 176 bytes in all. */
  lemma ALayout()
    ensures LayoutOf(AllTypesStructure) == Ok(Layout(176, 16, AEntries1))
  {
    AStruct();
    AggOf(Struct, Some(["all_types_structure"]), AFields1, Layout(176, 16, AEntries1));
  }

  lemma AGaps()
    ensures Gaps(AEntries1, 0, 0, 1408) == [Hole([3], 1, 0), Hole([14], 4, 0), Hole([27], 4, 0), Hole([28], 8, 0)]
  {
    AGapsFrom6();
    assert Gaps(AEntries5, 4, 48, 1408) == [Hole([14], 4, 0), Hole([27], 4, 0), Hole([28], 8, 0)];
    assert Gaps(AEntries4, 3, 24, 1408) == [Hole([3], 1, 0), Hole([14], 4, 0), Hole([27], 4, 0), Hole([28], 8, 0)];
    assert Gaps(AEntries3, 2, 16, 1408) == [Hole([3], 1, 0), Hole([14], 4, 0), Hole([27], 4, 0), Hole([28], 8, 0)];
    assert Gaps(AEntries2, 1, 8, 1408) == [Hole([3], 1, 0), Hole([14], 4, 0), Hole([27], 4, 0), Hole([28], 8, 0)];
  }

  lemma AGapsFrom6()
    ensures Gaps(AEntries6, 5, 64, 1408) == [Hole([14], 4, 0), Hole([27], 4, 0), Hole([28], 8, 0)]
  {
    AGapsFrom12();
    assert Gaps(AEntries11, 10, 160, 1408) == [Hole([14], 4, 0), Hole([27], 4, 0), Hole([28], 8, 0)];
    assert Gaps(AEntries10, 9, 128, 1408) == [Hole([14], 4, 0), Hole([27], 4, 0), Hole([28], 8, 0)];
    assert Gaps(AEntries9, 8, 112, 1408) == [Hole([14], 4, 0), Hole([27], 4, 0), Hole([28], 8, 0)];
    assert Gaps(AEntries8, 7, 96, 1408) == [Hole([14], 4, 0), Hole([27], 4, 0), Hole([28], 8, 0)];
    assert Gaps(AEntries7, 6, 80, 1408) == [Hole([14], 4, 0), Hole([27], 4, 0), Hole([28], 8, 0)];
  }

  lemma AGapsFrom12()
    ensures Gaps(AEntries12, 11, 192, 1408) == [Hole([14], 4, 0), Hole([27], 4, 0), Hole([28], 8, 0)]
  {
    AGapsFrom18();
    assert Gaps(AEntries17, 16, 448, 1408) == [Hole([27], 4, 0), Hole([28], 8, 0)];
    assert Gaps(AEntries16, 15, 384, 1408) == [Hole([27], 4, 0), Hole([28], 8, 0)];
    assert Gaps(AEntries15, 14, 288, 1408) == [Hole([14], 4, 0), Hole([27], 4, 0), Hole([28], 8, 0)];
    assert Gaps(AEntries14, 13, 256, 1408) == [Hole([14], 4, 0), Hole([27], 4, 0), Hole([28], 8, 0)];
    assert Gaps(AEntries13, 12, 224, 1408) == [Hole([14], 4, 0), Hole([27], 4, 0), Hole([28], 8, 0)];
  }

  lemma AGapsFrom18()
    ensures Gaps(AEntries18, 17, 512, 1408) == [Hole([27], 4, 0), Hole([28], 8, 0)]
  {
    AGapsFrom24();
    assert Gaps(AEntries23, 22, 832, 1408) == [Hole([27], 4, 0), Hole([28], 8, 0)];
    assert Gaps(AEntries22, 21, 768, 1408) == [Hole([27], 4, 0), Hole([28], 8, 0)];
    assert Gaps(AEntries21, 20, 704, 1408) == [Hole([27], 4, 0), Hole([28], 8, 0)];
    assert Gaps(AEntries20, 19, 640, 1408) == [Hole([27], 4, 0), Hole([28], 8, 0)];
    assert Gaps(AEntries19, 18, 576, 1408) == [Hole([27], 4, 0), Hole([28], 8, 0)];
  }

  lemma AGapsFrom24()
    ensures Gaps(AEntries24, 23, 896, 1408) == [Hole([27], 4, 0), Hole([28], 8, 0)]
  {
    assert Gaps(AEntries29, 28, 1216, 1408) == [Hole([28], 8, 0)];
    assert Gaps(AEntries28, 27, 1120, 1408) == [Hole([27], 4, 0), Hole([28], 8, 0)];
    assert Gaps(AEntries27, 26, 1088, 1408) == [Hole([27], 4, 0), Hole([28], 8, 0)];
    assert Gaps(AEntries26, 25, 1024, 1408) == [Hole([27], 4, 0), Hole([28], 8, 0)];
    assert Gaps(AEntries25, 24, 960, 1408) == [Hole([27], 4, 0), Hole([28], 8, 0)];
  }

  lemma AFlat()
    ensures Inner(AEntries1, 0) == []
  {
    AFlatFrom6();
    assert Inner(AEntries5, 4) == [];
    assert Inner(AEntries4, 3) == [];
    assert Inner(AEntries3, 2) == [];
    assert Inner(AEntries2, 1) == [];
  }

  lemma AFlatFrom6()
    ensures Inner(AEntries6, 5) == []
  {
    AFlatFrom12();
    assert Inner(AEntries11, 10) == [];
    assert Inner(AEntries10, 9) == [];
    assert Inner(AEntries9, 8) == [];
    assert Inner(AEntries8, 7) == [];
    assert Inner(AEntries7, 6) == [];
  }

  lemma AFlatFrom12()
    ensures Inner(AEntries12, 11) == []
  {
    AFlatFrom18();
    assert Inner(AEntries17, 16) == [];
    assert Inner(AEntries16, 15) == [];
    assert Inner(AEntries15, 14) == [];
    assert Inner(AEntries14, 13) == [];
    assert Inner(AEntries13, 12) == [];
  }

  lemma AFlatFrom18()
    ensures Inner(AEntries18, 17) == []
  {
    AFlatFrom24();
    assert Inner(AEntries23, 22) == [];
    assert Inner(AEntries22, 21) == [];
    assert Inner(AEntries21, 20) == [];
    assert Inner(AEntries20, 19) == [];
    assert Inner(AEntries19, 18) == [];
  }

  lemma AFlatFrom24()
    ensures Inner(AEntries24, 23) == []
  {
    assert Inner(AEntries29, 28) == [];
    assert Inner(AEntries28, 27) == [];
    assert Inner(AEntries27, 26) == [];
    assert Inner(AEntries26, 25) == [];
    assert Inner(AEntries25, 24) == [];
  }

  /** The holes between members: 1 byte before `field4`, 4 bytes before
      `field15`, 4 after the `float` and 8 before the `long double`. The zig_cc
      report prints all four; the gcc report prints none of them. */
  lemma AHoles()
    ensures LayoutOf(AllTypesStructure).Ok? && HolesOf(AllTypesStructure) == [Hole([3], 1, 0), Hole([14], 4, 0), Hole([27], 4, 0), Hole([28], 8, 0)]
  {
    ALayout();
    AGaps();
    AFlat();
    assert Gaps(AEntries1, 0, 0, 1408) + Inner(AEntries1, 0) == [Hole([3], 1, 0), Hole([14], 4, 0), Hole([27], 4, 0), Hole([28], 8, 0)];
  }

  lemma ALeaves()
    ensures ReachedAll(AFields1) == {}
  {
    ALeavesFrom6();
    assert ReachedAll(AFields5) == {};
    assert ReachedAll(AFields4) == {};
    assert ReachedAll(AFields3) == {};
    assert ReachedAll(AFields2) == {};
  }

  lemma ALeavesFrom6()
    ensures ReachedAll(AFields6) == {}
  {
    ALeavesFrom12();
    assert ReachedAll(AFields11) == {};
    assert ReachedAll(AFields10) == {};
    assert ReachedAll(AFields9) == {};
    assert ReachedAll(AFields8) == {};
    assert ReachedAll(AFields7) == {};
  }

  lemma ALeavesFrom12()
    ensures ReachedAll(AFields12) == {}
  {
    ALeavesFrom18();
    assert ReachedAll(AFields17) == {};
    assert ReachedAll(AFields16) == {};
    assert ReachedAll(AFields15) == {};
    assert ReachedAll(AFields14) == {};
    assert ReachedAll(AFields13) == {};
  }

  lemma ALeavesFrom18()
    ensures ReachedAll(AFields18) == {}
  {
    ALeavesFrom24();
    assert ReachedAll(AFields23) == {};
    assert ReachedAll(AFields22) == {};
    assert ReachedAll(AFields21) == {};
    assert ReachedAll(AFields20) == {};
    assert ReachedAll(AFields19) == {};
  }

  lemma ALeavesFrom24()
    ensures ReachedAll(AFields24) == {}
  {
    assert ReachedAll(AFields29) == {};
    assert ReachedAll(AFields28) == {};
    assert ReachedAll(AFields27) == {};
    assert ReachedAll(AFields26) == {};
    assert ReachedAll(AFields25) == {};
  }

  /** The struct is reported as one block, under its tag. */
  lemma ABlocks()
    ensures Reached(AllTypesStructure, None) == {Block(Struct, "all_types_structure", AFields1)}
  {
    ALeaves();
  }

  /** Members 1 to 3 have the types their spellings in the declaration
      name: every spelling variant of a type selects the same kind. */
  lemma ASpellingsChar()
    ensures
      KindOfSpelling("char") == Some(AField1.ty.scalar) &&
      KindOfSpelling("signed char") == Some(AField2.ty.scalar) &&
      KindOfSpelling("unsigned char") == Some(AField3.ty.scalar)
  {
  }

  /** Members 4 to 9 have the types their spellings in the declaration
      name: every spelling variant of a type selects the same kind. */
  lemma ASpellingsShort()
    ensures
      KindOfSpelling("short") == Some(AField4.ty.scalar) &&
      KindOfSpelling("short int") == Some(AField5.ty.scalar) &&
      KindOfSpelling("signed short") == Some(AField6.ty.scalar) &&
      KindOfSpelling("signed short int") == Some(AField7.ty.scalar) &&
      KindOfSpelling("unsigned short") == Some(AField8.ty.scalar) &&
      KindOfSpelling("unsigned short int") == Some(AField9.ty.scalar)
  {
  }

  /** Members 10 to 14 have the types their spellings in the declaration
      name: every spelling variant of a type selects the same kind. */
  lemma ASpellingsInt()
    ensures
      KindOfSpelling("int") == Some(AField10.ty.scalar) &&
      KindOfSpelling("signed") == Some(AField11.ty.scalar) &&
      KindOfSpelling("signed int") == Some(AField12.ty.scalar) &&
      KindOfSpelling("unsigned") == Some(AField13.ty.scalar) &&
      KindOfSpelling("unsigned int") == Some(AField14.ty.scalar)
  {
  }

  /** Members 15 to 20 have the types their spellings in the declaration
      name: every spelling variant of a type selects the same kind. */
  lemma ASpellingsLong()
    ensures
      KindOfSpelling("long") == Some(AField15.ty.scalar) &&
      KindOfSpelling("long int") == Some(AField16.ty.scalar) &&
      KindOfSpelling("signed long") == Some(AField17.ty.scalar) &&
      KindOfSpelling("signed long int") == Some(AField18.ty.scalar) &&
      KindOfSpelling("unsigned long") == Some(AField19.ty.scalar) &&
      KindOfSpelling("unsigned long int") == Some(AField20.ty.scalar)
  {
  }

  /** Members 21 to 26 have the types their spellings in the declaration
      name: every spelling variant of a type selects the same kind. */
  lemma ASpellingsLongLong()
    ensures
      KindOfSpelling("long long") == Some(AField21.ty.scalar) &&
      KindOfSpelling("long long int") == Some(AField22.ty.scalar) &&
      KindOfSpelling("signed long long") == Some(AField23.ty.scalar) &&
      KindOfSpelling("signed long long int") == Some(AField24.ty.scalar) &&
      KindOfSpelling("unsigned long long") == Some(AField25.ty.scalar) &&
      KindOfSpelling("unsigned long long int") == Some(AField26.ty.scalar)
  {
  }

  /** Members 27 to 29 have the types their spellings in the declaration
      name: every spelling variant of a type selects the same kind. */
  lemma ASpellingsFloating()
    ensures
      KindOfSpelling("float") == Some(AField27.ty.scalar) &&
      KindOfSpelling("double") == Some(AField28.ty.scalar) &&
      KindOfSpelling("long double") == Some(AField29.ty.scalar)
  {
  }

}
