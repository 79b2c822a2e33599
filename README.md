# Aggregate layout on x86-64 System V (LP64)

The repository is a layout inspector. For each C or C++ struct, class or union
it reports the size, the alignment and the member offsets, and the holes between
members. Its test fixtures pin down the layout rules it follows: those of
section 3.1.2 ("Data Representation") of the System V AMD64 psABI, of C11
section 6.7.2.1, and of the GNU zero-length-array extension. This project
models that **layout resolver** and proves properties about it. Everything is
pure Dafny, made of datatypes, functions and lemmas.

- `Abi` gives the sizes and alignments of the fundamental types. It also maps
  C type spellings and `intN_t`/`uintN_t` to them.
- `Types` defines the type graph:
  - scalars, `void`, incomplete (only declared) types;
  - pointers, arrays (including zero-length arrays), typedefs;
  - aggregates, whose fields have an optional name and an optional bit width.

  It also joins namespace paths into qualified names with `::`.
- `Resolver` is the resolver itself:
  - `LayoutOf` dispatches on the type.
  - `StructLayout` is a fold over the members. Its cursor carries the byte
    offset, the open bit-field storage unit, and the largest alignment seen.
  - `UnionLayout` places every member at 0.
  - `Shift` moves the members of an anonymous aggregate to offsets from the
    outermost aggregate.
  - Malformed input is an `Error` value, never a precondition.
- `Stepwise` composes a layout one member at a time. Its one-step lemmas
  (`FoldCons`, `UnionCons`, `StructFromFold`, `UnionFromFold`, `AggOf`,
  `PlaceNamed`, `PlaceAnon`, `ShiftCons`) unfold one definition each; they
  serve the fixture proofs and state no property of their own.
- `Alignment`, `Geometry` and `Shape` state, for every type that resolves:
  - the general rules: size is a multiple of alignment, offsets are aligned,
    struct members are ordered and disjoint, union members are at offset 0;
  - how the size and alignment follow from the members;
  - that a zero-length member adds no bytes when no bit-field run is open and
    its alignment does not exceed the alignment so far;
  - that a typedef, or the `class`/`struct` keyword, does not change a layout.
- `Holes` computes the holes of each aggregate level in bits, reported as
  `r / 8` bytes and `r % 8` bits. It proves that members and holes together
  fill a struct.
- `Blocks` computes which aggregates a report lays out under which names.
  Pointers are not followed; array elements and by-value members are.
- `ZeroLengthAfterRun` lays out one struct that no fixture has, to show why
  the conditions on zero-length members are needed.
- Each `fixture_*.dfy` file models one test fixture, as Dafny terms. Its lemmas
  state that the computed layout is exactly the one in the fixture's expected
  comment block:
  - every size and offset;
  - every bit position;
  - every hole the report prints;
  - every block, with its name.

  Each struct is laid out member by member. `<P>Place<k>` places member `k` at
  the cursor `<P>After<k-1>` left by the member before it.

## Model

| member | source | states |
|---|---|---|
| Abi.ScalarAlignIsSize | tests/all_types_and_pointers.c:67-95 | Every fundamental type's alignment equals its size and is a power of two (char 1, short 2, int 4, long 8, long long 8, float 4, double 8, long double 16). |
| Abi.FixedWidthKind | tests/common/stdint.c:19-26 | `intN_t`/`uintN_t` exists exactly for N in {8, 16, 32, 64}; it names an integer kind of N bits with the requested signedness and alignment equal to its size. |
| Types.FixedWidth | tests/common/stdint.c:3-12 | The `<stdint.h>` typedef for N bits is a typedef of a scalar of N bits with the requested signedness. |
| Types.QualifiedNameInjective | tests/namespaces_many.cpp:47-62 | Distinct namespace paths (segments free of `:`) give distinct `::`-joined names, so classes called `c` in different namespaces are reported under different names. |
| Common.AlignUp | tests/all_types_and_pointers.c:66-125 | The rounded-up offset is a multiple of the alignment, at least the input, and less than input plus alignment. |
| Common.AlignUpUnique | tests/all_types_and_pointers.c:66-125 | That value is the only one with those three properties. |
| Common.CeilDiv8 | tests/common/bitfields.c:45-49 | The whole bytes covering a bit count: `bits <= 8 * r < bits + 8`. |
| Resolver.LayoutOf | tests/common/four_deep_inline_union_and_struct.c:22 | The alignment of every type that resolves is a power of two, and its size is a multiple of its alignment. |
| Resolver.StructLayout | tests/gcc/nested_struct.c:15-18 | A struct's size is a multiple of its power-of-two alignment, trailing padding included. |
| Resolver.UnionLayout | tests/union_uneven_members.c:18-22 | A union's size is a multiple of its power-of-two alignment: the 15-byte member is rounded up to 16. |
| Resolver.Fold | tests/gcc/all_types.c:37-67 | The fold yields one entry per member, and the running alignment stays a power of two. Its placement rule is stated by `Shape.FoldShape`. |
| Resolver.UnionFold | tests/four_deep_inline_unions.c:22-37 | One entry per union member, and the running alignment stays a power of two. |
| Resolver.Place | tests/gcc/all_types.c:37-67 | Placing one member keeps the running alignment a power of two. Where the member goes is stated by `Shape.PlaceShape`. |
| Resolver.PlaceBits | tests/common/bitfields.c:28-49 | Placing a bit-field keeps the running alignment a power of two. Its bit position is stated by `Shape.PlaceShape`. |
| Resolver.MemberLayout | tests/common/four_deep_inline_union_and_struct.c:22-38 | A member that resolves is either named or an anonymous aggregate, and its size is a multiple of its power-of-two alignment. |
| Resolver.Shift | tests/common/four_deep_inline_union_and_struct.c:26-34 | Moving an anonymous aggregate's entries to absolute offsets keeps their number. |
| Resolver.ShiftAt | tests/common/four_deep_inline_union_and_struct.c:26-34 | Entry `i` of the moved list is entry `i` moved. |
| Alignment.LayoutAligned | tests/gcc/all_types.c:38-66 | In every resolved type, each entry at every depth has an offset that is a multiple of its own alignment. That alignment is a power of two no larger than the alignment of the enclosing level. `Shape.MembersAligned` ties each entry's alignment to its member's type. |
| Alignment.FoldAligned | tests/all_types_and_pointers.c:66-125 | The struct fold keeps every entry aligned and the running alignment a growing power of two. |
| Alignment.UnionFoldAligned | tests/three_typedefed_unions.c:20-31 | The union fold keeps every entry aligned and the running alignment a growing power of two. |
| Alignment.ShiftAligned | tests/common/four_deep_inline_union_and_struct.c:26-34 | Moving entries by a multiple of an alignment keeps them aligned. |
| Geometry.AggGeometry | tests/common/four_deep_inline_union_and_struct.c:22-38 | At every depth of a resolved aggregate, every entry lies inside its level. A bit-field also lies inside its storage unit. In a struct level the entries are in order and do not overlap. In a union level every entry is at the level's base offset and none is a bit-field. |
| Geometry.FoldGeometry | tests/common/bitfields.c:28-35 | The struct fold places entries in order without overlap, each after the starting frontier and ending by the final one. |
| Geometry.UnionFoldGeometry | tests/four_deep_inline_unions.c:23-33 | Every member of a union is at offset 0, is not a bit-field, and is no larger than the union's running size. |
| Geometry.ShiftNested | tests/common/four_deep_inline_union_and_struct.c:25-36 | Moving a level by `d` bytes moves its base by `d` and keeps its geometry, at every depth. |
| Shape.StructShape | tests/common/four_deep_inline_union_and_struct.c:28-35 | Entry `i` reports member `i` (`Shape.Reports`): a bit-field with its width in a unit of its integer type, any other member with its own type's size and alignment, under its name or as an anonymous aggregate with its members moved to its offset. Each member is placed where its predecessor ends: a bit-field at the very next bit, any other member at the first byte after that which its alignment allows. The alignment is the largest member alignment. The size is the end of the last member, in whole bytes, rounded up to that alignment. |
| Shape.FoldShape | tests/common/bitfields.c:38-44 | The same placement rule for a fold from any cursor, with the frontier moved to the end of the last member. |
| Shape.PlaceShape | tests/common/bitfields.c:39-43 | One member obeys the placement rule and moves the frontier to its own end. A bit-field lies in the unit at the cursor, at the bit after those already taken (bit 0 when no unit is open), and adds its width to the bits taken. |
| Shape.UnionShape | tests/union_uneven_members.c:18-22 | Entry `i` reports member `i` (`Shape.Reports`), with its own type's size and alignment. A union's alignment is its largest member alignment, and its size is its largest member size rounded up to that alignment. |
| Shape.RunBits | tests/common/bitfields.c:28-36 | In a run of bit-fields that fits its unit, every bit-field is in the unit at the cursor, at the bit equal to the widths of the bit-fields before it (after the bits already taken), and the bits taken grow by the sum of the widths. |
| Shape.PlaceReports | tests/gcc/all_types.c:37-67 | The entry of a placed member reports it, in the sense of `Shape.Reports`. |
| Shape.FoldReports | tests/gcc/all_types.c:37-67 | In a struct fold, entry `i` reports member `i`, and there is one entry per member. |
| Shape.UnionFoldReports | tests/three_typedefed_unions.c:24-27 | In a union, entry `i` reports member `i`, and there is one entry per member. |
| Shape.MembersAligned | tests/all_types_and_pointers.c:66-125 | In a resolved aggregate, entry `i` reports member `i` at an offset that is a multiple of the alignment of member `i`'s type (of its integer type for a bit-field), and that alignment divides the aggregate's. |
| Shape.ZeroLengthNeutral | tests/common/zero_sized_array.c:17-22 | A zero-size member leaves every other member where it was, when no bit-field run is open before it, the byte offset there is a multiple of its alignment, and that alignment does not exceed the alignment so far. The member is reported at that offset. |
| ZeroLengthAfterRun.NotNeutral | tests/common/zero_sized_array.c:17-22 | The open-run condition of `Shape.ZeroLengthNeutral` is needed: in `struct { int a:8; int z[0]; int b:3; }`, removing `z` changes the size from 8 bytes to 4 and moves `b` from byte 4, bit 0 to byte 0, bit 8. |
| Shape.FoldSameShape | tests/common/stdint_typedefed.c:27-38 | Member lists of the same shape (names, widths, layouts) are laid out identically. |
| Shape.AliasSameShape | tests/common/stdint_typedefed.c:3-10 | Declaring a member through a further typedef keeps its shape. |
| Shape.KeywordAndTagIrrelevant | tests/common/namespace.cpp:2-6 | `class` and `struct` with the same members have one layout, whatever their tags or namespaces. |
| Shape.PointerLayout | tests/all_types_and_pointers.c:96-124 | Every pointer is 8 bytes with alignment 8, whatever it points to, even an incomplete type. |
| Shape.ArrayLayout | tests/gcc/struct_array.c:19 | An array of `n` elements has `n` times the element's size and the element's alignment, for `n == 0` too. |
| Shape.MaxAlignOf | tests/all_types_and_pointers.c:66 | The largest alignment of a level's entries (1 for none) bounds each entry's alignment and is attained by one. |
| Shape.MaxSizeOf | tests/union_uneven_members.c:18-22 | The largest size of a level's entries bounds each entry's size and is attained by one. |
| Holes.HoleOf | tests/common/bitfields.c:48 | A hole of `r` bits is reported as `r / 8` bytes and `r % 8` bits. |
| Holes.HoleOfUnique | tests/common/bitfields.c:48 | That report is the only byte-and-bit split with fewer than 8 bits. |
| Holes.Under | tests/common/four_deep_inline_union_and_struct.c:31 | The holes inside an anonymous member keep their content, with that member's index put in front of their position. |
| Holes.GapsFill | tests/zig_cc/all_types.c:37-71 | The members and holes of a struct level add up exactly to its bits. Every hole is at least one bit, so each is the distance from one member's end to the next member's start. |
| Holes.NoGapsIff | tests/common/bitfields.c:38-44 | A struct level has no hole exactly when its members occupy all of it. |
| Holes.StructFilled | tests/common/stdint_typedefed.c:27-38 | In every resolved struct, the members and the holes between and after them add up to the struct's size. |
| Holes.TotalBitsAppend | tests/zig_cc/all_types.c:37-71 | Hole lengths add up over concatenation. |
| Blocks.BlocksResolve | tests/bug_with_decl_namespace_and_structs.cpp:22-30 | Every block a resolved type brings into a report can itself be laid out. An incomplete type behind a pointer gets no block. |
| Blocks.FoldMembersResolve | tests/bug_with_decl_namespace_and_structs.cpp:22-26 | Every member of a struct that resolves has a layout, and every bit-field has an integer type. |
| Blocks.UnionFoldMembersResolve | tests/three_typedefed_unions.c:20-23 | Every member of a union that resolves has a layout. |
| Blocks.IntegerTypeNoBlocks | tests/common/bitfields.c:1-9 | A bit-field's integer type brings no block. |
| Blocks.ReachedAllAppend | tests/all_types_and_pointers.c:66-125 | The blocks of two member lists joined are the blocks of each. |
| Blocks.PointerNoBlocks | tests/all_types_and_pointers.c:96-124 | A pointer brings no block, whatever it points to. |
| Stepwise.FoldAppend | tests/all_types_and_pointers.c:66-125 | Laying out `a + b` is laying out `a`, then `b` from where `a` ends. The first failing member decides the error. |
| Stepwise.ShiftZero | tests/four_deep_inline_unions.c:22-37 | Moving by 0 bytes changes nothing, so an anonymous union at 0 reports its members' own offsets. |
| Bitfields.SLayout | tests/common/bitfields.c:28-35 | `struct s`: seven `int` bit-fields of widths 1 to 7 are in one 4-byte unit at offset 0, at bits 0, 1, 3, 6, 10, 15 and 21. Each reports size 4. The struct is 4 bytes. |
| Bitfields.SHoles | tests/common/bitfields.c:36 | `struct s` has one hole, trailing: 0 bytes and 4 bits. |
| Bitfields.S2Layout | tests/common/bitfields.c:38-44 | `struct s2`: bits 0, 5, 14, 15 and 22 of one unit; 4 bytes. |
| Bitfields.S2Holes | tests/common/bitfields.c:38-44 | `struct s2` fills all 32 bits: no hole. |
| Bitfields.S3Layout | tests/common/bitfields.c:45-47 | `struct s3`: bits 0 and 10 of one unit; 4 bytes. |
| Bitfields.S3Holes | tests/common/bitfields.c:48 | `struct s3` has one trailing hole of 1 byte and 4 bits. |
| Bitfields.ReportOfT | tests/common/bitfields.c:24-49 | The report on `t` lays out exactly `s`, `s2` and `s3`. |
| FourDeepStruct.QLayout | tests/common/four_deep_inline_union_and_struct.c:32-34 | The innermost anonymous union of two pointers: both at 0; 8 bytes. |
| FourDeepStruct.RLayout | tests/common/four_deep_inline_union_and_struct.c:28-35 | The anonymous struct: `char`s at 0 and 1, then the pointer union at 8; 16 bytes. |
| FourDeepStruct.DLayout | tests/common/four_deep_inline_union_and_struct.c:25-36 | The anonymous union: `double`s and the struct at 0; 16 bytes, its largest member. |
| FourDeepStruct.FdLayout | tests/common/four_deep_inline_union_and_struct.c:22-38 | `struct s`: `f1` at 0 and `f2` at 4. The union is at 8 with `f3` and `f4` at 8. The struct inside it is at 8, with `f5` at 8 and `f6` at 9. The pointer union is at 16, with `f7` and `f8` at 16. The struct is 24 bytes, alignment 8. |
| FourDeepStruct.FdHoles | tests/common/four_deep_inline_union_and_struct.c:31 | The only hole of `struct s` is the 6 bytes before the pointer union, inside the anonymous struct inside the anonymous union. |
| FourDeepStruct.FdBlocks | tests/common/four_deep_inline_union_and_struct.c:22-38 | Only `struct s` is a block: anonymous members are reported in place. |
| FourDeepUnions.PuLayout | tests/four_deep_inline_unions.c:31-34 | The innermost union of two pointers is 8 bytes with both at 0. |
| FourDeepUnions.CuLayout | tests/four_deep_inline_unions.c:28-35 | The union of two `char`s and the pointer union is 8 bytes, all at 0. |
| FourDeepUnions.DuLayout | tests/four_deep_inline_unions.c:25-36 | The union of two `double`s and the `char` union is 8 bytes, all at 0. |
| FourDeepUnions.ULayout | tests/four_deep_inline_unions.c:22-37 | `union u`: every member, at every depth, is at offset 0. The union is 8 bytes, the largest of 4, 4 and 8. |
| FourDeepUnions.UHoles | tests/four_deep_inline_unions.c:22-37 | `union u` has no hole at any depth. |
| FourDeepUnions.UBlocks | tests/four_deep_inline_unions.c:22-37 | Only `union u` is a block. |
| ZeroSizedArray.ZLayout | tests/common/zero_sized_array.c:17-22 | `struct zero_sized`: `count` at 0 and `float dynamic_levels[0]` at 4 with size 0. `z1` and `z2` are both at 8 with size 0, aligned for their 8-byte elements. The struct is 8 bytes. |
| ZeroSizedArray.ZHoles | tests/common/zero_sized_array.c:19-20 | The only computed hole is the 4 bytes before `z1`, which the report does not print. |
| ZeroSizedArray.ZBlocks | tests/common/zero_sized_array.c:17-22 | `struct zero_sized` is the only block. |
| ZeroSizedArray.ZMarkers | tests/common/zero_sized_array.c:3-4 | The typedefs `ZeroMarker` and `ZeroMarker64` lay out as the zero-length arrays they name: 0 bytes, alignment 8. |
| AllTypes.ALayout | tests/gcc/all_types.c:37-67 | The 29 members are at the offsets listed, with `long double` at 160 with size and alignment 16. The struct is 176 bytes. |
| AllTypes.AHoles | tests/zig_cc/all_types.c:37-71 | The holes are: 1 byte before `field4`, 4 before `field15`, 4 after the `float`, and 8 before the `long double`. These are the four the zig_cc report prints; the gcc report prints none of them. |
| AllTypes.ABlocks | tests/gcc/all_types.c:37-67 | The struct is the only block. |
| AllTypes.ASpellingsChar | tests/gcc/all_types.c:38-40 | Members 1 to 3 have the character kinds their spellings name. |
| AllTypes.ASpellingsShort | tests/gcc/all_types.c:41-46 | Every spelling of `short` and `unsigned short` selects one kind. |
| AllTypes.ASpellingsInt | tests/gcc/all_types.c:47-51 | Every spelling of `int` and `unsigned int` selects one kind. |
| AllTypes.ASpellingsLong | tests/gcc/all_types.c:52-57 | Every spelling of `long` and `unsigned long` selects one kind. |
| AllTypes.ASpellingsLongLong | tests/gcc/all_types.c:58-63 | Every spelling of `long long` and `unsigned long long` selects one kind. |
| AllTypes.ASpellingsFloating | tests/gcc/all_types.c:64-66 | The floating types' spellings select their kinds. |
| AllTypesAndPointers.PLayout | tests/all_types_and_pointers.c:66-125 | The scalars are where the all-types struct has them. The 29 pointers are 8 bytes each, at 176 to 400. The struct is 416 bytes: 408 rounded up to 16. |
| AllTypesAndPointers.PBlocks | tests/all_types_and_pointers.c:66-125 | Pointers are not followed: the struct is the only block. |
| Stdint.SdLayout | tests/common/stdint.c:18-27 | The fixed-width members are at 0, 2, 4, 8, 16, 18, 20 and 24, with sizes 1, 2, 4, 8, 1, 2, 4 and 8; 32 bytes. |
| Stdint.SdHoles | tests/common/stdint.c:19-24 | The holes are 1 byte before `field2` and 1 byte before `field6`. The report prints neither. |
| Stdint.SdBlocks | tests/common/stdint.c:18-27 | `struct stdint` is the only block. |
| Stdint.SdTypes | tests/common/stdint.c:3-12 | Each member's type is the `<stdint.h>` typedef of its declared width and signedness. |
| StdintTypedefed.TdLayout | tests/common/stdint_typedefed.c:27-38 | Through the `s8`..`u64` typedefs, the layout is the same offsets and sizes; 32 bytes. |
| StdintTypedefed.TdHoles | tests/common/stdint_typedefed.c:28-35 | The 1-byte holes before `field2` and before `field6` are the two the report prints. |
| StdintTypedefed.TdBlocks | tests/common/stdint_typedefed.c:27-38 | `struct stdint` is the only block. |
| StdintTypedefed.TdSameAsStdint | tests/common/stdint_typedefed.c:27-38 | The typedef version and the plain version have one layout. |
| NamespacesMany.N1Layout | tests/namespaces_many.cpp:47-50 | `ns1::c`: `int`s at 0 and 4; 8 bytes. |
| NamespacesMany.N12Layout | tests/namespaces_many.cpp:51-54 | `ns1::ns1_2::c`: `char`s at 0 and 1; 2 bytes. |
| NamespacesMany.N2Layout | tests/namespaces_many.cpp:55-58 | `ns2::c`: `short`s at 0 and 2; 4 bytes. |
| NamespacesMany.N22Layout | tests/namespaces_many.cpp:59-62 | `ns2::ns2_2::c`: `long long`s at 0 and 8; 16 bytes. |
| NamespacesMany.N1Holes | tests/namespaces_many.cpp:47-50 | `ns1::c` has no hole. |
| NamespacesMany.N12Holes | tests/namespaces_many.cpp:51-54 | `ns1::ns1_2::c` has no hole. |
| NamespacesMany.N2Holes | tests/namespaces_many.cpp:55-58 | `ns2::c` has no hole. |
| NamespacesMany.N22Holes | tests/namespaces_many.cpp:59-62 | `ns2::ns2_2::c` has no hole. |
| NamespacesMany.N1Blocks | tests/namespaces_many.cpp:47 | `ns1::c` is a block under its qualified name. |
| NamespacesMany.N12Blocks | tests/namespaces_many.cpp:51 | `ns1::ns1_2::c` is a block under its qualified name. |
| NamespacesMany.N2Blocks | tests/namespaces_many.cpp:55 | `ns2::c` is a block under its qualified name. |
| NamespacesMany.N22Blocks | tests/namespaces_many.cpp:59 | `ns2::ns2_2::c` is a block under its qualified name. |
| NamespacesMany.ReportOfT | tests/namespaces_many.cpp:31-62 | The four reports lay out the four classes, each under its own qualified name. |
| NamespacesMany.DistinctNames | tests/namespaces_many.cpp:47-59 | The four qualified names differ pairwise. |
| Namespace.NcLayout | tests/common/namespace.cpp:25-28 | `testing::c`: `int`s at 0 and 4; 8 bytes. |
| Namespace.Nc2Layout | tests/common/namespace.cpp:29-32 | `testing::testing_deeper::c2`: `int`s at 0 and 4; 8 bytes. |
| Namespace.NcHoles | tests/common/namespace.cpp:25-28 | `testing::c` has no hole. |
| Namespace.Nc2Holes | tests/common/namespace.cpp:29-32 | `testing::testing_deeper::c2` has no hole. |
| Namespace.NcBlocks | tests/common/namespace.cpp:25 | The class is a block named `testing::c`. |
| Namespace.Nc2Blocks | tests/common/namespace.cpp:29 | The class is a block named `testing::testing_deeper::c2`. |
| Namespace.ReportOfT | tests/common/namespace.cpp:17-32 | The reports on `t` and `t2` lay out the two classes. |
| DeclNamespaceAndStructs.DcLayout | tests/bug_with_decl_namespace_and_structs.cpp:22-25 | `ns::c`: the pointer to the incomplete `decl` is at 0 with 8 bytes, and the `int`s are at 8 and 12; 16 bytes. |
| DeclNamespaceAndStructs.DcHoles | tests/bug_with_decl_namespace_and_structs.cpp:22-25 | `ns::c` has no hole. |
| DeclNamespaceAndStructs.DcBlocks | tests/bug_with_decl_namespace_and_structs.cpp:22-26 | `ns::c` is a block; the incomplete `decl` is not. |
| DeclNamespaceAndStructs.Dc2Layout | tests/bug_with_decl_namespace_and_structs.cpp:27-30 | `c2`, in the global namespace, has `char`s at 0 and 1; 2 bytes. |
| DeclNamespaceAndStructs.Dc2Holes | tests/bug_with_decl_namespace_and_structs.cpp:27-30 | `c2` has no hole. |
| DeclNamespaceAndStructs.Dc2Blocks | tests/bug_with_decl_namespace_and_structs.cpp:27 | `c2` is a block under its unqualified name. |
| DeclNamespaceAndStructs.ReportOfT | tests/bug_with_decl_namespace_and_structs.cpp:18-30 | The report on `t` lays out exactly `ns::c` and `c2`, and nothing for `decl`. |
| DeclNamespaceAndStructs.DeclIncomplete | tests/bug_with_decl_namespace_and_structs.cpp:1 | By value, the only-declared `decl` has no layout, only an error. |
| Vec3.VLayout | tests/union_with_structs.c:16-20 | `struct vec3`: `float`s at 0, 4 and 8; 12 bytes, alignment 4. |
| Vec3.VHoles | tests/union_uneven_members.c:24-28 | `struct vec3` has no hole. |
| Vec3.VBlocks | tests/union_with_structs.c:16 | `struct vec3` is one block. |
| UnionUnevenMembers.ULayout | tests/union_uneven_members.c:18-23 | `union vec3u`: all four members at 0. The union is 16 bytes: the 15 of `whoosh` rounded up to alignment 4. |
| UnionUnevenMembers.UHoles | tests/union_uneven_members.c:18-23 | The union has no hole. |
| UnionUnevenMembers.UBlocks | tests/union_uneven_members.c:18-28 | The union brings its own block and that of `struct vec3`. |
| UnionUnevenMembers.ReportOfT | tests/union_uneven_members.c:18-28 | The report lays out exactly the union and `struct vec3`. |
| UnionWithStructs.WLayout | tests/union_with_structs.c:21-24 | `union vec3u`: `v3` and `float m[3]` are both at 0 and 12 bytes; the union is 12 bytes. |
| UnionWithStructs.WHoles | tests/union_with_structs.c:21-24 | The union has no hole. |
| UnionWithStructs.WBlocks | tests/union_with_structs.c:16-24 | The union brings its own block and that of `struct vec3`. |
| UnionWithStructs.ReportOfT | tests/union_with_structs.c:16-24 | The report lays out exactly `struct vec3` and the union. |
| NestedStruct.InLayout | tests/gcc/nested_struct.c:15-18 | `struct inner_struct`: the `int` at 0 and the `char` at 4; 8 bytes. |
| NestedStruct.InHoles | tests/gcc/nested_struct.c:17-18 | The inner struct's only hole is 3 bytes of trailing padding, which the report does not print. |
| NestedStruct.InBlocks | tests/gcc/nested_struct.c:15 | `struct inner_struct` is one block. |
| NestedStruct.OutLayout | tests/gcc/nested_struct.c:19-22 | `struct outer_struct`: the inner struct at 0 with 8 bytes, then the `unsigned int` at 8; 12 bytes. |
| NestedStruct.OutHoles | tests/gcc/nested_struct.c:19-22 | The outer struct has no hole of its own. |
| NestedStruct.OutBlocks | tests/gcc/nested_struct.c:15-22 | The outer struct brings its own block and the inner struct's. |
| NestedStruct.ReportOfT | tests/gcc/nested_struct.c:15-22 | The report lays out exactly the two structs. |
| StructArray.NeLayout | tests/gcc/struct_array.c:14-17 | `struct nested_struct`: the `unsigned long long` at 0 and the `void *` at 8; 16 bytes. |
| StructArray.NeHoles | tests/gcc/struct_array.c:14-17 | `struct nested_struct` has no hole. |
| StructArray.NeBlocks | tests/gcc/struct_array.c:14 | `struct nested_struct` is one block; its pointer brings none. |
| StructArray.ArLayout | tests/gcc/struct_array.c:18-20 | `struct array`: the array of four structs is at 0 and 64 bytes long; the struct is 64 bytes. |
| StructArray.ArHoles | tests/gcc/struct_array.c:18-20 | `struct array` has no hole. |
| StructArray.ArBlocks | tests/gcc/struct_array.c:14-20 | An array member brings its element's block once: `struct array` brings its own and that of `struct nested_struct`. |
| StructArray.ReportOfT | tests/zig_cc/struct_array.c:14-20 | The report lays out exactly `struct array` and `struct nested_struct`, whatever order the toolchain lists them in. |
| ThreeTypedefedUnions.FuLayout | tests/three_typedefed_unions.c:24-27 | `first`: the `int` and the `char` at 0; 4 bytes. |
| ThreeTypedefedUnions.SuLayout | tests/three_typedefed_unions.c:28-31 | `second`: `char[15]` (15 bytes) and `float[4]` (16 bytes) at 0; 16 bytes. |
| ThreeTypedefedUnions.TuLayout | tests/three_typedefed_unions.c:20-23 | `third`: `first` (4 bytes) and `second` (16 bytes) at 0; 16 bytes. |
| ThreeTypedefedUnions.ThirdLayout | tests/three_typedefed_unions.c:11-14 | The typedef `third` lays out as the union it names. |
| ThreeTypedefedUnions.FuHoles | tests/three_typedefed_unions.c:24-27 | `first` has no hole. |
| ThreeTypedefedUnions.SuHoles | tests/three_typedefed_unions.c:28-31 | `second` has no hole. |
| ThreeTypedefedUnions.TuHoles | tests/three_typedefed_unions.c:20-23 | `third` has no hole. |
| ThreeTypedefedUnions.FuBlocks | tests/three_typedefed_unions.c:1-4 | The untagged union is a block under its typedef name `first`. |
| ThreeTypedefedUnions.SuBlocks | tests/three_typedefed_unions.c:6-9 | The untagged union is a block under `second`. |
| ThreeTypedefedUnions.TuBlocks | tests/three_typedefed_unions.c:11-31 | `third` brings its own block and those of `first` and `second`, each under its typedef name. |
| ThreeTypedefedUnions.ReportOfT | tests/three_typedefed_unions.c:16-31 | The report lays out exactly `third`, `first` and `second`. |
| ThreeUnions.FirstLayout | tests/zig_cc/three_unions.c:24-27 | `union first` lays out as the typedef version: 4 bytes. |
| ThreeUnions.SecondLayout | tests/zig_cc/three_unions.c:28-31 | `union second`: 16 bytes. |
| ThreeUnions.ZuLayout | tests/zig_cc/three_unions.c:20-23 | `union third`: `f` (4 bytes) and `s` (16 bytes) at 0; 16 bytes. |
| ThreeUnions.ZuHoles | tests/zig_cc/three_unions.c:20-23 | `union third` has no hole. |
| ThreeUnions.ZuBlocks | tests/zig_cc/three_unions.c:20-31 | `union third` brings the blocks `third`, `first` and `second`, under their tags. |
| ThreeUnions.ReportOfT | tests/zig_cc/three_unions.c:16-31 | The report lays out exactly the three unions. |
| ThreeUnions.SameAsTypedefed | tests/zig_cc/three_unions.c:20-31 | Tagged or typedef-named, the same members give the same layouts. |

## Left out

- Whether a computed hole is printed. The fixtures print some holes and not others: the same 1-byte gaps appear in `tests/common/stdint_typedefed.c` but not in `tests/common/stdint.c`, and the trailing byte padding after the last member is not printed (`tests/gcc/nested_struct.c:17-18`, `tests/all_types_and_pointers.c:124-125`), while the unused bits of a final bit-field unit are (`tests/common/bitfields.c:36`, `:48`). Holes are computed values here, and no property is stated about which are printed.
- The order of report blocks. It differs between toolchains, so a report's blocks are a set.
- Type-name spelling and column whitespace in the report text. They come from the compiler's debug information. Only the mapping from spellings to kinds is modelled (`Abi.KindOfSpelling`).
- Running the compiler, reading debug information, finding files, and parsing C and C++. The fixture types are written directly as Dafny terms, and the `t` functions play no part.
- Floating-point values. `float`, `double` and `long double` appear only through their sizes and alignments.
- Bit-field cases that no fixture exercises: a run that overflows its unit, zero-width bit-fields, unnamed bit-fields (`int : 3;`), mixed base types in one run, a run opened at an unaligned offset, and bit-fields in unions. They are rejected with `UnsupportedBitField` rather than laid out by an invented rule.
- Shape.ZeroLengthNeutral: states nothing for a zero-length member after an open bit-field run, or for one more aligned than the members before it. After an open run the member closes the run, so a bit-field after it opens a new unit: in `struct { int a:8; int z[0]; int b:3; }` `b` is at byte 4, bit 0 and the struct has 8 bytes, where without `z` `b` is at byte 0, bit 8 and the struct has 4. `ZeroLengthAfterRun.NotNeutral` proves this example. A member more aligned than the rest raises the struct's alignment, and with it the trailing padding.
- Resolver.Close: a member that is not a bit-field, after an open bit-field run, starts at the first byte after the bits taken, then aligned, as GCC and the psABI place it. No fixture exercises this case, which the model lays out rather than rejects. A rule that skips the whole storage unit places it later: in `struct { int a:3; char c; }` the `char` is at byte 1 here (4 bytes in all), and at byte 4 under that rule (8 bytes).
- C++ inheritance, virtual tables and templates. No fixture uses them.
- Empty aggregates. No fixture has one; they produce `EmptyAggregate`.
- Resolver.Fold, Resolver.Place, Resolver.PlaceBits, Resolver.UnionFold: their own contracts state only the entry count and the power-of-two alignment. Their placement rules are proved separately, in `Shape` and `Geometry`.
- AllTypesAndPointers: the holes of `struct all_types_and_ptrs_structure` are not stated. That report prints no holes, and the scalar part's holes are those of `AllTypes.AHoles`.
- AllTypes.AHoles: hole positions are member indices from 0, counted before the member they precede, rather than the report's line positions.
