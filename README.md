# LIEF: PE optional header, ole32.dll ordinal table and ELF note types

This project models three small pieces of the LIEF binary-format library
and proves properties about them in Dafny.

- **The PE optional header** (`PeOptionalHeader`). The header object is
  built from the on-disk PE32 or PE32+ layout, from defaults, or by
  `create` for a new image of a given type. Its 32-bit DLL-characteristics
  word is changed in place by `add`, `remove`, `+=` and `-=` and queried
  by `has` and `dll_characteristics_list`. The `to_string` functions name
  DLL characteristics and subsystems, and fall back to `"UNKNOWN"`.
  - The header is a `class` whose fields the methods update, and the
    characteristics word is a `bv32`.
  - `dll_characteristics_list` is a loop proved against a filtering
    function. Lemmas state that the function keeps exactly the set flags
    and keeps their order.
  - The bit-set laws (frame, idempotence, cancelling) are lemmas on the
    new word that `Add` and `Remove` state.
- **The ole32.dll ordinal-to-name table** (`Ole32Lookup`). This is a total
  function from a 32-bit ordinal to a name or nothing.
  - It has exactly the ordinals 0x0001 to 0x0153.
  - No name occurs twice. This is proved by showing that the names
    ascend strictly in character order along the table, where ordinal 1
    sits between 0x011a and 0x011b.
- **ELF note types** (`ElfNote`). `Type::from_value` of the Rust bindings
  maps a raw 32-bit note type to one of 42 named variants, or to
  `UNKNOWN(value)` carrying the raw value.
  - It is modelled with its inverse `RawValue`.
  - Both round trips and injectivity are proved.

`Wrappers` holds the `Option` type and the unsigned machine-integer types
`u8` to `u64`.

The project verifies with

    dafny verify --resource-limit 2000000 --verification-time-limit 0 --warn-contradictory-assumptions wrappers.dfy ole32_lookup.dfy elf_note.dfy optional_header.dfy

Without a resource limit, the solver can spend minutes on some of the
bit-vector obligations, for example those of `OptionalHeader.Add`.

## Model

| member | source | states |
|---|---|---|
| PeOptionalHeader.DllCharacteristicToString | src/PE/OptionalHeader.cpp:215-231 | the name is "UNKNOWN" exactly when the value is not one of the eleven listed flags |
| PeOptionalHeader.DllCharacteristicNamesDistinct | src/PE/OptionalHeader.cpp:216-228 | two different known flags never get the same name |
| PeOptionalHeader.DllCharacteristicSpotValues | src/PE/OptionalHeader.cpp:215-231 | 0x40 is DYNAMIC_BASE, 0x8000 is TERMINAL_SERVER_AWARE, and 0 and the two-bit value 0x60 fall back to "UNKNOWN" |
| PeOptionalHeader.SubsystemToString | src/PE/OptionalHeader.cpp:233-252 | the name is "UNKNOWN" exactly when the subsystem is not in the table or is the UNKNOWN subsystem itself |
| PeOptionalHeader.SubsystemNamesDistinct | src/PE/OptionalHeader.cpp:234-249 | a subsystem with a real name shares it with no other value |
| PeOptionalHeader.SubsystemSpotValues | src/PE/OptionalHeader.cpp:233-252 | 3 is WINDOWS_CUI and 16 is WINDOWS_BOOT_APPLICATION; the unassigned value 4 and the value 0 give "UNKNOWN" |
| PeOptionalHeader.CharacteristicsListWellFormed | src/PE/OptionalHeader.cpp:33-45 | the list of known flags is strictly ascending and each entry is a single nonzero bit |
| PeOptionalHeader.FlagsSet | src/PE/OptionalHeader.cpp:155-163 | the filtered list is no longer than the list it filters |
| PeOptionalHeader.FlagsSetMembers | src/PE/OptionalHeader.cpp:155-163 | a flag is kept exactly when it is in the list and shares a bit with the word |
| PeOptionalHeader.FlagsSetIncreasing | src/PE/OptionalHeader.cpp:155-163 | filtering a strictly ascending list keeps it strictly ascending, so the list order is kept and no flag appears twice |
| PeOptionalHeader.OtherBitsUnchanged | src/PE/OptionalHeader.cpp:147-153 | setting or clearing the bits of `c` leaves every bit outside `c` as it was |
| PeOptionalHeader.OtherFlagsUnchanged | src/PE/OptionalHeader.cpp:147-153 | a flag disjoint from `c` keeps its state through `add(c)` and `remove(c)` |
| PeOptionalHeader.AddRemoveLaws | src/PE/OptionalHeader.cpp:147-153 | add and remove are idempotent; add then remove restores a word without `c`; remove then add restores a word with `c` |
| PeOptionalHeader.DefaultImageBase | src/PE/OptionalHeader.cpp:135-139 | the chosen base is 64 KiB aligned and fits in 32 bits exactly for PE32 |
| PeOptionalHeader.OptionalHeader.constructor | src/PE/OptionalHeader.cpp:50 | a default header has every field zero, magic PE32 and the UNKNOWN subsystem |
| PeOptionalHeader.OptionalHeader.FromPe32 | src/PE/OptionalHeader.cpp:52-83 | every field of the PE32 layout is copied, BaseOfData included |
| PeOptionalHeader.OptionalHeader.FromPe64 | src/PE/OptionalHeader.cpp:85-116 | every field of the PE32+ layout is copied and BaseOfData, which that layout lacks, is 0 |
| PeOptionalHeader.OptionalHeader.Create | src/PE/OptionalHeader.cpp:119-141 | the header has the requested magic, alignments 0x1000/0x200, 16 data directories, WINDOWS_CUI, linker 9, OS and subsystem 6, stack and heap 0x100000/0x1000, headers 0x400, the type's image base, and every other field at its default |
| PeOptionalHeader.OptionalHeader.Has | src/PE/OptionalHeader.cpp:143-145 | its body is `(w & c) > 0` for an unsigned word `w`, that is, a shared bit; its contract states that a present `c` and the word are then both nonzero, and that a word has itself exactly when it is nonzero |
| PeOptionalHeader.OptionalHeader.Add | src/PE/OptionalHeader.cpp:147-149 | the word becomes the old word with the bits of `c` set, so a nonzero `c` is then present |
| PeOptionalHeader.OptionalHeader.Remove | src/PE/OptionalHeader.cpp:151-153 | the word becomes the old word with the bits of `c` cleared, so `c` is then absent |
| PeOptionalHeader.OptionalHeader.AddAssign | src/PE/OptionalHeader.cpp:169-172 | `+=` changes the word exactly as `add` does and returns the same header |
| PeOptionalHeader.OptionalHeader.SubAssign | src/PE/OptionalHeader.cpp:174-177 | `-=` changes the word exactly as `remove` does and returns the same header |
| PeOptionalHeader.OptionalHeader.DllCharacteristicsList | src/PE/OptionalHeader.cpp:155-163 | the result holds exactly the known flags that `has` reports, in the order of the list of known flags, each once |
| Ole32Lookup.Ole32DllLookup | src/PE/utils/ordinals_lookup_tables/ole32_dll_lookup.hpp:24-367 | its body holds the switch's 339 (ordinal, name) pairs, split into 22 range blocks, with None for every other ordinal; its contract states that every name it gives is nonempty, so the empty string never stands for a table name |
| Ole32Lookup.Ole32Domain | src/PE/utils/ordinals_lookup_tables/ole32_dll_lookup.hpp:24-367 | an ordinal has a name exactly when it lies in 0x0001..0x0153 |
| Ole32Lookup.OrdinalsListed | src/PE/utils/ordinals_lookup_tables/ole32_dll_lookup.hpp:25-364 | every ordinal from 0x0001 to 0x0153 has a name |
| Ole32Lookup.OrdinalZeroUnlisted | src/PE/utils/ordinals_lookup_tables/ole32_dll_lookup.hpp:365-366 | ordinal 0 has no name |
| Ole32Lookup.OrdinalsAboveUnlisted | src/PE/utils/ordinals_lookup_tables/ole32_dll_lookup.hpp:365-366 | no ordinal above 0x0153 has a name |
| Ole32Lookup.NamesAscend | src/PE/utils/ordinals_lookup_tables/ole32_dll_lookup.hpp:26-364 | the names ascend strictly in character order along the case labels of the table |
| Ole32Lookup.Ole32NamesDistinct | src/PE/utils/ordinals_lookup_tables/ole32_dll_lookup.hpp:26-364 | two distinct ordinals that both have names have different names |
| Ole32Lookup.Ole32SpotValues | src/PE/utils/ordinals_lookup_tables/ole32_dll_lookup.hpp:26-366 | 0x11 is CoCreateGuid, 0x2 is BindMoniker, 0x153 is WriteStringStream and the out-of-order 0x1 is PropVariantChangeType; 0 and 0xFFFF have none |
| ElfNote.FromValue | api/rust/cargo/lief/src/elf/note.rs:63-110 | the result is UNKNOWN exactly for 0 and values above 0x2a, and an UNKNOWN carries the raw value |
| ElfNote.FromValueRoundTrip | api/rust/cargo/lief/src/elf/note.rs:63-110 | decoding any raw value and taking its raw value back gives the same number, and the decoded type is canonical |
| ElfNote.RawValueRoundTrip | api/rust/cargo/lief/src/elf/note.rs:16-60 | every named variant, and every UNKNOWN outside 1..0x2a, is what its own raw value decodes to |
| ElfNote.FromValueInjective | api/rust/cargo/lief/src/elf/note.rs:64-108 | distinct raw values decode to distinct types |
| ElfNote.FromValueSpotValues | api/rust/cargo/lief/src/elf/note.rs:65-107 | 3 is GNU_BUILD_ID, 0x14 is CORE_FILE, 0x2a is STAPSDT and 1 is GNU_ABI_TAG; 0 and 0x2b decode to UNKNOWN carrying themselves |

## Left out

- The `operator<<` pretty-printer (src/PE/OptionalHeader.cpp:179-213) is text formatting only.
- `computed_checksum` is only called from the printer. Its body is not part of this model.
- `accept` dispatches to a visitor the model does not have.
- The getters and setters of the header are not modelled as methods. They are field reads and writes, and `Create` assigns the fields directly.
- Default member initialisers: the header declaration that holds them is not part of this model. A default header is taken to have every field 0, magic PE32 and subsystem UNKNOWN.
- Enumeration widths: the enumerations are declared outside the modelled file.
  - PE_TYPE and SUBSYSTEM are raw `u16` values with named constants, so a value outside the named ones is allowed, as a cast in the source allows.
  - The DLL characteristics are `bv32` values, with the single-bit values of the PE/COFF format's DLL characteristics field.
- OptionalHeader.Create: the source builds a default header and changes it through setters. The model is a named constructor that gives every field its default and then assigns the same values in the same order. Either way the result is the same fresh header, but the model does not build by copying a value as the C++ does.
- OptionalHeader.Create: the image base choice is `DefaultImageBase`, which also holds the source's `if`. In `Create` the `if` is written out.
- Ole32Lookup.Ole32DllLookup: the table's single `switch` is written as a range test that picks one of 22 blocks, each a `match` over its ordinals. Each block covers 16 ordinals, except that the last block, from 0x0150, also takes every higher ordinal and lists only 0x0150 to 0x0153. The mapping is the same: every case label and name of the table appears once, and every other ordinal gives `None`.
- Ole32Lookup.Ole32NamesDistinct: the null result of ordinal 0 and of the values above 0x0153 is not a name. The lemma is about ordinals that have names.
- ElfNote: `NoteBase`, `Generic`, the `Notes` enum, the `Debug` implementations and the iterator declarations wrap the C++ library through its foreign-function interface, and are not modelled.
- Load-configuration versions, the PE builder example, the Mach-O source-version command and the PE tests of the Rust bindings are outside the modelled component.
