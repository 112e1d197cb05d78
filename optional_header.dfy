/** The PE optional header of the library's PE model: the header object built
    from the on-disk PE32 and PE32+ layouts or from defaults, its DLL
    characteristics bit set with the `has`/`add`/`remove` services, and the
    names of its enumerations. */
module PeOptionalHeader {
  import opened Wrappers

  // ---------------------------------------------------------------------
  // Enumerations
  // ---------------------------------------------------------------------

  /** PE_TYPE: the optional header magic. */
  const PE32: u16 := 0x10b
  const PE32_PLUS: u16 := 0x20b

  /** DLL_CHARACTERISTICS: one bit of the 32-bit characteristics word each. */
  const HIGH_ENTROPY_VA: bv32 := 0x0020
  const DYNAMIC_BASE: bv32 := 0x0040
  const FORCE_INTEGRITY: bv32 := 0x0080
  const NX_COMPAT: bv32 := 0x0100
  const NO_ISOLATION: bv32 := 0x0200
  const NO_SEH: bv32 := 0x0400
  const NO_BIND: bv32 := 0x0800
  const APPCONTAINER: bv32 := 0x1000
  const WDM_DRIVER: bv32 := 0x2000
  const GUARD_CF: bv32 := 0x4000
  const TERMINAL_SERVER_AWARE: bv32 := 0x8000

  /** Every DLL characteristic the library knows, in the order in which it
      reports them. */
  const DLL_CHARACTERISTICS_LIST: seq<bv32> :=
    [HIGH_ENTROPY_VA, DYNAMIC_BASE, FORCE_INTEGRITY, NX_COMPAT, NO_ISOLATION,
     NO_SEH, NO_BIND, APPCONTAINER, WDM_DRIVER, GUARD_CF, TERMINAL_SERVER_AWARE]

  /** SUBSYSTEM: the subsystem an image runs in. */
  const SUBSYSTEM_UNKNOWN: u16 := 0
  const NATIVE: u16 := 1
  const WINDOWS_GUI: u16 := 2
  const WINDOWS_CUI: u16 := 3
  const OS2_CUI: u16 := 5
  const POSIX_CUI: u16 := 7
  const NATIVE_WINDOWS: u16 := 8
  const WINDOWS_CE_GUI: u16 := 9
  const EFI_APPLICATION: u16 := 10
  const EFI_BOOT_SERVICE_DRIVER: u16 := 11
  const EFI_RUNTIME_DRIVER: u16 := 12
  const EFI_ROM: u16 := 13
  const XBOX: u16 := 14
  const WINDOWS_BOOT_APPLICATION: u16 := 16

  /** Every subsystem the library names. */
  const KNOWN_SUBSYSTEMS: seq<u16> :=
    [SUBSYSTEM_UNKNOWN, NATIVE, WINDOWS_GUI, WINDOWS_CUI, OS2_CUI, POSIX_CUI,
     NATIVE_WINDOWS, WINDOWS_CE_GUI, EFI_APPLICATION, EFI_BOOT_SERVICE_DRIVER,
     EFI_RUNTIME_DRIVER, EFI_ROM, XBOX, WINDOWS_BOOT_APPLICATION]

  // ---------------------------------------------------------------------
  // Names of the enumerations
  // ---------------------------------------------------------------------

  /** The name of a DLL characteristic, or "UNKNOWN" for a value that is not
      one of the known flags. The library looks the value up in a constant
      table of the eleven flags; the table is written here as a chain of
      comparisons. */
  function DllCharacteristicToString(c: bv32): (s: string)
    ensures s == "UNKNOWN" <==> c !in DLL_CHARACTERISTICS_LIST
  {
    if c == HIGH_ENTROPY_VA then "HIGH_ENTROPY_VA"
    else if c == DYNAMIC_BASE then "DYNAMIC_BASE"
    else if c == FORCE_INTEGRITY then "FORCE_INTEGRITY"
    else if c == NX_COMPAT then "NX_COMPAT"
    else if c == NO_ISOLATION then "NO_ISOLATION"
    else if c == NO_SEH then "NO_SEH"
    else if c == NO_BIND then "NO_BIND"
    else if c == APPCONTAINER then "APPCONTAINER"
    else if c == WDM_DRIVER then "WDM_DRIVER"
    else if c == GUARD_CF then "GUARD_CF"
    else if c == TERMINAL_SERVER_AWARE then "TERMINAL_SERVER_AWARE"
    else "UNKNOWN"
  }

  /** The name of a subsystem, or "UNKNOWN" for a value that is not a known
      subsystem; the subsystem UNKNOWN itself is also named "UNKNOWN". */
  function SubsystemToString(v: u16): (s: string)
    ensures s == "UNKNOWN" <==> v !in KNOWN_SUBSYSTEMS || v == SUBSYSTEM_UNKNOWN
  {
    if v == SUBSYSTEM_UNKNOWN then "UNKNOWN"
    else if v == NATIVE then "NATIVE"
    else if v == WINDOWS_GUI then "WINDOWS_GUI"
    else if v == WINDOWS_CUI then "WINDOWS_CUI"
    else if v == OS2_CUI then "OS2_CUI"
    else if v == POSIX_CUI then "POSIX_CUI"
    else if v == NATIVE_WINDOWS then "NATIVE_WINDOWS"
    else if v == WINDOWS_CE_GUI then "WINDOWS_CE_GUI"
    else if v == EFI_APPLICATION then "EFI_APPLICATION"
    else if v == EFI_BOOT_SERVICE_DRIVER then "EFI_BOOT_SERVICE_DRIVER"
    else if v == EFI_RUNTIME_DRIVER then "EFI_RUNTIME_DRIVER"
    else if v == EFI_ROM then "EFI_ROM"
    else if v == XBOX then "XBOX"
    else if v == WINDOWS_BOOT_APPLICATION then "WINDOWS_BOOT_APPLICATION"
    else "UNKNOWN"
  }

  /** Distinct known DLL characteristics have distinct names. */
  lemma DllCharacteristicNamesDistinct(c: bv32, d: bv32)
    requires c in DLL_CHARACTERISTICS_LIST && d in DLL_CHARACTERISTICS_LIST
    requires c != d
    ensures DllCharacteristicToString(c) != DllCharacteristicToString(d)
  {
  }

  /** Distinct subsystems have distinct names, unless both are named
      "UNKNOWN". */
  lemma SubsystemNamesDistinct(v: u16, w: u16)
    requires v != w
    requires SubsystemToString(v) != "UNKNOWN"
    ensures SubsystemToString(v) != SubsystemToString(w)
  {
  }

  /** Some names of known and unknown DLL characteristics. */
  lemma DllCharacteristicSpotValues()
    ensures DllCharacteristicToString(0x40) == "DYNAMIC_BASE"
    ensures DllCharacteristicToString(0x8000) == "TERMINAL_SERVER_AWARE"
    ensures DllCharacteristicToString(0) == "UNKNOWN"
    ensures DllCharacteristicToString(0x60) == "UNKNOWN"
  {
  }

  /** Some names of known and unknown subsystems. */
  lemma SubsystemSpotValues()
    ensures SubsystemToString(3) == "WINDOWS_CUI"
    ensures SubsystemToString(16) == "WINDOWS_BOOT_APPLICATION"
    ensures SubsystemToString(4) == "UNKNOWN"
    ensures SubsystemToString(0) == "UNKNOWN"
  {
  }

  // ---------------------------------------------------------------------
  // The characteristics word as a list of flags
  // ---------------------------------------------------------------------

  /** Whether `mask` and `c` have a bit in common; for a single flag `c`,
      whether that flag is set in `mask`. */
  predicate SharesBit(mask: bv32, c: bv32)
  {
    mask & c != 0
  }

  /** The members of `flags` that have a bit in common with `mask`, in the
      order of `flags`. */
  function FlagsSet(flags: seq<bv32>, mask: bv32): (r: seq<bv32>)
    ensures |r| <= |flags|
  {
    if flags == [] then []
    else
      var last := flags[|flags| - 1];
      FlagsSet(flags[..|flags| - 1], mask) + (if SharesBit(mask, last) then [last] else [])
  }

  /** A flag is listed exactly when it is one of `flags` and shares a bit with
      `mask`. */
  lemma {:induction false} FlagsSetMembers(flags: seq<bv32>, mask: bv32, f: bv32)
    ensures f in FlagsSet(flags, mask) <==> f in flags && SharesBit(mask, f)
  {
    if flags != [] {
      var init := flags[..|flags| - 1];
      FlagsSetMembers(init, mask, f);
      assert flags == init + [flags[|flags| - 1]];
    }
  }

  /** `a` is below `b` as an unsigned 32-bit number. */
  predicate Below(a: bv32, b: bv32)
  {
    a < b
  }

  /** Every member of `s` is below every later member: `s` is in ascending
      order and has no duplicates. */
  predicate StrictlyIncreasing(s: seq<bv32>)
  {
    forall i, j :: 0 <= i < j < |s| ==> Below(s[i], s[j])
  }

  /** Appending a value above every member keeps a sequence strictly
      increasing. */
  lemma AppendIncreasing(r: seq<bv32>, x: bv32)
    requires StrictlyIncreasing(r)
    requires forall i :: 0 <= i < |r| ==> Below(r[i], x)
    ensures StrictlyIncreasing(r + [x])
  {
    var s := r + [x];
    forall i, j | 0 <= i < j < |s|
      ensures Below(s[i], s[j])
    {
      assert s[i] == r[i];
      if j < |r| {
        assert s[j] == r[j];
      } else {
        assert s[j] == x;
      }
    }
  }

  /** A bound on all of `flags` bounds all the listed flags. */
  lemma {:induction false} FlagsSetBelow(flags: seq<bv32>, mask: bv32, x: bv32)
    requires forall i :: 0 <= i < |flags| ==> Below(flags[i], x)
    ensures forall i :: 0 <= i < |FlagsSet(flags, mask)| ==> Below(FlagsSet(flags, mask)[i], x)
  {
    if flags != [] {
      FlagsSetBelow(flags[..|flags| - 1], mask, x);
    }
  }

  /** Keeping only some members of a strictly increasing sequence keeps it
      strictly increasing, so the listed flags keep the order of `flags`. */
  lemma {:induction false} FlagsSetIncreasing(flags: seq<bv32>, mask: bv32)
    requires StrictlyIncreasing(flags)
    ensures StrictlyIncreasing(FlagsSet(flags, mask))
  {
    if flags != [] {
      var init := flags[..|flags| - 1];
      var last := flags[|flags| - 1];
      assert StrictlyIncreasing(init);
      FlagsSetIncreasing(init, mask);
      if SharesBit(mask, last) {
        FlagsSetBelow(init, mask, last);
        AppendIncreasing(FlagsSet(init, mask), last);
      }
    }
  }

  /** The known flags are nonzero single bits in ascending order. */
  lemma CharacteristicsListWellFormed()
    ensures StrictlyIncreasing(DLL_CHARACTERISTICS_LIST)
    ensures forall f :: f in DLL_CHARACTERISTICS_LIST ==> f != 0 && f & (f - 1) == 0
  {
  }

  /** Setting the bits of `c` and clearing them leave every bit outside `c`
      as it was. */
  lemma OtherBitsUnchanged(mask: bv32, c: bv32)
    ensures (mask | c) & !c == mask & !c
    ensures (mask & !c) & !c == mask & !c
  {
  }

  /** A flag that shares no bit with `c` is set after setting or clearing `c`
      exactly when it was set before. */
  lemma OtherFlagsUnchanged(mask: bv32, c: bv32, f: bv32)
    requires f & c == 0
    ensures (mask | c) & f == mask & f
    ensures (mask & !c) & f == mask & f
  {
  }

  /** Setting a flag twice is setting it once, clearing it twice is clearing
      it once, clearing a flag that was just set restores a word that did not
      have it, and setting a flag that was just cleared restores a word that
      had it. */
  lemma AddRemoveLaws(mask: bv32, c: bv32)
    ensures (mask | c) | c == mask | c
    ensures (mask & !c) & !c == mask & !c
    ensures mask & c == 0 ==> (mask | c) & !c == mask
    ensures mask & c == c ==> (mask & !c) | c == mask
  {
  }

  /** The image base `create` chooses: 0x400000 for PE32, 0x140000000 for any
      other magic. */
  function DefaultImageBase(magic: u16): (base: u64)
    ensures base % 0x10000 == 0
    ensures base < 0x1_0000_0000 <==> magic == PE32
  {
    if magic == PE32 then 0x400000 else 0x140000000
  }

  // ---------------------------------------------------------------------
  // The on-disk layouts
  // ---------------------------------------------------------------------

  /** The PE32 optional header as stored in the file. */
  datatype Pe32Header = Pe32Header(
    magic: u16,
    majorLinkerVersion: u8, minorLinkerVersion: u8,
    sizeOfCode: u32, sizeOfInitializedData: u32, sizeOfUninitializedData: u32,
    addressOfEntryPoint: u32, baseOfCode: u32, baseOfData: u32,
    imageBase: u32, sectionAlignment: u32, fileAlignment: u32,
    majorOperatingSystemVersion: u16, minorOperatingSystemVersion: u16,
    majorImageVersion: u16, minorImageVersion: u16,
    majorSubsystemVersion: u16, minorSubsystemVersion: u16,
    win32VersionValue: u32, sizeOfImage: u32, sizeOfHeaders: u32,
    checkSum: u32, subsystem: u16, dllCharacteristics: u16,
    sizeOfStackReserve: u32, sizeOfStackCommit: u32,
    sizeOfHeapReserve: u32, sizeOfHeapCommit: u32,
    loaderFlags: u32, numberOfRvaAndSize: u32)

  /** The PE32+ optional header as stored in the file: no BaseOfData, and a
      64-bit image base and stack and heap sizes. */
  datatype Pe64Header = Pe64Header(
    magic: u16,
    majorLinkerVersion: u8, minorLinkerVersion: u8,
    sizeOfCode: u32, sizeOfInitializedData: u32, sizeOfUninitializedData: u32,
    addressOfEntryPoint: u32, baseOfCode: u32,
    imageBase: u64, sectionAlignment: u32, fileAlignment: u32,
    majorOperatingSystemVersion: u16, minorOperatingSystemVersion: u16,
    majorImageVersion: u16, minorImageVersion: u16,
    majorSubsystemVersion: u16, minorSubsystemVersion: u16,
    win32VersionValue: u32, sizeOfImage: u32, sizeOfHeaders: u32,
    checkSum: u32, subsystem: u16, dllCharacteristics: u16,
    sizeOfStackReserve: u64, sizeOfStackCommit: u64,
    sizeOfHeapReserve: u64, sizeOfHeapCommit: u64,
    loaderFlags: u32, numberOfRvaAndSize: u32)

  // ---------------------------------------------------------------------
  // The header object
  // ---------------------------------------------------------------------

  class OptionalHeader {
    var magic: u16
    var majorLinkerVersion: u8
    var minorLinkerVersion: u8
    var sizeofCode: u32
    var sizeofInitializedData: u32
    var sizeofUninitializedData: u32
    var entrypoint: u32
    var baseofCode: u32
    var baseofData: u32
    var imagebase: u64
    var sectionAlignment: u32
    var fileAlignment: u32
    var majorOsVersion: u16
    var minorOsVersion: u16
    var majorImageVersion: u16
    var minorImageVersion: u16
    var majorSubsystemVersion: u16
    var minorSubsystemVersion: u16
    var win32VersionValue: u32
    var sizeofImage: u32
    var sizeofHeaders: u32
    var checksum: u32
    var subsystem: u16
    var dllCharacteristics: bv32
    var sizeofStackReserve: u64
    var sizeofStackCommit: u64
    var sizeofHeapReserve: u64
    var sizeofHeapCommit: u64
    var loaderFlags: u32
    var numberofRvaAndSize: u32

    /** Every field is zero, except the magic, which is PE32. */
    predicate IsDefault()
      reads this
    {
      magic == PE32 && subsystem == SUBSYSTEM_UNKNOWN &&
      majorLinkerVersion == 0 && minorLinkerVersion == 0 &&
      sizeofCode == 0 && sizeofInitializedData == 0 && sizeofUninitializedData == 0 &&
      entrypoint == 0 && baseofCode == 0 && baseofData == 0 &&
      imagebase == 0 && sectionAlignment == 0 && fileAlignment == 0 &&
      majorOsVersion == 0 && minorOsVersion == 0 &&
      majorImageVersion == 0 && minorImageVersion == 0 &&
      majorSubsystemVersion == 0 && minorSubsystemVersion == 0 &&
      win32VersionValue == 0 && sizeofImage == 0 && sizeofHeaders == 0 &&
      checksum == 0 && dllCharacteristics == 0 &&
      sizeofStackReserve == 0 && sizeofStackCommit == 0 &&
      sizeofHeapReserve == 0 && sizeofHeapCommit == 0 &&
      loaderFlags == 0 && numberofRvaAndSize == 0
    }

    /** A header with every field at its default. */
    constructor ()
      ensures IsDefault()
    {
      magic := PE32;
      subsystem := SUBSYSTEM_UNKNOWN;
      majorLinkerVersion, minorLinkerVersion := 0, 0;
      sizeofCode, sizeofInitializedData, sizeofUninitializedData := 0, 0, 0;
      entrypoint, baseofCode, baseofData := 0, 0, 0;
      imagebase, sectionAlignment, fileAlignment := 0, 0, 0;
      majorOsVersion, minorOsVersion := 0, 0;
      majorImageVersion, minorImageVersion := 0, 0;
      majorSubsystemVersion, minorSubsystemVersion := 0, 0;
      win32VersionValue, sizeofImage, sizeofHeaders, checksum := 0, 0, 0, 0;
      dllCharacteristics := 0;
      sizeofStackReserve, sizeofStackCommit := 0, 0;
      sizeofHeapReserve, sizeofHeapCommit := 0, 0;
      loaderFlags, numberofRvaAndSize := 0, 0;
    }

    /** The header read from a PE32 file: every field is copied, BaseOfData
        included. */
    constructor FromPe32(h: Pe32Header)
      ensures magic == h.magic && baseofData == h.baseOfData
      ensures majorLinkerVersion == h.majorLinkerVersion && minorLinkerVersion == h.minorLinkerVersion
      ensures sizeofCode == h.sizeOfCode && sizeofInitializedData == h.sizeOfInitializedData
      ensures sizeofUninitializedData == h.sizeOfUninitializedData
      ensures entrypoint == h.addressOfEntryPoint && baseofCode == h.baseOfCode
      ensures imagebase == h.imageBase
      ensures sectionAlignment == h.sectionAlignment && fileAlignment == h.fileAlignment
      ensures majorOsVersion == h.majorOperatingSystemVersion && minorOsVersion == h.minorOperatingSystemVersion
      ensures majorImageVersion == h.majorImageVersion && minorImageVersion == h.minorImageVersion
      ensures majorSubsystemVersion == h.majorSubsystemVersion && minorSubsystemVersion == h.minorSubsystemVersion
      ensures win32VersionValue == h.win32VersionValue && sizeofImage == h.sizeOfImage
      ensures sizeofHeaders == h.sizeOfHeaders && checksum == h.checkSum
      ensures subsystem == h.subsystem && dllCharacteristics == h.dllCharacteristics as bv32
      ensures sizeofStackReserve == h.sizeOfStackReserve && sizeofStackCommit == h.sizeOfStackCommit
      ensures sizeofHeapReserve == h.sizeOfHeapReserve && sizeofHeapCommit == h.sizeOfHeapCommit
      ensures loaderFlags == h.loaderFlags && numberofRvaAndSize == h.numberOfRvaAndSize
    {
      magic := h.magic;
      majorLinkerVersion, minorLinkerVersion := h.majorLinkerVersion, h.minorLinkerVersion;
      sizeofCode, sizeofInitializedData := h.sizeOfCode, h.sizeOfInitializedData;
      sizeofUninitializedData := h.sizeOfUninitializedData;
      entrypoint, baseofCode := h.addressOfEntryPoint, h.baseOfCode;
      baseofData := h.baseOfData;
      imagebase := h.imageBase;
      sectionAlignment, fileAlignment := h.sectionAlignment, h.fileAlignment;
      majorOsVersion, minorOsVersion := h.majorOperatingSystemVersion, h.minorOperatingSystemVersion;
      majorImageVersion, minorImageVersion := h.majorImageVersion, h.minorImageVersion;
      majorSubsystemVersion, minorSubsystemVersion := h.majorSubsystemVersion, h.minorSubsystemVersion;
      win32VersionValue, sizeofImage := h.win32VersionValue, h.sizeOfImage;
      sizeofHeaders, checksum := h.sizeOfHeaders, h.checkSum;
      subsystem := h.subsystem;
      dllCharacteristics := h.dllCharacteristics as bv32;
      sizeofStackReserve, sizeofStackCommit := h.sizeOfStackReserve, h.sizeOfStackCommit;
      sizeofHeapReserve, sizeofHeapCommit := h.sizeOfHeapReserve, h.sizeOfHeapCommit;
      loaderFlags, numberofRvaAndSize := h.loaderFlags, h.numberOfRvaAndSize;
    }

    /** The header read from a PE32+ file: every field is copied, and
        BaseOfData, which the layout does not have, is 0. */
    constructor FromPe64(h: Pe64Header)
      ensures magic == h.magic && baseofData == 0
      ensures majorLinkerVersion == h.majorLinkerVersion && minorLinkerVersion == h.minorLinkerVersion
      ensures sizeofCode == h.sizeOfCode && sizeofInitializedData == h.sizeOfInitializedData
      ensures sizeofUninitializedData == h.sizeOfUninitializedData
      ensures entrypoint == h.addressOfEntryPoint && baseofCode == h.baseOfCode
      ensures imagebase == h.imageBase
      ensures sectionAlignment == h.sectionAlignment && fileAlignment == h.fileAlignment
      ensures majorOsVersion == h.majorOperatingSystemVersion && minorOsVersion == h.minorOperatingSystemVersion
      ensures majorImageVersion == h.majorImageVersion && minorImageVersion == h.minorImageVersion
      ensures majorSubsystemVersion == h.majorSubsystemVersion && minorSubsystemVersion == h.minorSubsystemVersion
      ensures win32VersionValue == h.win32VersionValue && sizeofImage == h.sizeOfImage
      ensures sizeofHeaders == h.sizeOfHeaders && checksum == h.checkSum
      ensures subsystem == h.subsystem && dllCharacteristics == h.dllCharacteristics as bv32
      ensures sizeofStackReserve == h.sizeOfStackReserve && sizeofStackCommit == h.sizeOfStackCommit
      ensures sizeofHeapReserve == h.sizeOfHeapReserve && sizeofHeapCommit == h.sizeOfHeapCommit
      ensures loaderFlags == h.loaderFlags && numberofRvaAndSize == h.numberOfRvaAndSize
    {
      magic := h.magic;
      majorLinkerVersion, minorLinkerVersion := h.majorLinkerVersion, h.minorLinkerVersion;
      sizeofCode, sizeofInitializedData := h.sizeOfCode, h.sizeOfInitializedData;
      sizeofUninitializedData := h.sizeOfUninitializedData;
      entrypoint, baseofCode := h.addressOfEntryPoint, h.baseOfCode;
      baseofData := 0;
      imagebase := h.imageBase;
      sectionAlignment, fileAlignment := h.sectionAlignment, h.fileAlignment;
      majorOsVersion, minorOsVersion := h.majorOperatingSystemVersion, h.minorOperatingSystemVersion;
      majorImageVersion, minorImageVersion := h.majorImageVersion, h.minorImageVersion;
      majorSubsystemVersion, minorSubsystemVersion := h.majorSubsystemVersion, h.minorSubsystemVersion;
      win32VersionValue, sizeofImage := h.win32VersionValue, h.sizeOfImage;
      sizeofHeaders, checksum := h.sizeOfHeaders, h.checkSum;
      subsystem := h.subsystem;
      dllCharacteristics := h.dllCharacteristics as bv32;
      sizeofStackReserve, sizeofStackCommit := h.sizeOfStackReserve, h.sizeOfStackCommit;
      sizeofHeapReserve, sizeofHeapCommit := h.sizeOfHeapReserve, h.sizeOfHeapCommit;
      loaderFlags, numberofRvaAndSize := h.loaderFlags, h.numberOfRvaAndSize;
    }

    /** The header `create` builds for a new image of type `pe`: a default
        header on which the usual alignments, versions, stack and heap sizes,
        subsystem and image base are set. The library writes this as a static
        function returning a default header changed through its setters; here
        it is a named constructor that first gives every field its default and
        then assigns the same values in the same order. */
    constructor Create(pe: u16)
      ensures magic == pe
      ensures sectionAlignment == 0x1000 && fileAlignment == 0x200
      ensures numberofRvaAndSize == 16 && subsystem == WINDOWS_CUI
      ensures majorLinkerVersion == 9 && majorOsVersion == 6 && majorSubsystemVersion == 6
      ensures sizeofStackReserve == 0x100000 && sizeofStackCommit == 0x1000
      ensures sizeofHeapReserve == 0x100000 && sizeofHeapCommit == 0x1000
      ensures sizeofHeaders == 0x400
      ensures imagebase == DefaultImageBase(pe)
      ensures minorLinkerVersion == 0 && minorOsVersion == 0 && minorSubsystemVersion == 0
      ensures sizeofCode == 0 && sizeofInitializedData == 0 && sizeofUninitializedData == 0
      ensures entrypoint == 0 && baseofCode == 0 && baseofData == 0
      ensures majorImageVersion == 0 && minorImageVersion == 0
      ensures win32VersionValue == 0 && sizeofImage == 0 && checksum == 0
      ensures dllCharacteristics == 0 && loaderFlags == 0
    {
      magic := PE32;
      subsystem := SUBSYSTEM_UNKNOWN;
      majorLinkerVersion, minorLinkerVersion := 0, 0;
      sizeofCode, sizeofInitializedData, sizeofUninitializedData := 0, 0, 0;
      entrypoint, baseofCode, baseofData := 0, 0, 0;
      imagebase, sectionAlignment, fileAlignment := 0, 0, 0;
      majorOsVersion, minorOsVersion := 0, 0;
      majorImageVersion, minorImageVersion := 0, 0;
      majorSubsystemVersion, minorSubsystemVersion := 0, 0;
      win32VersionValue, sizeofImage, sizeofHeaders, checksum := 0, 0, 0, 0;
      dllCharacteristics := 0;
      sizeofStackReserve, sizeofStackCommit := 0, 0;
      sizeofHeapReserve, sizeofHeapCommit := 0, 0;
      loaderFlags, numberofRvaAndSize := 0, 0;

      magic := pe;
      sectionAlignment := 0x1000;
      fileAlignment := 0x200;
      numberofRvaAndSize := 16;
      subsystem := WINDOWS_CUI;
      majorLinkerVersion := 9;
      majorOsVersion := 6;
      majorSubsystemVersion := 6;
      sizeofStackReserve := 0x100000;
      sizeofStackCommit := 0x1000;
      sizeofHeapReserve := 0x100000;
      sizeofHeapCommit := 0x1000;
      sizeofHeaders := 0x400;
      if pe == PE32 {
        imagebase := 0x400000;
      } else {
        imagebase := 0x140000000;
      }
    }

    /** Whether the characteristics word has a bit in common with `c`; for a
        single flag, whether that flag is set. */
    predicate Has(c: bv32)
      reads this
      ensures Has(c) ==> c != 0 && dllCharacteristics != 0
      ensures c == dllCharacteristics ==> (Has(c) <==> c != 0)
    {
      SharesBit(dllCharacteristics, c)
    }

    /** Sets every bit of `c` and no other. */
    method Add(c: bv32)
      modifies this`dllCharacteristics
      ensures dllCharacteristics == old(dllCharacteristics) | c
      ensures dllCharacteristics & c == c
      ensures c != 0 ==> Has(c)
    {
      dllCharacteristics := dllCharacteristics | c;
    }

    /** Clears every bit of `c` and no other. */
    method Remove(c: bv32)
      modifies this`dllCharacteristics
      ensures dllCharacteristics == old(dllCharacteristics) & !c
      ensures !Has(c)
    {
      dllCharacteristics := dllCharacteristics & !c;
    }

    /** `+=`: the same as `Add`, returning this header. */
    method AddAssign(c: bv32) returns (self: OptionalHeader)
      modifies this`dllCharacteristics
      ensures self == this
      ensures dllCharacteristics == old(dllCharacteristics) | c
    {
      Add(c);
      self := this;
    }

    /** `-=`: the same as `Remove`, returning this header. */
    method SubAssign(c: bv32) returns (self: OptionalHeader)
      modifies this`dllCharacteristics
      ensures self == this
      ensures dllCharacteristics == old(dllCharacteristics) & !c
    {
      Remove(c);
      self := this;
    }

    /** The known flags that are set, in the order of the list of known
        flags, each once. */
    method DllCharacteristicsList() returns (r: seq<bv32>)
      ensures r == FlagsSet(DLL_CHARACTERISTICS_LIST, dllCharacteristics)
      ensures forall f :: f in r <==> f in DLL_CHARACTERISTICS_LIST && Has(f)
      ensures StrictlyIncreasing(r)
    {
      r := [];
      var k := 0;
      while k < |DLL_CHARACTERISTICS_LIST|
        invariant 0 <= k <= |DLL_CHARACTERISTICS_LIST|
        invariant r == FlagsSet(DLL_CHARACTERISTICS_LIST[..k], dllCharacteristics)
      {
        var f := DLL_CHARACTERISTICS_LIST[k];
        assert DLL_CHARACTERISTICS_LIST[..k + 1][..k] == DLL_CHARACTERISTICS_LIST[..k];
        if Has(f) {
          r := r + [f];
        }
        k := k + 1;
      }
      assert DLL_CHARACTERISTICS_LIST[..k] == DLL_CHARACTERISTICS_LIST;
      forall f
        ensures f in r <==> f in DLL_CHARACTERISTICS_LIST && Has(f)
      {
        FlagsSetMembers(DLL_CHARACTERISTICS_LIST, dllCharacteristics, f);
      }
      CharacteristicsListWellFormed();
      FlagsSetIncreasing(DLL_CHARACTERISTICS_LIST, dllCharacteristics);
    }
  }
}
