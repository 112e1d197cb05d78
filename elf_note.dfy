/** The ELF note type of the Rust bindings: a closed enumeration of the note
    types the library knows, plus `UNKNOWN(value)` for every other raw
    32-bit type, and the conversion from the raw value. */
module ElfNote {
  import opened Wrappers

  /** The type of an ELF note. The named variants are listed in declaration
      order; `UNKNOWN` carries the raw value it was built from. */
  datatype NoteType =
    | GNU_ABI_TAG
    | GNU_HWCAP
    | GNU_BUILD_ID
    | GNU_GOLD_VERSION
    | GNU_PROPERTY_TYPE_0
    | GNU_BUILD_ATTRIBUTE_OPEN
    | GNU_BUILD_ATTRIBUTE_FUNC
    | CRASHPAD
    | CORE_PRSTATUS
    | CORE_FPREGSET
    | CORE_PRPSINFO
    | CORE_TASKSTRUCT
    | CORE_AUXV
    | CORE_PSTATUS
    | CORE_FPREGS
    | CORE_PSINFO
    | CORE_LWPSTATUS
    | CORE_LWPSINFO
    | CORE_WIN32PSTATUS
    | CORE_FILE
    | CORE_PRXFPREG
    | CORE_SIGINFO
    | CORE_ARM_VFP
    | CORE_ARM_TLS
    | CORE_ARM_HW_BREAK
    | CORE_ARM_HW_WATCH
    | CORE_ARM_SYSTEM_CALL
    | CORE_ARM_SVE
    | CORE_ARM_PAC_MASK
    | CORE_ARM_PACA_KEYS
    | CORE_ARM_PACG_KEYS
    | CORE_TAGGED_ADDR_CTRL
    | CORE_PAC_ENABLED_KEYS
    | CORE_X86_TLS
    | CORE_X86_IOPERM
    | CORE_X86_XSTATE
    | CORE_X86_CET
    | ANDROID_IDENT
    | ANDROID_MEMTAG
    | ANDROID_KUSER
    | GO_BUILDID
    | STAPSDT
    | UNKNOWN(value: u32)

  /** Largest raw value with a named variant. */
  const LastKnownValue: u32 := 0x2a

  /** The type of a note whose raw type field is `v`. */
  function FromValue(v: u32): (t: NoteType)
    ensures t.UNKNOWN? <==> v == 0 || LastKnownValue < v
    ensures t.UNKNOWN? ==> t.value == v
  {
    match v
    case 0x00000001 => GNU_ABI_TAG
    case 0x00000002 => GNU_HWCAP
    case 0x00000003 => GNU_BUILD_ID
    case 0x00000004 => GNU_GOLD_VERSION
    case 0x00000005 => GNU_PROPERTY_TYPE_0
    case 0x00000006 => GNU_BUILD_ATTRIBUTE_OPEN
    case 0x00000007 => GNU_BUILD_ATTRIBUTE_FUNC
    case 0x00000008 => CRASHPAD
    case 0x00000009 => CORE_PRSTATUS
    case 0x0000000a => CORE_FPREGSET
    case 0x0000000b => CORE_PRPSINFO
    case 0x0000000c => CORE_TASKSTRUCT
    case 0x0000000d => CORE_AUXV
    case 0x0000000e => CORE_PSTATUS
    case 0x0000000f => CORE_FPREGS
    case 0x00000010 => CORE_PSINFO
    case 0x00000011 => CORE_LWPSTATUS
    case 0x00000012 => CORE_LWPSINFO
    case 0x00000013 => CORE_WIN32PSTATUS
    case 0x00000014 => CORE_FILE
    case 0x00000015 => CORE_PRXFPREG
    case 0x00000016 => CORE_SIGINFO
    case 0x00000017 => CORE_ARM_VFP
    case 0x00000018 => CORE_ARM_TLS
    case 0x00000019 => CORE_ARM_HW_BREAK
    case 0x0000001a => CORE_ARM_HW_WATCH
    case 0x0000001b => CORE_ARM_SYSTEM_CALL
    case 0x0000001c => CORE_ARM_SVE
    case 0x0000001d => CORE_ARM_PAC_MASK
    case 0x0000001e => CORE_ARM_PACA_KEYS
    case 0x0000001f => CORE_ARM_PACG_KEYS
    case 0x00000020 => CORE_TAGGED_ADDR_CTRL
    case 0x00000021 => CORE_PAC_ENABLED_KEYS
    case 0x00000022 => CORE_X86_TLS
    case 0x00000023 => CORE_X86_IOPERM
    case 0x00000024 => CORE_X86_XSTATE
    case 0x00000025 => CORE_X86_CET
    case 0x00000026 => ANDROID_IDENT
    case 0x00000027 => ANDROID_MEMTAG
    case 0x00000028 => ANDROID_KUSER
    case 0x00000029 => GO_BUILDID
    case 0x0000002a => STAPSDT
    case _ => UNKNOWN(v)
  }

  /** The raw value a type stands for: the value `FromValue` maps to each
      named variant, and the carried value of `UNKNOWN`. */
  function RawValue(t: NoteType): (r: u32)
  {
    match t
    case GNU_ABI_TAG => 0x01
    case GNU_HWCAP => 0x02
    case GNU_BUILD_ID => 0x03
    case GNU_GOLD_VERSION => 0x04
    case GNU_PROPERTY_TYPE_0 => 0x05
    case GNU_BUILD_ATTRIBUTE_OPEN => 0x06
    case GNU_BUILD_ATTRIBUTE_FUNC => 0x07
    case CRASHPAD => 0x08
    case CORE_PRSTATUS => 0x09
    case CORE_FPREGSET => 0x0a
    case CORE_PRPSINFO => 0x0b
    case CORE_TASKSTRUCT => 0x0c
    case CORE_AUXV => 0x0d
    case CORE_PSTATUS => 0x0e
    case CORE_FPREGS => 0x0f
    case CORE_PSINFO => 0x10
    case CORE_LWPSTATUS => 0x11
    case CORE_LWPSINFO => 0x12
    case CORE_WIN32PSTATUS => 0x13
    case CORE_FILE => 0x14
    case CORE_PRXFPREG => 0x15
    case CORE_SIGINFO => 0x16
    case CORE_ARM_VFP => 0x17
    case CORE_ARM_TLS => 0x18
    case CORE_ARM_HW_BREAK => 0x19
    case CORE_ARM_HW_WATCH => 0x1a
    case CORE_ARM_SYSTEM_CALL => 0x1b
    case CORE_ARM_SVE => 0x1c
    case CORE_ARM_PAC_MASK => 0x1d
    case CORE_ARM_PACA_KEYS => 0x1e
    case CORE_ARM_PACG_KEYS => 0x1f
    case CORE_TAGGED_ADDR_CTRL => 0x20
    case CORE_PAC_ENABLED_KEYS => 0x21
    case CORE_X86_TLS => 0x22
    case CORE_X86_IOPERM => 0x23
    case CORE_X86_XSTATE => 0x24
    case CORE_X86_CET => 0x25
    case ANDROID_IDENT => 0x26
    case ANDROID_MEMTAG => 0x27
    case ANDROID_KUSER => 0x28
    case GO_BUILDID => 0x29
    case STAPSDT => 0x2a
    case UNKNOWN(value) => value
  }

  /** A type `FromValue` can produce: `UNKNOWN` only around a value that has
      no named variant. */
  predicate Canonical(t: NoteType)
  {
    t.UNKNOWN? ==> t.value == 0 || LastKnownValue < t.value
  }

  /** `FromValue` never loses the raw value. */
  lemma FromValueRoundTrip(v: u32)
    ensures RawValue(FromValue(v)) == v
    ensures Canonical(FromValue(v))
  {
    if v == 0 || LastKnownValue < v {
    } else if v <= 0x0e {
      FromValueRoundTripIn(v, 0x01, 0x0e);
    } else if v <= 0x1c {
      FromValueRoundTripIn(v, 0x0f, 0x1c);
    } else {
      FromValueRoundTripIn(v, 0x1d, 0x2a);
    }
  }

  /** The round trip for the known values from `lo` to `hi`. */
  lemma FromValueRoundTripIn(v: u32, lo: u32, hi: u32)
    requires lo <= v <= hi && hi - lo < 0x0e
    ensures RawValue(FromValue(v)) == v
  {
  }

  /** Every canonical type is the type of exactly its raw value. */
  lemma RawValueRoundTrip(t: NoteType)
    requires Canonical(t)
    ensures FromValue(RawValue(t)) == t
  {
    match t
    case GNU_ABI_TAG => {}
    case GNU_HWCAP => {}
    case GNU_BUILD_ID => {}
    case GNU_GOLD_VERSION => {}
    case GNU_PROPERTY_TYPE_0 => {}
    case GNU_BUILD_ATTRIBUTE_OPEN => {}
    case GNU_BUILD_ATTRIBUTE_FUNC => {}
    case CRASHPAD => {}
    case CORE_PRSTATUS => {}
    case CORE_FPREGSET => {}
    case CORE_PRPSINFO => {}
    case CORE_TASKSTRUCT => {}
    case CORE_AUXV => {}
    case CORE_PSTATUS => {}
    case CORE_FPREGS => {}
    case CORE_PSINFO => {}
    case CORE_LWPSTATUS => {}
    case CORE_LWPSINFO => {}
    case CORE_WIN32PSTATUS => {}
    case CORE_FILE => {}
    case CORE_PRXFPREG => {}
    case CORE_SIGINFO => {}
    case CORE_ARM_VFP => {}
    case CORE_ARM_TLS => {}
    case CORE_ARM_HW_BREAK => {}
    case CORE_ARM_HW_WATCH => {}
    case CORE_ARM_SYSTEM_CALL => {}
    case CORE_ARM_SVE => {}
    case CORE_ARM_PAC_MASK => {}
    case CORE_ARM_PACA_KEYS => {}
    case CORE_ARM_PACG_KEYS => {}
    case CORE_TAGGED_ADDR_CTRL => {}
    case CORE_PAC_ENABLED_KEYS => {}
    case CORE_X86_TLS => {}
    case CORE_X86_IOPERM => {}
    case CORE_X86_XSTATE => {}
    case CORE_X86_CET => {}
    case ANDROID_IDENT => {}
    case ANDROID_MEMTAG => {}
    case ANDROID_KUSER => {}
    case GO_BUILDID => {}
    case STAPSDT => {}
    case UNKNOWN(_) => {}
  }

  /** Distinct raw values give distinct types. */
  lemma FromValueInjective(v: u32, w: u32)
    requires FromValue(v) == FromValue(w)
    ensures v == w
  {
    FromValueRoundTrip(v);
    FromValueRoundTrip(w);
  }

  /** Types the note parsers rely on. */
  lemma FromValueSpotValues()
    ensures FromValue(3) == GNU_BUILD_ID
    ensures FromValue(0x14) == CORE_FILE
    ensures FromValue(0x2a) == STAPSDT
    ensures FromValue(1) == GNU_ABI_TAG
    ensures FromValue(0) == UNKNOWN(0)
    ensures FromValue(0x2b) == UNKNOWN(0x2b)
  {
  }
}
