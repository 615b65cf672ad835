/** The enumerations of the native library's header that the bindings depend on,
    and the platform-dependent width of the PCI address type. */
module PciTypes {
  import opened Results
  import opened CTypes

  /** enum pci_access_type: the back ends the native library can use. */
  datatype AccessType =
    | Auto | SysBusPci | ProcBusPci | I386Type1 | I386Type2 | FbsdDevice
    | AixDevice | NbsdLibpci | ObsdDevice | Dump | Max

  /** The integer value of each access type. */
  function Ordinal(a: AccessType): nat {
    match a
    case Auto => 0
    case SysBusPci => 1
    case ProcBusPci => 2
    case I386Type1 => 3
    case I386Type2 => 4
    case FbsdDevice => 5
    case AixDevice => 6
    case NbsdLibpci => 7
    case ObsdDevice => 8
    case Dump => 9
    case Max => 10
  }

  /** The access type with a given integer value, as `pci_access_type(k)` looks it up. */
  function FromOrdinal(k: int): Option<AccessType> {
    if k == 0 then Some(Auto)
    else if k == 1 then Some(SysBusPci)
    else if k == 2 then Some(ProcBusPci)
    else if k == 3 then Some(I386Type1)
    else if k == 4 then Some(I386Type2)
    else if k == 5 then Some(FbsdDevice)
    else if k == 6 then Some(AixDevice)
    else if k == 7 then Some(NbsdLibpci)
    else if k == 8 then Some(ObsdDevice)
    else if k == 9 then Some(Dump)
    else if k == 10 then Some(Max)
    else None
  }

  /** The access types take exactly the consecutive values 0..10, one value each. */
  lemma AccessTypesConsecutive(a: AccessType, k: int)
    ensures FromOrdinal(Ordinal(a)) == Some(a)
    ensures FromOrdinal(k).Some? <==> 0 <= k <= Ordinal(Max)
    ensures FromOrdinal(k).Some? ==> Ordinal(FromOrdinal(k).value) == k
  {
  }

  /** enum pci_lookup_mode: what a name lookup resolves (the kinds) and how (the modifiers). */
  datatype LookupMode =
    | Vendor | Device | Class | Subsystem | Progif
    | Numeric | NoNumbers | Mixed | Network | SkipLocal | Cache | RefreshCache
  {
    /** The bit value of the mode, as the header defines it. */
    function Value(): bv32 {
      match this
      case Vendor => 1
      case Device => 2
      case Class => 4
      case Subsystem => 8
      case Progif => 16
      case Numeric => 0x10000
      case NoNumbers => 0x20000
      case Mixed => 0x40000
      case Network => 0x80000
      case SkipLocal => 0x100000
      case Cache => 0x200000
      case RefreshCache => 0x400000
    }

    /** The kinds select which identifiers are resolved; the rest modify how. */
    predicate IsKind() {
      Vendor? || Device? || Class? || Subsystem? || Progif?
    }
  }

  /** `v` has exactly one bit set. */
  predicate IsSingleBit(v: bv32) {
    v != 0 && v & (v - 1) == 0
  }

  /** The position of the mode's bit. */
  function BitIndex(m: LookupMode): nat {
    match m
    case Vendor => 0
    case Device => 1
    case Class => 2
    case Subsystem => 3
    case Progif => 4
    case Numeric => 16
    case NoNumbers => 17
    case Mixed => 18
    case Network => 19
    case SkipLocal => 20
    case Cache => 21
    case RefreshCache => 22
  }

  /** Every lookup mode is a single bit below 2^23, at position BitIndex. */
  lemma LookupModeIsSingleBit(m: LookupMode)
    ensures BitIndex(m) < 23
    ensures m.Value() == 1 << BitIndex(m)
    ensures IsSingleBit(m.Value())
  {
  }

  /** Two distinct lookup modes have no bit in common. */
  lemma LookupModesDisjoint(m: LookupMode, n: LookupMode)
    requires m != n
    ensures m.Value() != n.Value()
    ensures m.Value() & n.Value() == 0
  {
    LookupModeIsSingleBit(m);
    LookupModeIsSingleBit(n);
    assert BitIndex(m) != BitIndex(n);
    DistinctBitsDisjoint(BitIndex(m), BitIndex(n));
  }

  lemma DistinctBitsDisjoint(i: nat, j: nat)
    requires i < 32 && j < 32 && i != j
    ensures (1 as bv32 << i) & (1 as bv32 << j) == 0
    ensures (1 as bv32 << i) != (1 as bv32 << j)
  {
  }

  /** The kinds (at most 16) and the modifiers (at least 0x10000) occupy separate bit ranges. */
  lemma KindsBelowModifiers(m: LookupMode)
    ensures m.IsKind() ==> m.Value() <= 16
    ensures !m.IsKind() ==> 0x10000 <= m.Value()
    ensures m.Value() < 1 << 23
  {
  }

  /** The machine names on which the PCI address type is 64 bits wide. */
  const WIDE_MACHINES: seq<string> := ["x86_64", "aarch64", "ppcel64"]

  /** `pciaddr_t`, chosen from the machine name that `os.uname()` reports. */
  function PciAddrType(machine: string): (t: CType)
    ensures t.CUInt32? || t.CUInt64?
    ensures Width(t) == 64 <==> machine == "x86_64" || machine == "aarch64" || machine == "ppcel64"
    ensures Width(t) == 32 <==> machine !in WIDE_MACHINES
  {
    if machine in WIDE_MACHINES then CUInt64 else CUInt32
  }

  /** The name listed is `ppcel64`, while little-endian 64-bit POWER reports `ppc64le`;
      the choice as written therefore gives that machine the 32-bit address type. */
  lemma LittleEndianPowerIsNarrow()
    ensures PciAddrType("ppcel64") == CUInt64
    ensures PciAddrType("ppc64le") == CUInt32
  {
    assert "ppc64le" != "x86_64" && "ppc64le" != "aarch64" && "ppc64le" != "ppcel64";
  }
}
