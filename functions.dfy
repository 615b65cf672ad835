/** The annotated stubs of the native library's entry points, and the metadata and
    bindings the framework derives for them. */
module Functions {
  import opened Results
  import opened CTypes
  import opened Native

  /** The library the stubs are bound in. */
  const LIBRARY: string := "libpci.so.3"

  /** A positional-or-keyword parameter annotated `(IN, ctype)`, with no default. */
  function InParam(name: string, ctype: CType): Param {
    Param(name, Pair(IN, ctype), PositionalOrKeyword, None)
  }

  const ACCESS_PARAM: Param := InParam("access", Pointer("pci_access"))

  /** `struct pci_access *pci_alloc(void)`. */
  const PCI_ALLOC: Stub := Stub("pci_alloc", Signature(Some(Pointer("pci_access")), []))

  /** `void pci_init(struct pci_access *)`. */
  const PCI_INIT: Stub := Stub("pci_init", Signature(Some(Void), [ACCESS_PARAM]))

  /** `void pci_cleanup(struct pci_access *)`. */
  const PCI_CLEANUP: Stub := Stub("pci_cleanup", Signature(Some(Void), [ACCESS_PARAM]))

  /** The fixed leading parameters of `pci_lookup_name`. */
  const LOOKUP_PREFIX: seq<Param> :=
    [ACCESS_PARAM, InParam("buf", CCharP), InParam("size", CInt), InParam("flags", CInt)]

  /** The fixed-arity variants of the variadic `pci_lookup_name`, with one, two or four IDs. */
  const PCI_LOOKUP_NAME1: Stub :=
    Stub("pci_lookup_name1", Signature(Some(CCharP), LOOKUP_PREFIX + [InParam("arg1", CInt)]))
  const PCI_LOOKUP_NAME2: Stub :=
    Stub("pci_lookup_name2", Signature(Some(CCharP),
      LOOKUP_PREFIX + [InParam("arg1", CInt), InParam("arg2", CInt)]))
  const PCI_LOOKUP_NAME4: Stub :=
    Stub("pci_lookup_name4", Signature(Some(CCharP),
      LOOKUP_PREFIX + [InParam("arg1", CInt), InParam("arg2", CInt), InParam("arg3", CInt), InParam("arg4", CInt)]))

  /** The bindings as the module declares them, one decorator per stub: the allocation,
      initialisation and cleanup stubs under their own names, the lookup variants under
      the one native symbol `pci_lookup_name`. */
  const PCI_ALLOC_BOUND := Bind(LIBRARY, Unset, PCI_ALLOC)
  const PCI_INIT_BOUND := Bind(LIBRARY, Unset, PCI_INIT)
  const PCI_CLEANUP_BOUND := Bind(LIBRARY, Unset, PCI_CLEANUP)
  const PCI_LOOKUP_NAME1_BOUND := Bind(LIBRARY, Name("pci_lookup_name"), PCI_LOOKUP_NAME1)
  const PCI_LOOKUP_NAME2_BOUND := Bind(LIBRARY, Name("pci_lookup_name"), PCI_LOOKUP_NAME2)
  const PCI_LOOKUP_NAME4_BOUND := Bind(LIBRARY, Name("pci_lookup_name"), PCI_LOOKUP_NAME4)

  /** A stub with no parameters gets empty argument-type and flags tables. */
  lemma PciAllocMetadata()
    ensures MetadataOf(PCI_ALLOC.signature) == Success(Metadata(Pointer("pci_access"), [], []))
  {
  }

  /** Initialisation and cleanup each take the context handle as their one IN parameter. */
  lemma PciInitCleanupMetadata()
    ensures MetadataOf(PCI_INIT.signature) ==
      Success(Metadata(Void, [Pointer("pci_access")], [Flag(IN, "access")]))
    ensures MetadataOf(PCI_CLEANUP.signature) ==
      Success(Metadata(Void, [Pointer("pci_access")], [Flag(IN, "access")]))
  {
    forall fn | fn == PCI_INIT || fn == PCI_CLEANUP
      ensures MetadataOf(fn.signature) == Success(Metadata(Void, [Pointer("pci_access")], [Flag(IN, "access")]))
    {
      MetadataSpec(fn.signature);
      var m := MetadataOf(fn.signature).value;
      assert m.argtypes == [Pointer("pci_access")];
      assert m.paramflags == [Flag(IN, "access")];
    }
  }

  /** The flags entries a lookup variant is expected to derive: `(IN, name)` for each parameter. */
  function InFlags(names: seq<string>): (fs: seq<ParamFlag>)
    ensures |fs| == |names|
    ensures forall i :: 0 <= i < |names| ==> fs[i] == Flag(IN, names[i])
  {
    if names == [] then [] else [Flag(IN, names[0])] + InFlags(names[1..])
  }

  const LOOKUP_NAMES: seq<string> := ["access", "buf", "size", "flags"]

  /** The one-ID lookup variant derives five `(IN, name)` entries without a default slot:
      access, buf, size, flags, arg1. */
  lemma LookupName1Metadata()
    ensures MetadataOf(PCI_LOOKUP_NAME1.signature).Success?
    ensures MetadataOf(PCI_LOOKUP_NAME1.signature).value.restype == CCharP
    ensures MetadataOf(PCI_LOOKUP_NAME1.signature).value.argtypes ==
      [Pointer("pci_access"), CCharP, CInt, CInt, CInt]
    ensures MetadataOf(PCI_LOOKUP_NAME1.signature).value.paramflags == InFlags(LOOKUP_NAMES + ["arg1"])
    ensures |MetadataOf(PCI_LOOKUP_NAME1.signature).value.paramflags| == 5
  {
    LookupFlagsOf(PCI_LOOKUP_NAME1.signature, LOOKUP_NAMES + ["arg1"],
      [Pointer("pci_access"), CCharP, CInt, CInt, CInt]);
  }

  /** The two-ID lookup variant derives six `(IN, name)` entries without a default slot. */
  lemma LookupName2Metadata()
    ensures MetadataOf(PCI_LOOKUP_NAME2.signature).Success?
    ensures MetadataOf(PCI_LOOKUP_NAME2.signature).value.restype == CCharP
    ensures MetadataOf(PCI_LOOKUP_NAME2.signature).value.argtypes ==
      [Pointer("pci_access"), CCharP, CInt, CInt, CInt, CInt]
    ensures MetadataOf(PCI_LOOKUP_NAME2.signature).value.paramflags == InFlags(LOOKUP_NAMES + ["arg1", "arg2"])
    ensures |MetadataOf(PCI_LOOKUP_NAME2.signature).value.paramflags| == 6
  {
    LookupFlagsOf(PCI_LOOKUP_NAME2.signature, LOOKUP_NAMES + ["arg1", "arg2"],
      [Pointer("pci_access"), CCharP, CInt, CInt, CInt, CInt]);
  }

  /** The four-ID lookup variant derives eight `(IN, name)` entries without a default slot. */
  lemma LookupName4Metadata()
    ensures MetadataOf(PCI_LOOKUP_NAME4.signature).Success?
    ensures MetadataOf(PCI_LOOKUP_NAME4.signature).value.restype == CCharP
    ensures MetadataOf(PCI_LOOKUP_NAME4.signature).value.argtypes ==
      [Pointer("pci_access"), CCharP, CInt, CInt, CInt, CInt, CInt, CInt]
    ensures MetadataOf(PCI_LOOKUP_NAME4.signature).value.paramflags ==
      InFlags(LOOKUP_NAMES + ["arg1", "arg2", "arg3", "arg4"])
    ensures |MetadataOf(PCI_LOOKUP_NAME4.signature).value.paramflags| == 8
  {
    LookupFlagsOf(PCI_LOOKUP_NAME4.signature, LOOKUP_NAMES + ["arg1", "arg2", "arg3", "arg4"],
      [Pointer("pci_access"), CCharP, CInt, CInt, CInt, CInt, CInt, CInt]);
  }

  /** A signature whose parameters are all `(IN, type)` without a default gets `(IN, name)`
      entries and the declared types, in order. */
  lemma LookupFlagsOf(sig: Signature, names: seq<string>, types: seq<CType>)
    requires sig.returnAnnotation.Some?
    requires |sig.params| == |names| == |types|
    requires forall i :: 0 <= i < |names| ==>
      sig.params[i] == Param(names[i], Pair(IN, types[i]), PositionalOrKeyword, None)
    ensures MetadataOf(sig).Success?
    ensures MetadataOf(sig).value.paramflags == InFlags(names)
    ensures MetadataOf(sig).value.argtypes == types
  {
    MetadataSpec(sig);
  }

  /** No stub raises: every one binds, and each binds the symbol the module intends. */
  lemma BoundSymbols()
    ensures PCI_ALLOC_BOUND.Success? && PCI_ALLOC_BOUND.value.symbol == Name("pci_alloc")
    ensures PCI_INIT_BOUND.Success? && PCI_INIT_BOUND.value.symbol == Name("pci_init")
    ensures PCI_CLEANUP_BOUND.Success? && PCI_CLEANUP_BOUND.value.symbol == Name("pci_cleanup")
    ensures PCI_LOOKUP_NAME1_BOUND.Success? && PCI_LOOKUP_NAME1_BOUND.value.symbol == Name("pci_lookup_name")
    ensures PCI_LOOKUP_NAME2_BOUND.Success? && PCI_LOOKUP_NAME2_BOUND.value.symbol == Name("pci_lookup_name")
    ensures PCI_LOOKUP_NAME4_BOUND.Success? && PCI_LOOKUP_NAME4_BOUND.value.symbol == Name("pci_lookup_name")
  {
    LookupName1Metadata();
    LookupName2Metadata();
    LookupName4Metadata();
    PciInitCleanupMetadata();
  }
}
