# libpci bindings in Dafny

This project models the core of the `libpci` Python bindings. They expose the native
PCI device library through typed foreign-function stubs and add a small resource
wrapper on top. The model has four parts:

- **The function-binding framework** (`native.dfy`, module `Native`).
  - `_ctypes_metadata` validates an annotated stub signature and derives three things: the return type, the ordered argument types, and the parameter-flags table.
  - One step is special: an `IN` parameter whose default is 0 is tagged `IN|ZERO`, and its default is dropped.
  - The method `CtypesMetadata` keeps the source's loop. It is proved equal to the specification function `MetadataOf`. The lemmas about `MetadataOf` state the order of the checks, the first-failing-parameter rule, the length invariant and the per-parameter encoding.
  - The `Function` decorator is modelled only as data: which symbol it binds (`name_or_ordinal or fn.__name__`), the prototype `(restype, *argtypes)`, and the flags table.
  - The module also models the `Macro` value box.
- **The stubs** (`functions.dfy`, module `Functions`): `pci_alloc`, `pci_init`, `pci_cleanup` and the three fixed-arity variants of `pci_lookup_name`. They serve as worked instances of the derivation and of the symbol choice.
- **The header constants** (`pci_types.dfy`, module `PciTypes`): `pci_access_type`, `pci_lookup_mode` with its bit properties, and the choice of width for `pciaddr_t`.
- **The `LibPCI` wrapper** (`wrapper.dfy`, module `Wrapper`). It is a class with the fields `access` (the handle, `None` when closed) and `flags` (a `bv32`). A ghost `trace` records every call into the native library: `Alloc`, `Init`, `Cleanup`, and `Lookup(handle, flags, ids, bufsize)`.
  - The object invariant `Valid()` says the trace starts with the allocation and the initialisation of the object's own handle. It also says the trace holds one `Cleanup` exactly when the object is closed. So cleanup happens at most once, however often `close`, `__exit__` or `__del__` run.
  - Each lookup allocates a zeroed 1024-byte array. The native call writes its answer, `fill`, into that array, and the lookup decodes the bytes up to the first zero byte.

Supporting modules: `results.dfy` (Option, Result), `ctypes.dfy` (the type descriptors the stubs name) and `pyvalues.dfy`. `pyvalues.dfy` covers the Python values that can be defaults or macro values: comparison with 0 (where `False == 0`), `str`, `repr`, and decimal formatting of integers with a parser as its partner.

Inputs the model takes as parameters, because they come from outside the Python code:
- the handle `pci_alloc` returns (the `LibPCI` constructor argument);
- the bytes the native lookup writes (`fill`);
- the UTF-8 decoder, a partial function `seq<bv8> -> Option<string>`;
- the machine name from `os.uname()`.

Behaviour of the code as written, which the model keeps:
- Lookups do not check whether the object is closed. On a closed object they pass `None` as the handle, and the trace records `Lookup(None, ...)`.
- `lookup_subsystem_device_name` first computes `flags | SUBSYSTEM` and then overwrites it with `flags | DEVICE`. The second value is the one passed. This contradicts the calling-convention table at `libpci/_functions.py:77`, which asks for `SUBSYSTEM | DEVICE`. The lemma `Wrapper.SubsystemBitDiscarded` shows that the mask passed differs from it whenever the persistent flags lack the subsystem bit.
- The 64-bit machine names in `libpci/_types.py:125` include `ppcel64`, which is not a name `os.uname()` reports; little-endian 64-bit POWER reports `ppc64le`. That machine therefore gets the 32-bit `pciaddr_t`, as `PciTypes.LittleEndianPowerIsNarrow` records.

## Model

| member | source | states |
|---|---|---|
| `PyValues.Decimal` | libpci/_native.py:147-149 | Python's built-in `str` of an int, as `Macro.__str__` calls it at line 149 (not libpci logic): the decimal text `str` gives for a natural number is non-empty, all digits, and starts with 0 only for 0 |
| `PyValues.DecimalValue` | libpci/_native.py:147-149 | Python's built-in `str` of an int, as called at line 149: the digits of `n` read back as `n` |
| `PyValues.IntStrRoundTrip` | libpci/_native.py:147-149 | Python's built-in `str` and `int` on integers, as called at line 149: `int(str(i)) == i` for every integer, negative ones included |
| `PciTypes.AccessTypesConsecutive` | libpci/_types.py:30-44 | `pci_access_type` maps its eleven members one-to-one onto exactly the values 0..10 |
| `PciTypes.LookupModeIsSingleBit` | libpci/_types.py:47-62 | every `pci_lookup_mode` value is `1 << k` for a bit position k below 23, so it is a single bit |
| `PciTypes.LookupModesDisjoint` | libpci/_types.py:51-62 | two distinct lookup modes have distinct values with no bit in common |
| `PciTypes.KindsBelowModifiers` | libpci/_types.py:51-62 | the kinds VENDOR..PROGIF are at most 16, the modifiers NUMERIC..REFRESH_CACHE are at least 0x10000, and all are below 2^23 |
| `PciTypes.PciAddrType` | libpci/_types.py:124-128 | `pciaddr_t` is 64 bits wide exactly when the machine is `x86_64`, `aarch64` or `ppcel64`, and 32 bits otherwise |
| `PciTypes.LittleEndianPowerIsNarrow` | libpci/_types.py:124-128 | the listed `ppcel64` gets the 64-bit type, while `ppc64le`, the name little-endian POWER reports, gets the 32-bit one |
| `Native.InZeroIsBitwiseOr` | libpci/_native.py:40-48 | `IN | ZERO` is 5, the sum of the two distinct bits |
| `Native.EncodeFlagCases` | libpci/_native.py:72-85 | a flags entry keeps the name; it has a default slot exactly when there is a default, unless it is an IN parameter defaulting to 0, which becomes `(IN|ZERO, name)`; otherwise the direction and the default are carried unchanged (OUT with default 0 and IN with a non-zero default included); a 3-element annotation's third element wins over the stub's default |
| `Native.EncodeFlagExamples` | libpci/_native.py:72-85 | IN with default 0 or False gives `(5, name)`; OUT with default 0 gives `(2, name, 0)`; IN with default 7 gives `(1, name, 7)`; a 3-element annotation's default replaces the stub's |
| `Native.Scan` | libpci/_native.py:61-86 | the scan succeeds exactly when every parameter passes its checks, and then yields one type and one flags entry per parameter, entry i for parameter i |
| `Native.ScanFailsAtFirst` | libpci/_native.py:61-71 | the first parameter in declaration order that fails a check decides the error, and its error is the first of missing annotation, incorrect annotation, incorrect kind that applies |
| `Native.MetadataSpec` | libpci/_native.py:54-87 | a missing return annotation is reported before any parameter is examined; otherwise the first failing parameter decides the error; success happens exactly when all checks pass and gives `len(argtypes) == len(paramflags) ==` the number of parameters, in declaration order |
| `Native.FailureMessage` | libpci/_native.py:56-71 | the TypeError text is "missing return type annotation" when the return is unannotated; otherwise it is the message of the first failing parameter's first failing check ("missing annotation on parameter", "incorrect annotation on parameter", "incorrect kind of parameter") followed by that parameter's name |
| `Native.CtypesMetadata` | libpci/_native.py:54-87 | the loop that validates each parameter, appends its flags entry and type, and raises on the first bad one returns exactly `MetadataOf(sig)` |
| `Native.SymbolFor` | libpci/_native.py:129 | the bound symbol is `name_or_ordinal` when it is truthy, and otherwise the function's own name, so `None`, `""` and ordinal 0 fall back |
| `Native.Prototype` | libpci/_native.py:126-127 | the prototype lists the return type first, then the argument types in order |
| `Native.BindSpec` | libpci/_native.py:124-130 | binding fails exactly when the derivation fails, with the same error; a bound function names the library and the chosen symbol, and its prototype and flags table line up with the declared parameters |
| `Native.MacroViews` | libpci/_native.py:134-153 | `_as_parameter_` is the value unchanged, `str(m) == str(value)`, and `repr(m)` is `'<' + name + ': ' + repr(value) + '>'` |
| `Native.IntMacroStrRoundTrip` | libpci/_native.py:147-149 | an integer macro's `str` parses back to its value |
| `Functions.PciAllocMetadata` | libpci/_functions.py:38-45 | `pci_alloc` derives empty argument types and an empty flags table |
| `Functions.PciInitCleanupMetadata` | libpci/_functions.py:48-65 | `pci_init` and `pci_cleanup` each derive exactly one entry `(1, "access")` and return nothing |
| `Functions.LookupName1Metadata` | libpci/_functions.py:87-105 | the one-ID lookup variant returns `c_char_p` and derives 5 entries `(IN, name)` with no default slot: access, buf, size, flags, arg1; its argument types are `[POINTER(pci_access), c_char_p, c_int, c_int, c_int]` |
| `Functions.LookupName2Metadata` | libpci/_functions.py:108-127 | the two-ID lookup variant returns `c_char_p` and derives 6 entries `(IN, name)` with no default slot, starting with access, buf, size and flags; its argument types are `[POINTER(pci_access), c_char_p, c_int × 4]` |
| `Functions.LookupName4Metadata` | libpci/_functions.py:130-151 | the four-ID lookup variant returns `c_char_p` and derives 8 entries `(IN, name)` with no default slot, starting with access, buf, size and flags; its argument types are `[POINTER(pci_access), c_char_p, c_int × 6]` |
| `Functions.BoundSymbols` | libpci/_functions.py:38-151 | no stub raises; `pci_alloc`, `pci_init` and `pci_cleanup` bind their own names, and the three lookup variants bind `"pci_lookup_name"` |
| `Wrapper.ReadAfterWrite` | libpci/wrapper.py:53-65 | reading a flag after writing it gives back the value written |
| `Wrapper.WriteOnlyTouchesMask` | libpci/wrapper.py:59-65 | writing a flag sets or clears exactly the bits of its mask, and every other bit of the flags keeps its value |
| `Wrapper.WriteIdempotent` | libpci/wrapper.py:59-65 | writing the same value twice is the same as writing it once |
| `Wrapper.WriteIsolated` | libpci/wrapper.py:53-65 | writing one flag does not change the readback of a flag with a disjoint mask |
| `Wrapper.FlagPropertiesIndependent` | libpci/wrapper.py:130-156 | the seven flag properties are single modifier bits, pairwise disjoint |
| `Wrapper.LookupFlagsCombine` | libpci/wrapper.py:176 | a lookup's mask has its kind bit set and keeps every other bit of the persistent flags |
| `Wrapper.SubsystemBitDiscarded` | libpci/wrapper.py:242-243 | the subsystem-device lookup's mask has the subsystem bit only if the persistent flags do, and then differs from `SUBSYSTEM | DEVICE` |
| `Wrapper.UpToNul` | libpci/wrapper.py:179 | the text read from a buffer is its longest prefix without a zero byte |
| `Wrapper.NameOfZeroedBuffer` | libpci/wrapper.py:174-179 | after the native library writes its answer into a zeroed buffer, the text read back is the answer, cut at the buffer size, up to its first zero byte |
| `Wrapper.LibPCI.constructor` | libpci/wrapper.py:84-91 | a new object is open, has flags 0, and its trace is exactly Alloc then Init of the allocated handle |
| `Wrapper.LibPCI.Closed` | libpci/wrapper.py:93-96 | closed exactly when the handle is `None`; for a valid object, exactly when the one cleanup call has been made |
| `Wrapper.LibPCI.Close` | libpci/wrapper.py:98-103 | close issues Cleanup only while the handle is held, always leaves the object closed, keeps the flags, and the trace then holds exactly one Cleanup |
| `Wrapper.LibPCI.Enter` | libpci/wrapper.py:105-116 | entering returns the object itself, or a ValueError with the source's message when it is closed, and changes nothing |
| `Wrapper.LibPCI.Exit` | libpci/wrapper.py:118-124 | leaving a `with` block is a close |
| `Wrapper.LibPCI.Finalize` | libpci/wrapper.py:126-128 | finalisation is a close |
| `Wrapper.LibPCI.GetFlag` | libpci/wrapper.py:53-57 | `bool(flags & mask)`; it reads the object and changes nothing |
| `Wrapper.LibPCI.SetFlag` | libpci/wrapper.py:59-65 | the flags become `WriteFlag(old flags, mask, enable)`; the handle and the trace are unchanged; reading the flag back afterwards gives the value written, for a nonzero mask |
| `Wrapper.LibPCI.NativeLookupName` | libpci/wrapper.py:177-178 | the native lookup call is recorded with the handle as it is (None once closed), and writes the answer into the buffer |
| `Wrapper.LibPCI.LookupName` | libpci/wrapper.py:174-179 | a lookup uses a buffer of size 1024, passes the mask and the IDs, leaves the flags and the handle alone, and returns the decoded text up to the first zero byte, or the decoding error |
| `Wrapper.LibPCI.LookupVendorName` | libpci/wrapper.py:158-179 | one Lookup event with `flags | VENDOR`, the vendor ID and size 1024; flags unchanged; result as decoded |
| `Wrapper.LibPCI.LookupDeviceName` | libpci/wrapper.py:181-207 | one Lookup event with `flags | DEVICE`, the vendor and device IDs and size 1024; flags unchanged; result as decoded |
| `Wrapper.LibPCI.LookupSubsystemDeviceName` | libpci/wrapper.py:209-246 | one Lookup event with `flags | DEVICE` (the SUBSYSTEM value is computed and discarded), the four IDs and size 1024; flags unchanged; result as decoded |
| `Wrapper.ScopedVendorLookup` | libpci/wrapper.py:105-128 | a `with` block around one lookup, followed by further closes and finalisation, yields exactly Alloc, Init, Lookup, Cleanup in the trace and leaves the object closed |
| `Wrapper.FlagScenario` | libpci/wrapper.py:130-156 | enabling numeric, then network, then disabling numeric leaves network enabled and numeric disabled |

## Left out

- Loading the shared library, building the prototype and marshalling each call are foreign calls into the host's foreign-function library. Binding is modelled only as the chosen symbol, the prototype's type list and the flags table. How OUT parameters are returned and defaults are substituted at call time is therefore not modelled.
- Symbol lookup failure at bind time happens inside the foreign-function library and is not modelled.
- The `use_errno` and `use_last_error` switches are passed through untouched, so they are not modelled.
- The `ctypes.Structure` field layouts of `libpci/_types.py` are data only. `os.uname()` is a parameter of `PciTypes.PciAddrType`.
- The annotation's direction element is modelled as an integer. A non-integer direction object, and a 3-element annotation whose third element is the `Parameter.empty` sentinel itself, are not modelled.
- Defaults and macro values are `None`, booleans, integers, strings, or other objects that compare unequal to 0 and carry their own `str`/`repr` texts. Floats, and objects with a custom `__eq__`, are not modelled.
- `Native.MacroViews`: `repr` of a string is modelled as the text between single quotes, without Python's escaping or its choice of quote character.
- UTF-8 decoding is a parameter (`decode`); its validity rules are not modelled.
- The native lookup's answer is the parameter `fill`. The `char *` that `pci_lookup_name` returns is ignored by the wrapper and is not modelled. The conversion of IDs to `c_int` is not modelled either.
- `Wrapper.LibPCI.SetFlag`: `_flags` is a `bv32` rather than an unbounded Python integer. Every mask the wrapper uses is below 2^23, so nothing is lost for those masks.
- `flag_property.__get__` on the class, which returns the descriptor itself, and `flag_property.__call__`, which copies a docstring, carry no behaviour here.
- Logging calls are advisory and never affect control flow, so they are left out.
- `Wrapper.LibPCI.Finalize` models only that `__del__` delegates to `close`; when the garbage collector runs it is not modelled.
- Exceptions raised inside a `with` block are modelled only through the lookup's decoding error, which `Wrapper.ScopedVendorLookup` follows with the exit.
- Concurrency: the model is single-threaded.
