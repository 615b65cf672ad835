/** The resource wrapper: one native context handle owned from allocation to cleanup,
    a persistent bitmask of lookup flags with one boolean view per flag, and the name
    lookups. The native library is seen only through a ghost trace of the calls made
    into it. */
module Wrapper {
  import opened Results
  import opened PciTypes

  /** An opaque `struct pci_access *` handed out by the native library. */
  datatype Handle = Handle(address: nat)

  /** One call into the native library. A lookup records the handle passed (None once
      the wrapper is closed), the flag mask, the identifiers and the buffer size. */
  datatype Event =
    | Alloc(handle: Handle)
    | Init(handle: Handle)
    | Cleanup(handle: Handle)
    | Lookup(access: Option<Handle>, flags: bv32, ids: seq<int>, bufsize: int)

  /** The number of cleanup calls in a trace. */
  function CleanupCount(t: seq<Event>): nat {
    if t == [] then 0 else CleanupCount(t[..|t| - 1]) + (if t[|t| - 1].Cleanup? then 1 else 0)
  }

  lemma CleanupCountSnoc(t: seq<Event>, e: Event)
    ensures CleanupCount(t + [e]) == CleanupCount(t) + (if e.Cleanup? then 1 else 0)
  {
    assert (t + [e])[..|t|] == t;
  }

  /** The size of the text buffer each lookup allocates. */
  const BUFFER_SIZE: int := 1024

  /** `bool(flags & mask)`. */
  predicate ReadFlag(flags: bv32, mask: bv32) {
    flags & mask != 0
  }

  /** `flags | mask` when enabling, `flags & ~mask` when disabling. */
  function WriteFlag(flags: bv32, mask: bv32, enable: bool): bv32 {
    if enable then flags | mask else flags & !mask
  }

  /** Reading a flag back gives what was last written to it. */
  lemma ReadAfterWrite(flags: bv32, mask: bv32, enable: bool)
    requires mask != 0
    ensures ReadFlag(WriteFlag(flags, mask, enable), mask) == enable
  {
  }

  /** Writing a flag sets or clears the bits of its mask and leaves every other bit alone. */
  lemma WriteOnlyTouchesMask(flags: bv32, mask: bv32, enable: bool)
    ensures WriteFlag(flags, mask, enable) & !mask == flags & !mask
    ensures WriteFlag(flags, mask, enable) & mask == if enable then mask else 0
  {
  }

  /** Writing the same value twice is the same as writing it once. */
  lemma WriteIdempotent(flags: bv32, mask: bv32, enable: bool)
    ensures WriteFlag(WriteFlag(flags, mask, enable), mask, enable) == WriteFlag(flags, mask, enable)
  {
    var once := WriteFlag(flags, mask, enable);
    if enable {
      assert once == flags | mask;
      SetTwice(flags, mask);
    } else {
      assert once == flags & !mask;
      ClearTwice(flags, mask);
    }
    assert WriteFlag(once, mask, enable) == once;
  }

  lemma SetTwice(flags: bv32, mask: bv32)
    ensures (flags | mask) | mask == flags | mask
  {
  }

  lemma ClearTwice(flags: bv32, mask: bv32)
    ensures (flags & !mask) & !mask == flags & !mask
  {
  }

  /** Writing one flag does not change the readback of a flag with a disjoint mask. */
  lemma WriteIsolated(flags: bv32, mask: bv32, other: bv32, enable: bool)
    requires mask & other == 0
    ensures ReadFlag(WriteFlag(flags, mask, enable), other) == ReadFlag(flags, other)
  {
  }

  /** A boolean view over the bits of one mask of the flag field. */
  datatype FlagProperty = FlagProperty(mask: bv32)

  /** The seven modifier modes that the wrapper exposes as flag properties, in declaration order:
      numeric, no-numbers, mixed, network, skip-local, cache, refresh-cache. */
  const FLAG_MODES: seq<LookupMode> := [Numeric, NoNumbers, Mixed, Network, SkipLocal, Cache, RefreshCache]

  function FlagOf(m: LookupMode): FlagProperty {
    FlagProperty(m.Value())
  }

  const FLAG_NUMERIC: FlagProperty := FlagOf(Numeric)
  const FLAG_NO_NUMBERS: FlagProperty := FlagOf(NoNumbers)
  const FLAG_MIXED: FlagProperty := FlagOf(Mixed)
  const FLAG_NETWORK: FlagProperty := FlagOf(Network)
  const FLAG_SKIP_LOCAL: FlagProperty := FlagOf(SkipLocal)
  const FLAG_CACHE: FlagProperty := FlagOf(Cache)
  const FLAG_REFRESH_CACHE: FlagProperty := FlagOf(RefreshCache)

  /** The seven flag properties are single modifier bits, pairwise disjoint, so each can
      be read and written independently of the others. */
  lemma FlagPropertiesIndependent(m: LookupMode, n: LookupMode)
    requires m in FLAG_MODES && n in FLAG_MODES && m != n
    ensures !m.IsKind() && IsSingleBit(FlagOf(m).mask)
    ensures FlagOf(m).mask & FlagOf(n).mask == 0
  {
    LookupModeIsSingleBit(m);
    LookupModesDisjoint(m, n);
  }

  /** The flag mask a lookup passes: the persistent flags with the kind bit OR-ed in. */
  function LookupFlags(persistent: bv32, kind: LookupMode): bv32 {
    persistent | kind.Value()
  }

  /** A lookup's mask has the kind bit set and keeps every other bit of the persistent flags. */
  lemma LookupFlagsCombine(persistent: bv32, kind: LookupMode)
    ensures ReadFlag(LookupFlags(persistent, kind), kind.Value())
    ensures LookupFlags(persistent, kind) & !kind.Value() == persistent & !kind.Value()
  {
    LookupModeIsSingleBit(kind);
  }

  /** The subsystem-device lookup passes the persistent flags with DEVICE added: its
      subsystem bit is whatever the persistent flags hold, so unless the caller set that
      bit the mask differs from the SUBSYSTEM | DEVICE of the native calling convention. */
  lemma SubsystemBitDiscarded(persistent: bv32)
    ensures ReadFlag(LookupFlags(persistent, Device), Subsystem.Value()) == ReadFlag(persistent, Subsystem.Value())
    ensures !ReadFlag(persistent, Subsystem.Value()) ==>
      LookupFlags(persistent, Device) != persistent | Subsystem.Value() | Device.Value()
  {
  }

  /** The bytes of a string buffer up to its first zero byte (all of it if there is none). */
  function UpToNul(s: seq<bv8>): (r: seq<bv8>)
    ensures |r| <= |s| && r == s[..|r|]
    ensures forall k :: 0 <= k < |r| ==> r[k] != 0
    ensures |r| < |s| ==> s[|r|] == 0
  {
    if s == [] || s[0] == 0 then [] else [s[0]] + UpToNul(s[1..])
  }

  /** Those three properties determine the prefix up to the first zero byte. */
  lemma {:induction false} UpToNulUnique(s: seq<bv8>, r: seq<bv8>)
    requires |r| <= |s| && r == s[..|r|]
    requires forall k :: 0 <= k < |r| ==> r[k] != 0
    requires |r| < |s| ==> s[|r|] == 0
    ensures r == UpToNul(s)
  {
    if s != [] && s[0] != 0 {
      assert r != [];
      UpToNulUnique(s[1..], r[1..]);
    }
  }

  /** The first `n` bytes of `fill`, or all of it when it is shorter. */
  function Head(fill: seq<bv8>, n: nat): seq<bv8> {
    if |fill| <= n then fill else fill[..n]
  }

  /** The buffer `buf` after the native library wrote `fill` into it from the start. */
  function Overwrite(buf: seq<bv8>, fill: seq<bv8>): (r: seq<bv8>)
    ensures |r| == |buf|
  {
    Head(fill, |buf|) + buf[|Head(fill, |buf|)|..]
  }

  /** After the native library writes `fill` into a zeroed buffer, the text read back is
      `fill` up to its first zero byte, cut at the buffer's size. */
  lemma NameOfZeroedBuffer(fill: seq<bv8>, size: nat)
    ensures UpToNul(Overwrite(seq(size, _ => 0 as bv8), fill)) == UpToNul(Head(fill, size))
  {
    var zeros := seq(size, _ => 0 as bv8);
    var s := Overwrite(zeros, fill);
    var h := Head(fill, size);
    var r := UpToNul(h);
    assert s[..|h|] == h;
    UpToNulUnique(s, r);
  }

  /** UTF-8 decoding failed. */
  datatype LookupError = UnicodeDecodeError

  /** `raw.decode("utf-8")`, with the decoder given as a partial function. */
  function Decoded(decode: seq<bv8> -> Option<string>, raw: seq<bv8>): Result<string, LookupError> {
    match decode(raw)
    case Some(text) => Success(text)
    case None => Failure(UnicodeDecodeError)
  }

  /** The ValueError raised for a closed wrapper. */
  datatype StateError = ValueError(message: string)

  const CLOSED_MESSAGE: string := "attempt to use closed LibPCI object"

  class LibPCI {
    /** The context handle, None once closed. */
    var access: Option<Handle>
    /** The persistent lookup flags. */
    var flags: bv32
    /** The calls made into the native library on behalf of this object, oldest first. */
    ghost var trace: seq<Event>
    /** The handle the native library allocated for this object. */
    ghost const handle: Handle

    /** The trace starts with the allocation and the initialisation of this object's own
        handle, and holds one cleanup exactly when the object is closed. */
    ghost predicate Valid()
      reads this
    {
      && |trace| >= 2 && trace[0] == Alloc(handle) && trace[1] == Init(handle)
      && (access.Some? ==> access.value == handle)
      && CleanupCount(trace) == (if access.None? then 1 else 0)
    }

    /** `closed`: the handle has been released, which for a valid object means that
        the one cleanup call has been made. */
    predicate Closed()
      reads this
      ensures Closed() <==> access.None?
      ensures Valid() ==> (Closed() <==> CleanupCount(trace) == 1)
    {
      access.None?
    }

    /** Allocates and initialises a context; `allocation` is what `pci_alloc` returns. */
    constructor (allocation: Handle)
      ensures Valid() && handle == allocation
      ensures access == Some(allocation) && flags == 0 && !Closed()
      ensures trace == [Alloc(allocation), Init(allocation)]
    {
      handle := allocation;
      trace := [Alloc(allocation)];
      access := Some(allocation);
      flags := 0;
      trace := trace + [Init(allocation)];
      CleanupCountSnoc([Alloc(allocation)], Init(allocation));
      CleanupCountSnoc([], Alloc(allocation));
    }

    /** Releases the handle if it is still held; any later call does nothing. */
    method Close()
      requires Valid()
      modifies this
      ensures Valid() && Closed() && flags == old(flags)
      ensures trace == old(trace) + if old(access).Some? then [Cleanup(old(access).value)] else []
      ensures CleanupCount(trace) == 1
    {
      if access.Some? {
        CleanupCountSnoc(trace, Cleanup(access.value));
        trace := trace + [Cleanup(access.value)];
      }
      access := None;
    }

    /** Entering a `with` block: the object itself, or a ValueError when it is closed. */
    method Enter() returns (r: Result<LibPCI, StateError>)
      requires Valid()
      ensures r == if Closed() then Failure(ValueError(CLOSED_MESSAGE)) else Success(this)
    {
      if Closed() {
        return Failure(ValueError(CLOSED_MESSAGE));
      }
      return Success(this);
    }

    /** Leaving a `with` block closes the object. */
    method Exit()
      requires Valid()
      modifies this
      ensures Valid() && Closed() && flags == old(flags)
      ensures trace == old(trace) + if old(access).Some? then [Cleanup(old(access).value)] else []
      ensures CleanupCount(trace) == 1
    {
      Close();
    }

    /** Finalisation closes the object. */
    method Finalize()
      requires Valid()
      modifies this
      ensures Valid() && Closed() && flags == old(flags)
      ensures trace == old(trace) + if old(access).Some? then [Cleanup(old(access).value)] else []
      ensures CleanupCount(trace) == 1
    {
      Close();
    }

    /** Reading a flag property: `bool(flags & mask)`; it changes nothing. */
    predicate GetFlag(p: FlagProperty)
      reads this
      ensures GetFlag(p) <==> flags & p.mask != 0
    {
      ReadFlag(flags, p.mask)
    }

    /** Writing a flag property: read the field, set or clear the mask, store it back. */
    method SetFlag(p: FlagProperty, enable: bool)
      requires Valid()
      modifies this
      ensures Valid() && access == old(access) && trace == old(trace)
      ensures flags == WriteFlag(old(flags), p.mask, enable)
      ensures p.mask != 0 ==> GetFlag(p) == enable
    {
      var value := flags;
      if enable {
        value := value | p.mask;
      } else {
        value := value & !p.mask;
      }
      assert value == WriteFlag(old(flags), p.mask, enable);
      if p.mask != 0 {
        ReadAfterWrite(old(flags), p.mask, enable);
      }
      flags := value;
    }

    /** The call `pci_lookup_name(access, buf, size, flags, ids...)`: recorded in the trace;
        the native library writes `fill`, its answer, into the buffer. */
    method NativeLookupName(buf: array<bv8>, size: int, lookupFlags: bv32, ids: seq<int>, fill: seq<bv8>)
      requires Valid()
      modifies this, buf
      ensures Valid() && access == old(access) && flags == old(flags)
      ensures trace == old(trace) + [Lookup(access, lookupFlags, ids, size)]
      ensures buf[..] == Overwrite(old(buf[..]), fill)
    {
      CleanupCountSnoc(trace, Lookup(access, lookupFlags, ids, size));
      trace := trace + [Lookup(access, lookupFlags, ids, size)];
      var n := |Head(fill, buf.Length)|;
      forall k | 0 <= k < n {
        buf[k] := fill[k];
      }
      assert buf[..] == Overwrite(old(buf[..]), fill) by {
        assert forall k :: 0 <= k < buf.Length ==> buf[..][k] == Overwrite(old(buf[..]), fill)[k];
      }
    }

    /** What the three lookups share: a zeroed buffer of BUFFER_SIZE bytes, the native
        call with `lookupFlags` and `ids`, and the buffer's text up to its first zero byte,
        decoded. The object's state is not checked. */
    method LookupName(lookupFlags: bv32, ids: seq<int>, fill: seq<bv8>, decode: seq<bv8> -> Option<string>)
      returns (r: Result<string, LookupError>)
      requires Valid()
      modifies this
      ensures Valid() && access == old(access) && flags == old(flags)
      ensures trace == old(trace) + [Lookup(access, lookupFlags, ids, BUFFER_SIZE)]
      ensures r == Decoded(decode, UpToNul(Head(fill, BUFFER_SIZE)))
    {
      var buf := new bv8[BUFFER_SIZE](_ => 0);
      assert buf[..] == seq(BUFFER_SIZE, _ => 0 as bv8);
      NativeLookupName(buf, buf.Length, lookupFlags, ids, fill);
      NameOfZeroedBuffer(fill, BUFFER_SIZE);
      r := Decoded(decode, UpToNul(buf[..]));
    }

    /** `lookup_vendor_name`: a lookup with the persistent flags plus VENDOR and one ID. */
    method LookupVendorName(vendorId: int, fill: seq<bv8>, decode: seq<bv8> -> Option<string>)
      returns (r: Result<string, LookupError>)
      requires Valid()
      modifies this
      ensures Valid() && access == old(access) && flags == old(flags)
      ensures trace == old(trace) + [Lookup(access, LookupFlags(flags, Vendor), [vendorId], BUFFER_SIZE)]
      ensures r == Decoded(decode, UpToNul(Head(fill, BUFFER_SIZE)))
    {
      var lookupFlags := flags | Vendor.Value();
      r := LookupName(lookupFlags, [vendorId], fill, decode);
    }

    /** `lookup_device_name`: a lookup with the persistent flags plus DEVICE and two IDs. */
    method LookupDeviceName(vendorId: int, deviceId: int, fill: seq<bv8>, decode: seq<bv8> -> Option<string>)
      returns (r: Result<string, LookupError>)
      requires Valid()
      modifies this
      ensures Valid() && access == old(access) && flags == old(flags)
      ensures trace == old(trace) + [Lookup(access, LookupFlags(flags, Device), [vendorId, deviceId], BUFFER_SIZE)]
      ensures r == Decoded(decode, UpToNul(Head(fill, BUFFER_SIZE)))
    {
      var lookupFlags := flags | Device.Value();
      r := LookupName(lookupFlags, [vendorId, deviceId], fill, decode);
    }

    /** `lookup_subsystem_device_name`: the mask is computed twice and the second
        assignment, the persistent flags plus DEVICE, is the one passed with four IDs. */
    method LookupSubsystemDeviceName(
      vendorId: int, deviceId: int, subvendorId: int, subdeviceId: int,
      fill: seq<bv8>, decode: seq<bv8> -> Option<string>)
      returns (r: Result<string, LookupError>)
      requires Valid()
      modifies this
      ensures Valid() && access == old(access) && flags == old(flags)
      ensures trace == old(trace) +
        [Lookup(access, LookupFlags(flags, Device), [vendorId, deviceId, subvendorId, subdeviceId], BUFFER_SIZE)]
      ensures r == Decoded(decode, UpToNul(Head(fill, BUFFER_SIZE)))
    {
      var lookupFlags := flags | Subsystem.Value();
      lookupFlags := flags | Device.Value();
      r := LookupName(lookupFlags, [vendorId, deviceId, subvendorId, subdeviceId], fill, decode);
    }
  }

  /** A `with` block around one vendor lookup, closed again afterwards: whatever the
      lookup returns, the native library sees exactly allocation, initialisation, the
      lookup and one cleanup, and the object ends closed. */
  method ScopedVendorLookup(allocation: Handle, vendorId: int, fill: seq<bv8>, decode: seq<bv8> -> Option<string>)
    returns (pci: LibPCI, r: Result<string, LookupError>)
    ensures pci.Valid() && pci.Closed()
    ensures pci.trace == [Alloc(allocation), Init(allocation),
                          Lookup(Some(allocation), Vendor.Value(), [vendorId], BUFFER_SIZE), Cleanup(allocation)]
    ensures r == Decoded(decode, UpToNul(Head(fill, BUFFER_SIZE)))
  {
    pci := new LibPCI(allocation);
    var entered := pci.Enter();
    assert entered == Success(pci);
    r := pci.LookupVendorName(vendorId, fill, decode);
    pci.Exit();
    pci.Close();
    pci.Finalize();
  }

  /** Enabling numeric, then network, then disabling numeric leaves network enabled. */
  method FlagScenario(pci: LibPCI)
    requires pci.Valid()
    modifies pci
    ensures pci.Valid() && pci.GetFlag(FLAG_NETWORK) && !pci.GetFlag(FLAG_NUMERIC)
    ensures pci.access == old(pci.access) && pci.trace == old(pci.trace)
  {
    pci.SetFlag(FLAG_NUMERIC, true);
    pci.SetFlag(FLAG_NETWORK, true);
    pci.SetFlag(FLAG_NUMERIC, false);
  }
}
