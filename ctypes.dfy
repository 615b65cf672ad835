/** The foreign-function library's type descriptors, as far as the bindings name them. */
module CTypes {

  datatype CType =
    | Void                      // a `None` return annotation: the native function returns nothing
    | Pointer(target: string)   // POINTER(<structure>)
    | CCharP                    // c_char_p
    | CInt                      // c_int
    | CUInt32                   // c_uint32
    | CUInt64                   // c_uint64

  /** The width in bits of the unsigned integer descriptors. */
  function Width(t: CType): nat
    requires t.CUInt32? || t.CUInt64?
  {
    if t.CUInt32? then 32 else 64
  }
}
