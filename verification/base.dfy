/**
 Machine-level vocabulary shared by the agent and server models: fixed-width
 integers as subset types of `int`, byte strings, the C-string check performed
 by `CString::new`, an `Option` type and native pointers.
 */
module Base {

  type uint8 = x: int | 0 <= x < 0x100
  type uint16 = x: int | 0 <= x < 0x1_0000
  type uint32 = x: int | 0 <= x < 0x1_0000_0000
  type int32 = x: int | -0x8000_0000 <= x < 0x8000_0000

  const I32Max: int32 := 0x7fff_ffff

  /** The bytes handed to `CString::new` (anything `Into<Vec<u8>>`). */
  type Bytes = seq<uint8>

  /** True if the byte string contains a terminator byte. */
  predicate HasNul(b: Bytes) {
    0 in b
  }

  /** A byte string that can be passed to C: no terminator byte inside. */
  type CText = b: Bytes | !HasNul(b) witness []

  /** ASCII text written as a Dafny string literal, as bytes. */
  function Ascii(s: string): (b: Bytes)
    requires forall i :: 0 <= i < |s| ==> s[i] as int < 0x80
    ensures |b| == |s|
    ensures forall i :: 0 <= i < |b| ==> b[i] == s[i] as int
  {
    seq(|s|, i requires 0 <= i < |s| => s[i] as int)
  }

  datatype Option<+T> = None | Some(value: T) {
    /** `unwrap_or(default)` */
    function UnwrapOr(default: T): T {
      match this
      case Some(v) => v
      case None => default
    }
  }

  /**
   `CString::new`: succeeds exactly when no byte is zero, and then keeps the
   bytes unchanged (the terminator is appended by C, not part of the text).
   */
  function CStringNew(b: Bytes): (r: Option<CText>)
    ensures r.Some? <==> forall i :: 0 <= i < |b| ==> b[i] != 0
    ensures r.Some? ==> r.value == b
  {
    if HasNul(b) then None else Some(b)
  }

  /** A raw native pointer: null, or some non-null address. */
  datatype Ptr = Null | Address(addr: nat)
}
