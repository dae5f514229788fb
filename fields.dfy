/** Python's struct module as the readers use it: little-endian formats
    '<I', '<i', '<f', '?' and the counted array formats '<{n}B', '<{n}h',
    '<{n}f', with struct.unpack (exact size) and struct.unpack_from (an
    offset into a longer buffer). 32-bit floats are kept as their four
    bytes. */
module Fields {

  import opened Common

  /** An IEEE-754 single: its four little-endian bytes, never interpreted. */
  type Float32 = s: seq<byte> | |s| == 4 witness [0, 0, 0, 0]

  /** Python compares a float with 0 as equal for +0.0 and -0.0 only. */
  predicate IsZero(f: Float32)
  {
    f[0] == 0 && f[1] == 0 && f[2] == 0 && (f[3] == 0 || f[3] == 0x80)
  }

  /** The eight exponent bits (bits 23..30) are all ones: a NaN or an infinity. */
  predicate IsNonFinite(f: Float32)
  {
    f[3] % 0x80 == 0x7F && f[2] >= 0x80
  }

  /** A NaN: all-ones exponent and a non-zero 23-bit fraction. */
  predicate IsNaN(f: Float32)
  {
    IsNonFinite(f) && (f[2] % 0x80 != 0 || f[1] != 0 || f[0] != 0)
  }

  datatype Format =
    | UInt32              // '<I'
    | Int32               // '<i'
    | Single              // '<f'
    | Bool8               // '?'
    | UInt8s(n: nat)      // '<{n}B'
    | Int16s(n: nat)      // '<{n}h'
    | Singles(n: nat)     // '<{n}f'

  /** One element of the tuple struct.unpack returns. */
  datatype Cell = U(u: nat) | I(i: int) | F(f: Float32) | B(b: bool)

  /** struct.calcsize. */
  function Size(fmt: Format): nat
  {
    match fmt
    case UInt32 => 4
    case Int32 => 4
    case Single => 4
    case Bool8 => 1
    case UInt8s(n) => n
    case Int16s(n) => 2 * n
    case Singles(n) => 4 * n
  }

  /** Number of elements in the unpacked tuple. */
  function Count(fmt: Format): nat
  {
    match fmt
    case UInt8s(n) => n
    case Int16s(n) => n
    case Singles(n) => n
    case _ => 1
  }

  function Pow256(w: nat): (p: nat)
    ensures p >= 1
  {
    if w == 0 then 1 else 256 * Pow256(w - 1)
  }

  /** Little-endian unsigned value of a byte string. */
  function LeUnsigned(b: seq<byte>): (v: nat)
    ensures v < Pow256(|b|)
  {
    if b == [] then 0 else b[0] + 256 * LeUnsigned(b[1..])
  }

  /** Two's-complement reading of a w-byte unsigned value. */
  function ToSigned(u: nat, w: nat): int
  {
    if 2 * u >= Pow256(w) then u - Pow256(w) else u
  }

  /** The w little-endian bytes of v (the inverse of LeUnsigned). */
  function LeBytes(v: nat, w: nat): (b: seq<byte>)
    ensures |b| == w
  {
    if w == 0 then [] else [v % 256] + LeBytes(v / 256, w - 1)
  }

  lemma {:induction false} LeRoundTrip(v: nat, w: nat)
    requires v < Pow256(w)
    ensures LeUnsigned(LeBytes(v, w)) == v
  {
    if w > 0 {
      LeRoundTrip(v / 256, w - 1);
      assert LeBytes(v, w)[1..] == LeBytes(v / 256, w - 1);
    }
  }

  lemma ToSignedRange(u: nat, w: nat)
    requires u < Pow256(w)
    ensures -(Pow256(w) as int) <= 2 * ToSigned(u, w) < Pow256(w)
    ensures ToSigned(u, w) < 0 ==> ToSigned(u, w) + Pow256(w) == u
  {
  }

  /** Decodes data, which holds exactly Size(fmt) bytes. */
  function Decode(fmt: Format, data: seq<byte>): (cells: seq<Cell>)
    requires |data| == Size(fmt)
    ensures |cells| == Count(fmt)
  {
    match fmt
    case UInt32 => [U(LeUnsigned(data))]
    case Int32 => [I(ToSigned(LeUnsigned(data), 4))]
    case Single => [F(data)]
    case Bool8 => [B(data[0] != 0)]
    case UInt8s(n) => seq(n, k requires 0 <= k < n => U(data[k]))
    case Int16s(n) => seq(n, k requires 0 <= k < n => I(ToSigned(LeUnsigned(data[2 * k..2 * k + 2]), 2)))
    case Singles(n) => seq(n, k requires 0 <= k < n => F(data[4 * k..4 * k + 4]))
  }

  /** struct.unpack(fmt, data): fails unless the length is exactly the
      format size. */
  function Unpack(fmt: Format, data: seq<byte>): (r: Result<seq<Cell>>)
    ensures r.Ok? <==> |data| == Size(fmt)
    ensures r.Err? ==> r.error == StructSize(Size(fmt), |data|)
    ensures r.Ok? ==> |r.value| == Count(fmt)
  {
    if |data| == Size(fmt) then Ok(Decode(fmt, data)) else Err(StructSize(Size(fmt), |data|))
  }

  /** struct.unpack_from(fmt, data, offset): needs only
      offset + Size(fmt) bytes; what lies beyond is ignored. */
  function UnpackFrom(fmt: Format, data: seq<byte>, offset: nat): (r: Result<seq<Cell>>)
    ensures r.Ok? <==> |data| >= offset + Size(fmt)
    ensures r.Err? ==> r.error == StructOffset(offset + Size(fmt), |data|)
    ensures r.Ok? ==> r == Unpack(fmt, data[offset..offset + Size(fmt)])
  {
    if |data| >= offset + Size(fmt) then Ok(Decode(fmt, data[offset..offset + Size(fmt)]))
    else Err(StructOffset(offset + Size(fmt), |data|))
  }

  /** A 32-bit field written little-endian unpacks to the same number under
      '<I', and to its two's-complement value under '<i'. */
  lemma U32RoundTrip(v: nat)
    requires v < Pow256(4)
    ensures Unpack(UInt32, LeBytes(v, 4)) == Ok([U(v)])
    ensures Unpack(Int32, LeBytes(v, 4)) == Ok([I(ToSigned(v, 4))])
  {
    LeRoundTrip(v, 4);
  }

  /** Element k of a '<{n}h' array is the signed pair at bytes 2k, 2k+1. */
  lemma Int16Element(n: nat, data: seq<byte>, k: nat)
    requires |data| == 2 * n && k < n
    ensures Unpack(Int16s(n), data).Ok?
    ensures Unpack(Int16s(n), data).value[k] == I(ToSigned(data[2 * k] as int + 256 * (data[2 * k + 1] as int), 2))
    ensures -32768 <= Unpack(Int16s(n), data).value[k].i < 32768
  {
    var pair := data[2 * k..2 * k + 2];
    assert pair[1..][1..] == [];
    assert LeUnsigned(pair) == data[2 * k] as int + 256 * (data[2 * k + 1] as int);
    ToSignedRange(LeUnsigned(pair), 2);
  }

  /** .astype(np.uint16): the value modulo 2^16. */
  function ToUint16(v: int): (u: int)
    ensures 0 <= u < 65536
  {
    v % 65536
  }

  /** An int16 value keeps a non-negative value and moves a negative one
      up by 2^16; on two's-complement pairs it gives back the unsigned
      reading of the same two bytes. */
  lemma ToUint16Spec(v: int)
    requires -32768 <= v < 32768
    ensures ToUint16(v) == if v < 0 then v + 65536 else v
    ensures forall u: nat :: u < 65536 ==> ToUint16(ToSigned(u, 2)) == u
  {
    assert Pow256(2) == 65536;
  }
}
