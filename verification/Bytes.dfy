/** Octets, and the fields that C structures lay over a byte buffer. */
module Bytes {

  type byte = x: int | 0 <= x < 256

  datatype Option<+T> = None | Some(value: T)

  /** Four octets in memory order: a 32-bit field that is copied but not computed with. */
  datatype Quad = Quad(b0: byte, b1: byte, b2: byte, b3: byte)

  /** `ntohs` of the sixteen-bit field at `off`. */
  function U16(p: seq<byte>, off: nat): (v: nat)
    requires off + 2 <= |p|
    ensures v < 0x1_0000
  {
    p[off] as int * 256 + p[off + 1] as int
  }

  function U32(p: seq<byte>, off: nat): (v: Quad)
    requires off + 4 <= |p|
  {
    Quad(p[off], p[off + 1], p[off + 2], p[off + 3])
  }

  /** The two octets in memory of `htons(v)`; the cast to `unsigned short` keeps the low sixteen bits. */
  function Htons(v: nat): (r: (byte, byte))
    ensures r.0 as int * 256 + r.1 as int == v % 0x1_0000
  {
    (v / 256 % 256, v % 256)
  }

  /** Store `htons(v)` at `off`. */
  function Put16(p: seq<byte>, off: nat, v: nat): (r: seq<byte>)
    requires off + 2 <= |p|
    ensures |r| == |p| && U16(r, off) == v % 0x1_0000
    ensures forall i :: 0 <= i < |p| && !(off <= i < off + 2) ==> r[i] == p[i]
  {
    p[off := Htons(v).0][off + 1 := Htons(v).1]
  }

  function Put32(p: seq<byte>, off: nat, v: Quad): (r: seq<byte>)
    requires off + 4 <= |p|
    ensures |r| == |p| && U32(r, off) == v
    ensures forall i :: 0 <= i < |p| && !(off <= i < off + 4) ==> r[i] == p[i]
  {
    p[off := v.b0][off + 1 := v.b1][off + 2 := v.b2][off + 3 := v.b3]
  }

  /** A sixteen-bit field determines its two octets. */
  lemma {:induction false} U16Octets(p: seq<byte>, q: seq<byte>, off: nat)
    requires off + 2 <= |p| && off + 2 <= |q| && U16(p, off) == U16(q, off)
    ensures p[off] == q[off] && p[off + 1] == q[off + 1]
  {
  }
}
