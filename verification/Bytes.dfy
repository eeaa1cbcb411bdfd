/** Bytes, little-endian words and the three bitwise operations the sniffer uses. */
module Bytes {

  type byte = b: int | 0 <= b < 256

  /** The `len` low-order bytes of `n`, least significant first. */
  function ToLittleEndian(n: nat, len: nat): (r: seq<byte>)
    ensures |r| == len
  {
    if len == 0 then [] else [n % 256] + ToLittleEndian(n / 256, len - 1)
  }

  /** The number a little-endian byte string stands for. */
  function FromLittleEndian(s: seq<byte>): nat {
    if s == [] then 0 else s[0] + 256 * FromLittleEndian(s[1..])
  }

  function Pow256(len: nat): (p: nat)
    ensures p > 0
  {
    if len == 0 then 1 else 256 * Pow256(len - 1)
  }

  lemma {:induction false} LittleEndianRoundTrip(n: nat, len: nat)
    requires n < Pow256(len)
    ensures FromLittleEndian(ToLittleEndian(n, len)) == n
  {
    if len > 0 {
      LittleEndianRoundTrip(n / 256, len - 1);
      assert ToLittleEndian(n, len)[1..] == ToLittleEndian(n / 256, len - 1);
    }
  }

  lemma {:induction false} LittleEndianBound(s: seq<byte>)
    ensures FromLittleEndian(s) < Pow256(|s|)
  {
    if s != [] {
      LittleEndianBound(s[1..]);
    }
  }

  lemma Pow256Of4()
    ensures Pow256(4) == 0x1_0000_0000
  {
    assert Pow256(1) == 256;
    assert Pow256(2) == 65536;
    assert Pow256(3) == 16777216;
  }

  /** A `uint32_t` as stored by a little-endian machine. */
  function U32Bytes(n: nat): (r: seq<byte>)
    requires n < 0x1_0000_0000
    ensures |r| == 4 && FromLittleEndian(r) == n
  {
    Pow256Of4();
    LittleEndianRoundTrip(n, 4);
    ToLittleEndian(n, 4)
  }

  function U32At(s: seq<byte>, at: nat): (n: nat)
    requires at + 4 <= |s|
    ensures n < 0x1_0000_0000
  {
    Pow256Of4();
    LittleEndianBound(s[at..at + 4]);
    FromLittleEndian(s[at..at + 4])
  }

  lemma U32AtBytes(s: seq<byte>, at: nat, n: nat)
    requires at + 4 <= |s| && n < 0x1_0000_0000
    requires s[at..at + 4] == U32Bytes(n)
    ensures U32At(s, at) == n
  {
  }

  lemma LowByte(b: byte, rest: nat)
    ensures (b + 256 * rest) % 256 == b && (b + 256 * rest) / 256 == rest
  {
  }

  lemma {:induction false} LittleEndianUnique(s: seq<byte>)
    ensures ToLittleEndian(FromLittleEndian(s), |s|) == s
  {
    if s != [] {
      LittleEndianUnique(s[1..]);
      var rest := FromLittleEndian(s[1..]);
      assert FromLittleEndian(s) == s[0] + 256 * rest;
      LowByte(s[0], rest);
      hide FromLittleEndian;
      assert ToLittleEndian(s[0] + 256 * rest, |s|) == [s[0]] + ToLittleEndian(rest, |s| - 1);
      assert [s[0]] + s[1..] == s;
    }
  }

  lemma U32BytesAt(s: seq<byte>, at: nat)
    requires at + 4 <= |s|
    ensures U32Bytes(U32At(s, at)) == s[at..at + 4]
  {
    LittleEndianUnique(s[at..at + 4]);
  }

  function AndBv(a: bv8, b: bv8): bv8 {
    a & b
  }

  /** Bitwise and of two bytes. */
  function And(a: byte, b: byte): byte {
    AndBv(a as bv8, b as bv8) as int
  }

  function BlendBv(original: bv8, data: bv8, mask: bv8): bv8 {
    (original & !mask) | (data & mask)
  }

  /** Bits of `data` where `mask` is set, bits of `original` elsewhere. */
  function Blend(original: byte, data: byte, mask: byte): byte {
    BlendBv(original as bv8, data as bv8, mask as bv8) as int
  }

  function Weight(k: nat): (w: bv8)
    requires k < 8
    ensures w in {1, 2, 4, 8, 16, 32, 64, 128}
  {
    [1, 2, 4, 8, 16, 32, 64, 128][k]
  }

  predicate BitBv(b: bv8, k: nat)
    requires k < 8
  {
    b & Weight(k) != 0
  }

  predicate Bit(b: byte, k: nat)
    requires k < 8
  {
    BitBv(b as bv8, k)
  }

  lemma BlendBitsBv(original: bv8, data: bv8, mask: bv8, k: nat)
    requires k < 8
    ensures BitBv(BlendBv(original, data, mask), k) == if BitBv(mask, k) then BitBv(data, k) else BitBv(original, k)
  {
    hide Weight, BlendBv;
    BlendBitsWeight(original, data, mask, Weight(k));
  }

  lemma BlendBitsWeight(original: bv8, data: bv8, mask: bv8, w: bv8)
    requires w in {1, 2, 4, 8, 16, 32, 64, 128}
    ensures (BlendBv(original, data, mask) & w != 0) == if mask & w != 0 then data & w != 0 else original & w != 0
  {
  }

  lemma BvThroughInt(v: bv8)
    ensures ((v as int) as bv8) == v
  {
  }

  /** A blended byte has, bit by bit, the new value where the mask is set and the old one elsewhere. */
  lemma BlendBits(original: byte, data: byte, mask: byte, k: nat)
    requires k < 8
    ensures Bit(Blend(original, data, mask), k) == if Bit(mask, k) then Bit(data, k) else Bit(original, k)
  {
    BlendBitsBv(original as bv8, data as bv8, mask as bv8, k);
    BvThroughInt(BlendBv(original as bv8, data as bv8, mask as bv8));
  }

  lemma BvSuccessor(v: bv8)
    requires v < 0xFF
    ensures (v + 1) as int == v as int + 1
  {
  }

  lemma {:induction false} BvOf(b: byte) returns (v: bv8)
    ensures v as int == b
  {
    if b == 0 {
      v := 0;
    } else {
      var before := BvOf(b - 1);
      BvSuccessor(before);
      v := before + 1;
    }
  }

  lemma BitSumBv(v: bv8)
    ensures v as int ==
            (if v & 1 != 0 then 1 else 0) + (if v & 2 != 0 then 2 else 0) + (if v & 4 != 0 then 4 else 0) +
            (if v & 8 != 0 then 8 else 0) + (if v & 16 != 0 then 16 else 0) + (if v & 32 != 0 then 32 else 0) +
            (if v & 64 != 0 then 64 else 0) + (if v & 128 != 0 then 128 else 0)
  {
  }

  lemma IntThroughBv(b: byte)
    ensures (b as bv8) as int == b
  {
    var v := BvOf(b);
    BvThroughInt(v);
  }

  lemma AndConstants(v: bv8)
    ensures (v & 0xFF) as int == v as int && (v & 7) as int == v as int % 8 && (v & 0) as int == 0
  {
  }

  lemma AndOnByte(b: byte)
    ensures And(b, 0xFF) == b && And(b, 7) == b % 8 && And(b, 0) == 0
  {
    IntThroughBv(b);
    AndConstants(b as bv8);
  }

  /** Bitwise and of two words, byte by byte. */
  function AndWords(a: seq<byte>, b: seq<byte>): (r: seq<byte>)
    requires |a| == |b|
    ensures |r| == |a| && forall i :: 0 <= i < |a| ==> r[i] == And(a[i], b[i])
  {
    seq(|a|, i requires 0 <= i < |a| => And(a[i], b[i]))
  }

  lemma FourBytes(s: seq<byte>)
    requires |s| == 4
    ensures FromLittleEndian(s) == s[0] as int + 256 * s[1] as int + 65536 * s[2] as int + 16777216 * s[3] as int
  {
    assert s[1..][1..] == s[2..] && s[2..][1..] == s[3..] && s[3..][1..] == [];
    assert FromLittleEndian(s[3..]) == s[3];
    assert FromLittleEndian(s[2..]) == s[2] as int + 256 * s[3] as int;
  }

  function BitWorth(b: byte, k: nat, worth: nat): nat
    requires k < 8
  {
    if Bit(b, k) then worth else 0
  }

  /** Bit `k` counts for two to the power of `k`. */
  lemma BitSum(b: byte)
    ensures b == BitWorth(b, 0, 1) + BitWorth(b, 1, 2) + BitWorth(b, 2, 4) + BitWorth(b, 3, 8) +
                 BitWorth(b, 4, 16) + BitWorth(b, 5, 32) + BitWorth(b, 6, 64) + BitWorth(b, 7, 128)
  {
    IntThroughBv(b);
    BitSumBv(b as bv8);
  }

  lemma BitsDetermine(a: byte, b: byte)
    requires forall k: nat :: k < 8 ==> Bit(a, k) == Bit(b, k)
    ensures a == b
  {
    hide Bit;
    BitSum(a);
    BitSum(b);
  }

  lemma AndBitsWeight(a: bv8, b: bv8, w: bv8)
    requires w in {1, 2, 4, 8, 16, 32, 64, 128}
    ensures (AndBv(a, b) & w != 0) <==> (a & w != 0 && b & w != 0)
  {
  }

  lemma AndBitsBv(a: bv8, b: bv8, k: nat)
    requires k < 8
    ensures BitBv(AndBv(a, b), k) <==> BitBv(a, k) && BitBv(b, k)
  {
    hide Weight, AndBv;
    AndBitsWeight(a, b, Weight(k));
  }

  /** Bitwise and has exactly the bits that both bytes have. */
  lemma AndBits(a: byte, b: byte, k: nat)
    requires k < 8
    ensures Bit(And(a, b), k) <==> Bit(a, k) && Bit(b, k)
  {
    hide BitBv, AndBv;
    AndBitsBv(a as bv8, b as bv8, k);
    BvThroughInt(AndBv(a as bv8, b as bv8));
  }
}
