/** SHA-256 as defined in FIPS 180-4, byte oriented. */
module Sha256Spec {
  import opened Common

  type Byte = bv8
  type Word = bv32

  /** Section 4.2.2, sixteen at a time. */
  const K: seq<Word> := (K0 + K16) + (K32 + K48)

  const K0: seq<Word> := [
    0x428a2f98, 0x71374491, 0xb5c0fbcf, 0xe9b5dba5, 0x3956c25b, 0x59f111f1, 0x923f82a4, 0xab1c5ed5,
    0xd807aa98, 0x12835b01, 0x243185be, 0x550c7dc3, 0x72be5d74, 0x80deb1fe, 0x9bdc06a7, 0xc19bf174]

  const K16: seq<Word> := [
    0xe49b69c1, 0xefbe4786, 0x0fc19dc6, 0x240ca1cc, 0x2de92c6f, 0x4a7484aa, 0x5cb0a9dc, 0x76f988da,
    0x983e5152, 0xa831c66d, 0xb00327c8, 0xbf597fc7, 0xc6e00bf3, 0xd5a79147, 0x06ca6351, 0x14292967]

  const K32: seq<Word> := [
    0x27b70a85, 0x2e1b2138, 0x4d2c6dfc, 0x53380d13, 0x650a7354, 0x766a0abb, 0x81c2c92e, 0x92722c85,
    0xa2bfe8a1, 0xa81a664b, 0xc24b8b70, 0xc76c51a3, 0xd192e819, 0xd6990624, 0xf40e3585, 0x106aa070]

  const K48: seq<Word> := [
    0x19a4c116, 0x1e376c08, 0x2748774c, 0x34b0bcb5, 0x391c0cb3, 0x4ed8aa4a, 0x5b9cca4f, 0x682e6ff3,
    0x748f82ee, 0x78a5636f, 0x84c87814, 0x8cc70208, 0x90befffa, 0xa4506ceb, 0xbef9a3f7, 0xc67178f2]

  /** Section 5.3.3. */
  const H0: seq<Word> := [
    0x6a09e667, 0xbb67ae85, 0x3c6ef372, 0xa54ff53a,
    0x510e527f, 0x9b05688c, 0x1f83d9ab, 0x5be0cd19]

  // ----- section 4.1.2 -----

  function Ch(x: Word, y: Word, z: Word): Word { (x & y) ^ (!x & z) }
  function Maj(x: Word, y: Word, z: Word): Word { ((x & y) ^ (x & z)) ^ (y & z) }
  function Rotr(x: Word, n: Word): Word
    requires 0 < n < 32
  {
    (x >> n) | (x << (32 - n))
  }
  function BigSigma0(x: Word): Word { (Rotr(x, 2) ^ Rotr(x, 13)) ^ Rotr(x, 22) }
  function BigSigma1(x: Word): Word { (Rotr(x, 6) ^ Rotr(x, 11)) ^ Rotr(x, 25) }
  function SmallSigma0(x: Word): Word { (Rotr(x, 7) ^ Rotr(x, 18)) ^ (x >> 3) }
  function SmallSigma1(x: Word): Word { (Rotr(x, 17) ^ Rotr(x, 19)) ^ (x >> 10) }

  // ----- section 6.2.2 -----

  function BigEndian(a: Byte, b: Byte, c: Byte, d: Byte): Word {
    (((a as Word) << 24) | ((b as Word) << 16)) | (((c as Word) << 8) | (d as Word))
  }

  function Expand(w2: Word, w7: Word, w15: Word, w16: Word): Word {
    SmallSigma1(w2) + w7 + SmallSigma0(w15) + w16
  }

  /** The message schedule of a block. */
  function Schedule(block: seq<Byte>, t: nat): Word
    requires |block| == 64 && t < 64
  {
    if t < 16 then BigEndian(block[4 * t], block[4 * t + 1], block[4 * t + 2], block[4 * t + 3])
    else Expand(Schedule(block, t - 2), Schedule(block, t - 7), Schedule(block, t - 15), Schedule(block, t - 16))
  }

  lemma ScheduleStep(block: seq<Byte>, t: nat, w2: Word, w7: Word, w15: Word, w16: Word)
    requires |block| == 64 && 16 <= t < 64
    requires w2 == Schedule(block, t - 2) && w7 == Schedule(block, t - 7)
    requires w15 == Schedule(block, t - 15) && w16 == Schedule(block, t - 16)
    ensures Schedule(block, t) == Expand(w2, w7, w15, w16)
  {
  }

  datatype Vars = Vars(a: Word, b: Word, c: Word, d: Word, e: Word, f: Word, g: Word, h: Word)

  function Round(v: Vars, kt: Word, wt: Word): Vars {
    var t1 := v.h + BigSigma1(v.e) + Ch(v.e, v.f, v.g) + kt + wt;
    var t2 := BigSigma0(v.a) + Maj(v.a, v.b, v.c);
    Vars(t1 + t2, v.a, v.b, v.c, v.d + t1, v.e, v.f, v.g)
  }

  /** The working variables after `t` rounds. */
  function Rounds(block: seq<Byte>, v: Vars, t: nat): Vars
    requires |block| == 64 && t <= 64
  {
    if t == 0 then v else Round(Rounds(block, v, t - 1), K[t - 1], Schedule(block, t - 1))
  }

  function Load(h: seq<Word>): Vars
    requires |h| == 8
  {
    Vars(h[0], h[1], h[2], h[3], h[4], h[5], h[6], h[7])
  }

  function AddTo(h: seq<Word>, v: Vars): seq<Word>
    requires |h| == 8
  {
    [h[0] + v.a, h[1] + v.b, h[2] + v.c, h[3] + v.d, h[4] + v.e, h[5] + v.f, h[6] + v.g, h[7] + v.h]
  }

  function Compress(h: seq<Word>, block: seq<Byte>): (r: seq<Word>)
    requires |h| == 8 && |block| == 64
    ensures |r| == 8
  {
    AddTo(h, Rounds(block, Load(h), 64))
  }

  type Block = b: seq<Byte> | |b| == 64 witness seq(64, _ => 0)

  /** The hash value after the given blocks. */
  function Chain(blocks: seq<Block>): (h: seq<Word>)
    ensures |h| == 8
  {
    if blocks == [] then H0 else Compress(Chain(blocks[..|blocks| - 1]), blocks[|blocks| - 1])
  }

  lemma ChainStep(blocks: seq<Block>, block: Block)
    ensures Chain(blocks + [block]) == Compress(Chain(blocks), block)
  {
    assert (blocks + [block])[..|blocks|] == blocks;
  }

  // ----- section 5.2.1 -----

  /** A padded message cut into blocks. */
  function Parse(p: seq<Byte>): (blocks: seq<Block>)
    requires |p| % 64 == 0
  {
    if p == [] then [] else Parse(p[..|p| - 64]) + [p[|p| - 64..]]
  }

  function Flatten(pieces: seq<seq<Byte>>): seq<Byte> {
    if pieces == [] then [] else Flatten(pieces[..|pieces| - 1]) + pieces[|pieces| - 1]
  }

  // ----- section 5.1.1 -----

  /** Reduction to an unsigned 64-bit number. */
  function Wrap64(n: nat): (r: nat)
    ensures r < TWO64
  {
    if n < TWO64 then n else Wrap64(n - TWO64)
  }

  lemma {:induction false} Wrap64IsMod(n: nat)
    ensures Wrap64(n) == n % TWO64
  {
    if n >= TWO64 { Wrap64IsMod(n - TWO64); }
  }

  function Zeros(n: nat): (z: seq<Byte>)
    ensures |z| == n
  {
    seq(n, _ => 0)
  }

  /** How many zero bytes make the length come out at 56 modulo 64. */
  function PadZeros(len: nat): (z: nat)
    ensures (len + 1 + z) % 64 == 56
  {
    (55 - len) % 64
  }

  /** No smaller number of zero bytes would do. */
  lemma PadZerosIsLeast(len: nat, y: nat)
    requires (len + 1 + y) % 64 == 56
    ensures PadZeros(len) <= y
  {
  }

  /** A length as eight bytes, most significant first, modulo 2^64. */
  function LengthBytes(bits: nat): (r: seq<Byte>)
    ensures |r| == 8
  {
    var n := Wrap64(bits);
    [Octet(n / 0x100_0000_0000_0000), Octet(n / 0x1_0000_0000_0000), Octet(n / 0x100_0000_0000),
     Octet(n / 0x1_0000_0000), Octet(n / 0x100_0000), Octet(n / 0x1_0000), Octet(n / 0x100), Octet(n)]
  }

  function Octet(n: nat): Byte { (n % 256) as Byte }

  lemma PadFits(len: nat)
    ensures (len + 1 + PadZeros(len) + 8) % 64 == 0
  {
  }

  function Padded(m: seq<Byte>): (p: seq<Byte>)
    ensures |p| % 64 == 0
  {
    PadFits(|m|);
    m + [0x80] + Zeros(PadZeros(|m|)) + LengthBytes(8 * |m|)
  }

  function WordBytes(w: Word): (r: seq<Byte>)
    ensures |r| == 4
  {
    [((w >> 24) & 0xff) as Byte, ((w >> 16) & 0xff) as Byte, ((w >> 8) & 0xff) as Byte, (w & 0xff) as Byte]
  }

  function WordsBytes(h: seq<Word>): (r: seq<Byte>)
    ensures |r| == 4 * |h|
  {
    if h == [] then [] else WordBytes(h[0]) + WordsBytes(h[1..])
  }

  function Digest(m: seq<Byte>): (d: seq<Byte>)
    ensures |d| == 32
  {
    WordsBytes(Chain(Parse(Padded(m))))
  }
}
