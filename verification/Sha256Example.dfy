/** The compression function on the one-block example published for FIPS 180-4: it fixes every function, every
    round constant and the initial value. */
module Sha256Example {
  import opened Common
  import opened Sha256Spec
  import opened Sha256Stream
  import opened Sha256Tables

  // ----- the message schedule -----

  /** The schedule of the padded message "abc". */
  ghost predicate Scheduled(w: seq<Word>) {
    && |w| == 64
    && w[0] == 0x61626380 && (forall t :: 1 <= t < 15 ==> w[t] == 0) && w[15] == 0x18
    && forall t :: 16 <= t < 64 ==> Expands(w, t)
  }

  lemma Words16(w: seq<Word>)
    requires Scheduled(w)
    ensures w[16] == 0x61626380 && w[17] == 0x000f0000 && w[18] == 0x7da86405 && w[19] == 0x600003c6
    ensures w[20] == 0x3e9d7b78 && w[21] == 0x0183fc00 && w[22] == 0x12dcbfdb && w[23] == 0xe2e2c38e
  {
    assert Expands(w, 16) && Expands(w, 17) && Expands(w, 18) && Expands(w, 19);
    assert Expands(w, 20) && Expands(w, 21) && Expands(w, 22) && Expands(w, 23);
  }

  lemma Words24(w: seq<Word>)
    requires Scheduled(w)
    ensures w[24] == 0xc8215c1a && w[25] == 0xb73679a2 && w[26] == 0xe5bc3909 && w[27] == 0x32663c5b
    ensures w[28] == 0x9d209d67 && w[29] == 0xec8726cb && w[30] == 0x702138a4 && w[31] == 0xd3b7973b
  {
    Words16(w);
    assert Expands(w, 24) && Expands(w, 25) && Expands(w, 26) && Expands(w, 27);
    assert Expands(w, 28) && Expands(w, 29) && Expands(w, 30) && Expands(w, 31);
  }

  lemma Words32(w: seq<Word>)
    requires Scheduled(w)
    ensures w[32] == 0x93f5997f && w[33] == 0x3b68ba73 && w[34] == 0xaff4ffc1 && w[35] == 0xf10a5c62
    ensures w[36] == 0x0a8b3996 && w[37] == 0x72af830a && w[38] == 0x9409e33e && w[39] == 0x24641522
  {
    Words24(w);
    Words16(w);
    assert Expands(w, 32) && Expands(w, 33) && Expands(w, 34) && Expands(w, 35);
    assert Expands(w, 36) && Expands(w, 37) && Expands(w, 38) && Expands(w, 39);
  }

  lemma Words40(w: seq<Word>)
    requires Scheduled(w)
    ensures w[40] == 0x9f47bf94 && w[41] == 0xf0a64f5a && w[42] == 0x3e246a79 && w[43] == 0x27333ba3
    ensures w[44] == 0x0c4763f2 && w[45] == 0x840abf27 && w[46] == 0x7a290d5d && w[47] == 0x065c43da
  {
    Words32(w);
    Words24(w);
    assert Expands(w, 40) && Expands(w, 41) && Expands(w, 42) && Expands(w, 43);
    assert Expands(w, 44) && Expands(w, 45) && Expands(w, 46) && Expands(w, 47);
  }

  lemma Words48(w: seq<Word>)
    requires Scheduled(w)
    ensures w[48] == 0xfb3e89cb && w[49] == 0xcc7617db && w[50] == 0xb9e66c34 && w[51] == 0xa9993667
    ensures w[52] == 0x84badedd && w[53] == 0xc21462bc && w[54] == 0x1487472c && w[55] == 0xb20f7a99
  {
    Words40(w);
    Words32(w);
    assert Expands(w, 48) && Expands(w, 49) && Expands(w, 50) && Expands(w, 51);
    assert Expands(w, 52) && Expands(w, 53) && Expands(w, 54) && Expands(w, 55);
  }

  lemma Words56(w: seq<Word>)
    requires Scheduled(w)
    ensures w[56] == 0xef57b9cd && w[57] == 0xebe6b238 && w[58] == 0x9fe3095e && w[59] == 0x78bc8d4b
    ensures w[60] == 0xa43fcf15 && w[61] == 0x668b2ff8 && w[62] == 0xeeaba2cc && w[63] == 0x12b1edeb
  {
    Words48(w);
    Words40(w);
    assert Expands(w, 56) && Expands(w, 57) && Expands(w, 58) && Expands(w, 59);
    assert Expands(w, 60) && Expands(w, 61) && Expands(w, 62) && Expands(w, 63);
  }

  // ----- the rounds -----

  predicate Turns(vs: seq<Vars>, w: seq<Word>, t: nat)
    requires t < 64 == |w| && |vs| == 65
  {
    vs[t + 1] == Round(vs[t], K[t], w[t])
  }

  /** The working variables of the example, round by round. */
  ghost predicate Turned(vs: seq<Vars>, w: seq<Word>) {
    Scheduled(w) && |vs| == 65 && vs[0] == Load(H0) && forall t :: 0 <= t < 64 ==> Turns(vs, w, t)
  }

  lemma Turn(vs: seq<Vars>, w: seq<Word>, t: nat, k: Word, x: Word)
    requires Turned(vs, w) && t < 64 && K[t] == k && w[t] == x
    ensures vs[t + 1] == Round(vs[t], k, x)
  {
    assert Turns(vs, w, t);
  }

  lemma Rounds4(vs: seq<Vars>, w: seq<Word>)
    requires Turned(vs, w)
    ensures vs[4] == Vars(0xd550f666, 0xc8c347a7, 0x5a6ad9ad, 0x5d6aebcd, 0x24e00850, 0xf92939eb, 0x78ce7989, 0xfa2a4622)
  {
    Constants0();
    Turn(vs, w, 0, 0x428a2f98, 0x61626380);
    Turn(vs, w, 1, 0x71374491, 0x00000000);
    Turn(vs, w, 2, 0xb5c0fbcf, 0x00000000);
    Turn(vs, w, 3, 0xe9b5dba5, 0x00000000);
  }

  lemma Rounds8(vs: seq<Vars>, w: seq<Word>)
    requires Turned(vs, w)
    ensures vs[8] == Vars(0x85a07b5f, 0xe5030380, 0x2b4209f5, 0x04409a6a, 0x0c657a79, 0x9b27a401, 0x714260ad, 0x43ada245)
  {
    Rounds4(vs, w);
    Constants0();
    Turn(vs, w, 4, 0x3956c25b, 0x00000000);
    Turn(vs, w, 5, 0x59f111f1, 0x00000000);
    Turn(vs, w, 6, 0x923f82a4, 0x00000000);
    Turn(vs, w, 7, 0xab1c5ed5, 0x00000000);
  }

  lemma Rounds12(vs: seq<Vars>, w: seq<Word>)
    requires Turned(vs, w)
    ensures vs[12] == Vars(0xf71fc5a9, 0x4798a3f4, 0x8c87346b, 0x8e04ecb9, 0x816fd6e9, 0x436b23e8, 0x1cc92596, 0x32ca2d8c)
  {
    Rounds8(vs, w);
    Constants8();
    Turn(vs, w, 8, 0xd807aa98, 0x00000000);
    Turn(vs, w, 9, 0x12835b01, 0x00000000);
    Turn(vs, w, 10, 0x243185be, 0x00000000);
    Turn(vs, w, 11, 0x550c7dc3, 0x00000000);
  }

  lemma Rounds16(vs: seq<Vars>, w: seq<Word>)
    requires Turned(vs, w)
    ensures vs[16] == Vars(0xb0fa238e, 0xc0645fde, 0xd932eb16, 0x87912990, 0x07590dcd, 0x0b92f20c, 0x745a48de, 0x1e578218)
  {
    Rounds12(vs, w);
    Constants8();
    Turn(vs, w, 12, 0x72be5d74, 0x00000000);
    Turn(vs, w, 13, 0x80deb1fe, 0x00000000);
    Turn(vs, w, 14, 0x9bdc06a7, 0x00000000);
    Turn(vs, w, 15, 0xc19bf174, 0x00000018);
  }

  lemma Rounds20(vs: seq<Vars>, w: seq<Word>)
    requires Turned(vs, w)
    ensures vs[20] == Vars(0xe1f20c33, 0xfe777bbf, 0xc2fbd9d1, 0x21da9a9b, 0xb0638179, 0xcc899961, 0x846ee454, 0x8034229c)
  {
    Rounds16(vs, w);
    Constants16();
    Words16(w);
    Turn(vs, w, 16, 0xe49b69c1, 0x61626380);
    Turn(vs, w, 17, 0xefbe4786, 0x000f0000);
    Turn(vs, w, 18, 0x0fc19dc6, 0x7da86405);
    Turn(vs, w, 19, 0x240ca1cc, 0x600003c6);
  }

  lemma Rounds24(vs: seq<Vars>, w: seq<Word>)
    requires Turned(vs, w)
    ensures vs[24] == Vars(0xc5d53d8d, 0xa7a3623f, 0xc2606d6d, 0x9dc68b63, 0xaa47c347, 0x49f5114a, 0xe1257970, 0x8ada8930)
  {
    Rounds20(vs, w);
    Constants16();
    Words16(w);
    Turn(vs, w, 20, 0x2de92c6f, 0x3e9d7b78);
    Turn(vs, w, 21, 0x4a7484aa, 0x0183fc00);
    Turn(vs, w, 22, 0x5cb0a9dc, 0x12dcbfdb);
    Turn(vs, w, 23, 0x76f988da, 0xe2e2c38e);
  }

  lemma Rounds28(vs: seq<Vars>, w: seq<Word>)
    requires Turned(vs, w)
    ensures vs[28] == Vars(0x77d37528, 0xb62ec4bc, 0xcde8037d, 0x1c2c2838, 0xedffbff8, 0xc74c6516, 0x14383d8e, 0x2823ef91)
  {
    Rounds24(vs, w);
    Constants24();
    Words24(w);
    Turn(vs, w, 24, 0x983e5152, 0xc8215c1a);
    Turn(vs, w, 25, 0xa831c66d, 0xb73679a2);
    Turn(vs, w, 26, 0xb00327c8, 0xe5bc3909);
    Turn(vs, w, 27, 0xbf597fc7, 0x32663c5b);
  }

  lemma Rounds32(vs: seq<Vars>, w: seq<Word>)
    requires Turned(vs, w)
    ensures vs[32] == Vars(0x73b33bf5, 0xea992a22, 0xa0060b30, 0x363482c9, 0xba591112, 0x0109ab3a, 0xade79437, 0x6112a3b7)
  {
    Rounds28(vs, w);
    Constants24();
    Words24(w);
    Turn(vs, w, 28, 0xc6e00bf3, 0x9d209d67);
    Turn(vs, w, 29, 0xd5a79147, 0xec8726cb);
    Turn(vs, w, 30, 0x06ca6351, 0x702138a4);
    Turn(vs, w, 31, 0x14292967, 0xd3b7973b);
  }

  lemma Rounds36(vs: seq<Vars>, w: seq<Word>)
    requires Turned(vs, w)
    ensures vs[36] == Vars(0x65a0cfe4, 0xa9a7738c, 0xfe604df5, 0x98e12507, 0xf4b002d6, 0x085f3833, 0x59249dd3, 0x9cd9f5f6)
  {
    Rounds32(vs, w);
    Constants32();
    Words32(w);
    Turn(vs, w, 32, 0x27b70a85, 0x93f5997f);
    Turn(vs, w, 33, 0x2e1b2138, 0x3b68ba73);
    Turn(vs, w, 34, 0x4d2c6dfc, 0xaff4ffc1);
    Turn(vs, w, 35, 0x53380d13, 0xf10a5c62);
  }

  lemma Rounds40(vs: seq<Vars>, w: seq<Word>)
    requires Turned(vs, w)
    ensures vs[40] == Vars(0x79ea687a, 0x6dc57a8a, 0x34df1604, 0x41a65cb1, 0x1efbc0a0, 0xf0781bc8, 0xa507a53d, 0x0772a26b)
  {
    Rounds36(vs, w);
    Constants32();
    Words32(w);
    Turn(vs, w, 36, 0x650a7354, 0x0a8b3996);
    Turn(vs, w, 37, 0x766a0abb, 0x72af830a);
    Turn(vs, w, 38, 0x81c2c92e, 0x9409e33e);
    Turn(vs, w, 39, 0x92722c85, 0x24641522);
  }

  lemma Rounds44(vs: seq<Vars>, w: seq<Word>)
    requires Turned(vs, w)
    ensures vs[44] == Vars(0x9d4baf93, 0x17aa0dfe, 0xdf46652f, 0xd6670766, 0xfda24c2e, 0xdecd4715, 0x838b2711, 0x26352d63)
  {
    Rounds40(vs, w);
    Constants40();
    Words40(w);
    Turn(vs, w, 40, 0xa2bfe8a1, 0x9f47bf94);
    Turn(vs, w, 41, 0xa81a664b, 0xf0a64f5a);
    Turn(vs, w, 42, 0xc24b8b70, 0x3e246a79);
    Turn(vs, w, 43, 0xc76c51a3, 0x27333ba3);
  }

  lemma Rounds48(vs: seq<Vars>, w: seq<Word>)
    requires Turned(vs, w)
    ensures vs[48] == Vars(0x4172328d, 0xa14c14b0, 0x72ab4b91, 0x26628815, 0xfecf0bc6, 0xd57b94a9, 0xb7755da1, 0xa80f11f0)
  {
    Rounds44(vs, w);
    Constants40();
    Words40(w);
    Turn(vs, w, 44, 0xd192e819, 0x0c4763f2);
    Turn(vs, w, 45, 0xd6990624, 0x840abf27);
    Turn(vs, w, 46, 0xf40e3585, 0x7a290d5d);
    Turn(vs, w, 47, 0x106aa070, 0x065c43da);
  }

  lemma Rounds52(vs: seq<Vars>, w: seq<Word>)
    requires Turned(vs, w)
    ensures vs[52] == Vars(0x886e7a22, 0x7a0508a1, 0xf11bfaa8, 0x05757ceb, 0x49231c1e, 0x52f1ccf7, 0x6e5c390c, 0xbd714038)
  {
    Rounds48(vs, w);
    Constants48();
    Words48(w);
    Turn(vs, w, 48, 0x19a4c116, 0xfb3e89cb);
    Turn(vs, w, 49, 0x1e376c08, 0xcc7617db);
    Turn(vs, w, 50, 0x2748774c, 0xb9e66c34);
    Turn(vs, w, 51, 0x34b0bcb5, 0xa9993667);
  }

  lemma Rounds56(vs: seq<Vars>, w: seq<Word>)
    requires Turned(vs, w)
    ensures vs[56] == Vars(0x38cc9913, 0x3ec45cdb, 0xf5702fdb, 0x101fd28f, 0x54cb266b, 0xe50e1b4f, 0x9f4787c3, 0x529e7d00)
  {
    Rounds52(vs, w);
    Constants48();
    Words48(w);
    Turn(vs, w, 52, 0x391c0cb3, 0x84badedd);
    Turn(vs, w, 53, 0x4ed8aa4a, 0xc21462bc);
    Turn(vs, w, 54, 0x5b9cca4f, 0x1487472c);
    Turn(vs, w, 55, 0x682e6ff3, 0xb20f7a99);
  }

  lemma Rounds60(vs: seq<Vars>, w: seq<Word>)
    requires Turned(vs, w)
    ensures vs[60] == Vars(0xb6ae8fff, 0xffb70472, 0xc062d46f, 0xfcd1887b, 0xb21bad3d, 0x6d83bfc6, 0x7e44008e, 0x9b5e906c)
  {
    Rounds56(vs, w);
    Constants56();
    Words56(w);
    Turn(vs, w, 56, 0x748f82ee, 0xef57b9cd);
    Turn(vs, w, 57, 0x78a5636f, 0xebe6b238);
    Turn(vs, w, 58, 0x84c87814, 0x9fe3095e);
    Turn(vs, w, 59, 0x8cc70208, 0x78bc8d4b);
  }

  lemma Rounds64(vs: seq<Vars>, w: seq<Word>)
    requires Turned(vs, w)
    ensures vs[64] == Vars(0x506e3058, 0xd39a2165, 0x04d24d6c, 0xb85e2ce9, 0x5ef50f24, 0xfb121210, 0x948d25b6, 0x961f4894)
  {
    Rounds60(vs, w);
    Constants56();
    Words56(w);
    Turn(vs, w, 60, 0x90befffa, 0xa43fcf15);
    Turn(vs, w, 61, 0xa4506ceb, 0x668b2ff8);
    Turn(vs, w, 62, 0xbef9a3f7, 0xeeaba2cc);
    Turn(vs, w, 63, 0xc67178f2, 0x12b1edeb);
  }

  // ----- the digest -----

  /** The padded message "abc". */
  predicate IsExample(block: Block) {
    block == [0x61, 0x62, 0x63, 0x80] + Zeros(52) + [0, 0, 0, 0, 0, 0, 0, 24]
  }

  lemma ExampleParses(m: seq<Byte>, block: Block)
    requires m == [0x61, 0x62, 0x63] && IsExample(block)
    ensures Parse(Padded(m)) == [block]
  {
    var none: seq<Block> := [];
    PadShort(none, m);
    assert Flatten(none) + m == m;
    LengthIs(24);
    Octets();
    assert m + [0x80] + Zeros(55 - |m|) + LengthBytes(8 * |m|) == block;
  }

  lemma LengthIs(n: nat)
    requires n < 256
    ensures LengthBytes(n) == [Octet(0), Octet(0), Octet(0), Octet(0), Octet(0), Octet(0), Octet(0), Octet(n)]
  {
    Small(n);
  }

  lemma Small(n: nat)
    requires n < 256
    ensures Wrap64(n) == n && n / 0x100 == n / 0x1_0000 == n / 0x100_0000 == n / 0x1_0000_0000 == 0
    ensures n / 0x100_0000_0000 == n / 0x1_0000_0000_0000 == n / 0x100_0000_0000_0000 == 0
  {
  }

  lemma Octets()
    ensures Octet(0) == 0 && Octet(24) == 24
  {
  }

  lemma ExampleBytes(block: Block, t: nat)
    requires IsExample(block) && t < 16
    ensures [block[4 * t], block[4 * t + 1], block[4 * t + 2], block[4 * t + 3]]
         == if t == 0 then [0x61, 0x62, 0x63, 0x80] else if t == 15 then [0, 0, 0, 24] else [0, 0, 0, 0]
  {
  }

  lemma FourBytes()
    ensures BigEndian(0x61, 0x62, 0x63, 0x80) == 0x61626380 && BigEndian(0, 0, 0, 24) == 0x18 && BigEndian(0, 0, 0, 0) == 0
  {
  }

  lemma FirstWord(block: Block, t: nat)
    requires IsExample(block) && t < 16
    ensures Words(block)[t] == if t == 0 then 0x61626380 else if t == 15 then 0x18 else 0
  {
    ExampleBytes(block, t);
    FourBytes();
    var b := [block[4 * t], block[4 * t + 1], block[4 * t + 2], block[4 * t + 3]];
    assert Schedule(block, t) == BigEndian(b[0], b[1], b[2], b[3]);
  }

  lemma ExampleScheduled(block: Block)
    requires IsExample(block)
    ensures Scheduled(Words(block))
  {
    forall t | 0 <= t < 16 ensures Words(block)[t] == if t == 0 then 0x61626380 else if t == 15 then 0x18 else 0 {
      FirstWord(block, t);
    }
    forall t | 16 <= t < 64 ensures Expands(Words(block), t) { WordsExpand(block, t); }
  }

  function Variables(block: Block, v: Vars): seq<Vars> {
    seq(65, t requires 0 <= t < 65 => Rounds(block, v, t))
  }

  lemma ExampleTurned(block: Block)
    requires IsExample(block)
    ensures Turned(Variables(block, Load(H0)), Words(block))
  {
    ExampleScheduled(block);
    var vs, w := Variables(block, Load(H0)), Words(block);
    forall t | 0 <= t < 64 ensures Turns(vs, w, t) { }
  }

  lemma ExampleCompressed(block: Block)
    requires IsExample(block)
    ensures Chain([block]) == AddTo(H0, Vars(0x506e3058, 0xd39a2165, 0x04d24d6c, 0xb85e2ce9, 0x5ef50f24, 0xfb121210, 0x948d25b6, 0x961f4894))
  {
    ExampleTurned(block);
    Rounds64(Variables(block, Load(H0)), Words(block));
    var none: seq<Block> := [];
    ChainStep(none, block);
    assert none + [block] == [block];
  }

  lemma Summed()
    ensures AddTo(H0, Vars(0x506e3058, 0xd39a2165, 0x04d24d6c, 0xb85e2ce9, 0x5ef50f24, 0xfb121210, 0x948d25b6, 0x961f4894))
         == [0xba7816bf, 0x8f01cfea, 0x414140de, 0x5dae2223, 0xb00361a3, 0x96177a9c, 0xb410ff61, 0xf20015ad]
  {
  }

  /** The digest of "abc" is the published one. */
  lemma DigestOfAbc(m: seq<Byte>)
    requires m == [0x61, 0x62, 0x63]
    ensures Digest(m)
         == [0xba, 0x78, 0x16, 0xbf] + [0x8f, 0x01, 0xcf, 0xea] + [0x41, 0x41, 0x40, 0xde] + [0x5d, 0xae, 0x22, 0x23]
         + [0xb0, 0x03, 0x61, 0xa3] + [0x96, 0x17, 0x7a, 0x9c] + [0xb4, 0x10, 0xff, 0x61] + [0xf2, 0x00, 0x15, 0xad]
  {
    var block: Block := [0x61, 0x62, 0x63, 0x80] + Zeros(52) + [0, 0, 0, 0, 0, 0, 0, 24];
    ExampleParses(m, block);
    ExampleCompressed(block);
    Summed();
    DigestBytes(Chain([block]));
  }

  lemma DigestBytes(h: seq<Word>)
    requires h == [0xba7816bf, 0x8f01cfea, 0x414140de, 0x5dae2223, 0xb00361a3, 0x96177a9c, 0xb410ff61, 0xf20015ad]
    ensures WordsBytes(h)
         == [0xba, 0x78, 0x16, 0xbf] + [0x8f, 0x01, 0xcf, 0xea] + [0x41, 0x41, 0x40, 0xde] + [0x5d, 0xae, 0x22, 0x23]
         + [0xb0, 0x03, 0x61, 0xa3] + [0x96, 0x17, 0x7a, 0x9c] + [0xb4, 0x10, 0xff, 0x61] + [0xf2, 0x00, 0x15, 0xad]
  {
    EightWords(h);
    assert WordBytes(0xba7816bf) == [0xba, 0x78, 0x16, 0xbf];
    assert WordBytes(0x8f01cfea) == [0x8f, 0x01, 0xcf, 0xea];
    assert WordBytes(0x414140de) == [0x41, 0x41, 0x40, 0xde];
    assert WordBytes(0x5dae2223) == [0x5d, 0xae, 0x22, 0x23];
    assert WordBytes(0xb00361a3) == [0xb0, 0x03, 0x61, 0xa3];
    assert WordBytes(0x96177a9c) == [0x96, 0x17, 0x7a, 0x9c];
    assert WordBytes(0xb410ff61) == [0xb4, 0x10, 0xff, 0x61];
    assert WordBytes(0xf20015ad) == [0xf2, 0x00, 0x15, 0xad];
  }

  lemma EightWords(h: seq<Word>)
    requires |h| == 8
    ensures WordsBytes(h) == WordBytes(h[0]) + WordBytes(h[1]) + WordBytes(h[2]) + WordBytes(h[3])
                           + WordBytes(h[4]) + WordBytes(h[5]) + WordBytes(h[6]) + WordBytes(h[7])
  {
    forall i, r | 0 <= i < 8 && 0 <= r < 4 ensures WordsBytes(h)[4 * i + r] == WordBytes(h[i])[r] {
      WordsBytesAt(h, i, r);
    }
    EightGroups(WordsBytes(h), WordBytes(h[0]), WordBytes(h[1]), WordBytes(h[2]), WordBytes(h[3]),
                WordBytes(h[4]), WordBytes(h[5]), WordBytes(h[6]), WordBytes(h[7]));
  }

  lemma EightGroups(s: seq<Byte>, a: seq<Byte>, b: seq<Byte>, c: seq<Byte>, d: seq<Byte>,
                    e: seq<Byte>, f: seq<Byte>, g: seq<Byte>, h: seq<Byte>)
    requires |s| == 32 && |a| == |b| == |c| == |d| == |e| == |f| == |g| == |h| == 4
    requires forall r :: 0 <= r < 4 ==>
      && s[r] == a[r] && s[4 + r] == b[r] && s[8 + r] == c[r] && s[12 + r] == d[r]
      && s[16 + r] == e[r] && s[20 + r] == f[r] && s[24 + r] == g[r] && s[28 + r] == h[r]
    ensures s == a + b + c + d + e + f + g + h
  {
  }

}
