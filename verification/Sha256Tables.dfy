/** The tables of SHA-256 are what FIPS 180-4 defines them to be. */
module Sha256Tables {
  import opened Common
  import opened Sha256Spec

  // ----- the entries -----

  lemma Constants0()
    ensures K[0] == 0x428a2f98 && K[1] == 0x71374491 && K[2] == 0xb5c0fbcf && K[3] == 0xe9b5dba5
    ensures K[4] == 0x3956c25b && K[5] == 0x59f111f1 && K[6] == 0x923f82a4 && K[7] == 0xab1c5ed5
  {
  }

  lemma Constants8()
    ensures K[8] == 0xd807aa98 && K[9] == 0x12835b01 && K[10] == 0x243185be && K[11] == 0x550c7dc3
    ensures K[12] == 0x72be5d74 && K[13] == 0x80deb1fe && K[14] == 0x9bdc06a7 && K[15] == 0xc19bf174
  {
  }

  lemma Constants16()
    ensures K[16] == 0xe49b69c1 && K[17] == 0xefbe4786 && K[18] == 0x0fc19dc6 && K[19] == 0x240ca1cc
    ensures K[20] == 0x2de92c6f && K[21] == 0x4a7484aa && K[22] == 0x5cb0a9dc && K[23] == 0x76f988da
  {
  }

  lemma Constants24()
    ensures K[24] == 0x983e5152 && K[25] == 0xa831c66d && K[26] == 0xb00327c8 && K[27] == 0xbf597fc7
    ensures K[28] == 0xc6e00bf3 && K[29] == 0xd5a79147 && K[30] == 0x06ca6351 && K[31] == 0x14292967
  {
  }

  lemma Constants32()
    ensures K[32] == 0x27b70a85 && K[33] == 0x2e1b2138 && K[34] == 0x4d2c6dfc && K[35] == 0x53380d13
    ensures K[36] == 0x650a7354 && K[37] == 0x766a0abb && K[38] == 0x81c2c92e && K[39] == 0x92722c85
  {
  }

  lemma Constants40()
    ensures K[40] == 0xa2bfe8a1 && K[41] == 0xa81a664b && K[42] == 0xc24b8b70 && K[43] == 0xc76c51a3
    ensures K[44] == 0xd192e819 && K[45] == 0xd6990624 && K[46] == 0xf40e3585 && K[47] == 0x106aa070
  {
  }

  lemma Constants48()
    ensures K[48] == 0x19a4c116 && K[49] == 0x1e376c08 && K[50] == 0x2748774c && K[51] == 0x34b0bcb5
    ensures K[52] == 0x391c0cb3 && K[53] == 0x4ed8aa4a && K[54] == 0x5b9cca4f && K[55] == 0x682e6ff3
  {
  }

  lemma Constants56()
    ensures K[56] == 0x748f82ee && K[57] == 0x78a5636f && K[58] == 0x84c87814 && K[59] == 0x8cc70208
    ensures K[60] == 0x90befffa && K[61] == 0xa4506ceb && K[62] == 0xbef9a3f7 && K[63] == 0xc67178f2
  {
  }

  // ----- the primes -----

  /** The first primes, sixteen at a time. */
  const PRIMES: seq<nat> := (P0 + P16) + (P32 + P48)

  const P0: seq<nat> := [2, 3, 5, 7, 11, 13, 17, 19, 23, 29, 31, 37, 41, 43, 47, 53]
  const P16: seq<nat> := [59, 61, 67, 71, 73, 79, 83, 89, 97, 101, 103, 107, 109, 113, 127, 131]
  const P32: seq<nat> := [137, 139, 149, 151, 157, 163, 167, 173, 179, 181, 191, 193, 197, 199, 211, 223]
  const P48: seq<nat> := [227, 229, 233, 239, 241, 251, 257, 263, 269, 271, 277, 281, 283, 293, 307, 311]

  lemma Primes0()
    ensures PRIMES[0] == 2 && PRIMES[1] == 3 && PRIMES[2] == 5 && PRIMES[3] == 7
    ensures PRIMES[4] == 11 && PRIMES[5] == 13 && PRIMES[6] == 17 && PRIMES[7] == 19
  {
  }

  lemma Primes8()
    ensures PRIMES[8] == 23 && PRIMES[9] == 29 && PRIMES[10] == 31 && PRIMES[11] == 37
    ensures PRIMES[12] == 41 && PRIMES[13] == 43 && PRIMES[14] == 47 && PRIMES[15] == 53
  {
  }

  lemma Primes16()
    ensures PRIMES[16] == 59 && PRIMES[17] == 61 && PRIMES[18] == 67 && PRIMES[19] == 71
    ensures PRIMES[20] == 73 && PRIMES[21] == 79 && PRIMES[22] == 83 && PRIMES[23] == 89
  {
  }

  lemma Primes24()
    ensures PRIMES[24] == 97 && PRIMES[25] == 101 && PRIMES[26] == 103 && PRIMES[27] == 107
    ensures PRIMES[28] == 109 && PRIMES[29] == 113 && PRIMES[30] == 127 && PRIMES[31] == 131
  {
  }

  lemma Primes32()
    ensures PRIMES[32] == 137 && PRIMES[33] == 139 && PRIMES[34] == 149 && PRIMES[35] == 151
    ensures PRIMES[36] == 157 && PRIMES[37] == 163 && PRIMES[38] == 167 && PRIMES[39] == 173
  {
  }

  lemma Primes40()
    ensures PRIMES[40] == 179 && PRIMES[41] == 181 && PRIMES[42] == 191 && PRIMES[43] == 193
    ensures PRIMES[44] == 197 && PRIMES[45] == 199 && PRIMES[46] == 211 && PRIMES[47] == 223
  {
  }

  lemma Primes48()
    ensures PRIMES[48] == 227 && PRIMES[49] == 229 && PRIMES[50] == 233 && PRIMES[51] == 239
    ensures PRIMES[52] == 241 && PRIMES[53] == 251 && PRIMES[54] == 257 && PRIMES[55] == 263
  {
  }

  lemma Primes56()
    ensures PRIMES[56] == 269 && PRIMES[57] == 271 && PRIMES[58] == 277 && PRIMES[59] == 281
    ensures PRIMES[60] == 283 && PRIMES[61] == 293 && PRIMES[62] == 307 && PRIMES[63] == 311
  {
  }

  ghost predicate IsPrime(n: nat) { n >= 2 && forall d :: 2 <= d < n ==> n % d != 0 }

  /** `q` is the prime after `p`. */
  ghost predicate NextPrime(p: nat, q: nat) { p < q && IsPrime(q) && forall n :: p < n < q ==> !IsPrime(n) }

  /** No prime below 19 divides the number properly. */
  predicate NoSmallFactor(n: nat) {
    && (n % 2 != 0 || n == 2) && (n % 3 != 0 || n == 3) && (n % 5 != 0 || n == 5) && (n % 7 != 0 || n == 7)
    && (n % 11 != 0 || n == 11) && (n % 13 != 0 || n == 13) && (n % 17 != 0 || n == 17)
  }

  /** Below 19 * 19 that is enough to tell the primes. */
  lemma SmallFactors(n: nat)
    requires 2 <= n < 361
    ensures NoSmallFactor(n) <==> IsPrime(n)
  {
    if NoSmallFactor(n) {
      forall d | 2 <= d < n ensures n % d != 0 {
        if n % d == 0 {
          var e := n / d;
          assert n == d * e && 2 <= e;
          if d <= e { Divides(n, d, e); } else { Divides(n, e, d); }
        }
      }
    } else {
      ProperFactor(n);
    }
  }

  lemma ProperFactor(n: nat)
    requires n >= 2 && !NoSmallFactor(n)
    ensures !IsPrime(n)
  {
    var d := if n % 2 == 0 && n != 2 then 2 else if n % 3 == 0 && n != 3 then 3 else if n % 5 == 0 && n != 5 then 5
      else if n % 7 == 0 && n != 7 then 7 else if n % 11 == 0 && n != 11 then 11
      else if n % 13 == 0 && n != 13 then 13 else 17;
    assert n % d == 0 && n != d && d < n;
  }

  lemma Divides(n: nat, f: nat, g: nat)
    requires n == f * g && 2 <= f <= g && n < 361
    ensures !NoSmallFactor(n)
  {
    SmallerFactor(f, g);
    var r := LeastFactor(f);
    FactorOfProduct(r, f / r, g);
    Multiple(r, (f / r) * g);
    assert r <= f && f < f * g;
  }

  lemma SmallerFactor(f: nat, g: nat)
    requires f <= g && f * g < 361
    ensures f < 19
  {
    if f >= 19 { ProductGrows(f, g); }
  }

  lemma ProductGrows(f: nat, g: nat)
    requires 19 <= f <= g
    ensures f * g >= 361
  {
    assert f * g >= 19 * g;
  }

  lemma FactorOfProduct(r: nat, k: nat, g: nat)
    ensures r * k * g == r * (k * g)
  {
  }

  lemma Multiple(r: nat, m: nat)
    requires r in {2, 3, 5, 7, 11, 13, 17}
    ensures (r * m) % r == 0
  {
    assert (2 * m) % 2 == (3 * m) % 3 == (5 * m) % 5 == (7 * m) % 7 == 0;
    assert (11 * m) % 11 == (13 * m) % 13 == (17 * m) % 17 == 0;
    if r == 2 {
    } else if r == 3 {
    } else if r == 5 {
    } else if r == 7 {
    } else if r == 11 {
    } else if r == 13 {
    }
  }

  function LeastFactor(f: nat): (r: nat)
    requires 2 <= f < 19
    ensures r in {2, 3, 5, 7, 11, 13, 17} && r <= f && f == r * (f / r)
  {
    if f % 2 == 0 then 2 else if f % 3 == 0 then 3 else if f % 5 == 0 then 5 else f
  }

  lemma Follows(p: nat, q: nat)
    requires 2 <= p < q < 361 && NoSmallFactor(q) && forall n :: p < n < q ==> !NoSmallFactor(n)
    ensures NextPrime(p, q)
  {
    SmallFactors(q);
    forall n | p < n < q ensures !IsPrime(n) { SmallFactors(n); }
  }

  lemma Following0()
    ensures forall i :: 0 <= i < 4 ==> NextPrime(PRIMES[i], PRIMES[i + 1])
  {
    Primes0();
    Follows(2, 3);
    Follows(3, 5);
    Follows(5, 7);
    Follows(7, 11);
  }

  lemma Following4()
    ensures forall i :: 4 <= i < 8 ==> NextPrime(PRIMES[i], PRIMES[i + 1])
  {
    Primes0();
    Primes8();
    Follows(11, 13);
    Follows(13, 17);
    Follows(17, 19);
    Follows(19, 23);
  }

  lemma Following8()
    ensures forall i :: 8 <= i < 12 ==> NextPrime(PRIMES[i], PRIMES[i + 1])
  {
    Primes8();
    Follows(23, 29);
    Follows(29, 31);
    Follows(31, 37);
    Follows(37, 41);
  }

  lemma Following12()
    ensures forall i :: 12 <= i < 16 ==> NextPrime(PRIMES[i], PRIMES[i + 1])
  {
    Primes8();
    Primes16();
    Follows(41, 43);
    Follows(43, 47);
    Follows(47, 53);
    Follows(53, 59);
  }

  lemma Following16()
    ensures forall i :: 16 <= i < 20 ==> NextPrime(PRIMES[i], PRIMES[i + 1])
  {
    Primes16();
    Follows(59, 61);
    Follows(61, 67);
    Follows(67, 71);
    Follows(71, 73);
  }

  lemma Following20()
    ensures forall i :: 20 <= i < 24 ==> NextPrime(PRIMES[i], PRIMES[i + 1])
  {
    Primes16();
    Primes24();
    Follows(73, 79);
    Follows(79, 83);
    Follows(83, 89);
    Follows(89, 97);
  }

  lemma Following24()
    ensures forall i :: 24 <= i < 28 ==> NextPrime(PRIMES[i], PRIMES[i + 1])
  {
    Primes24();
    Follows(97, 101);
    Follows(101, 103);
    Follows(103, 107);
    Follows(107, 109);
  }

  lemma Following28()
    ensures forall i :: 28 <= i < 32 ==> NextPrime(PRIMES[i], PRIMES[i + 1])
  {
    Primes24();
    Primes32();
    Follows(109, 113);
    Follows(113, 127);
    Follows(127, 131);
    Follows(131, 137);
  }

  lemma Following32()
    ensures forall i :: 32 <= i < 36 ==> NextPrime(PRIMES[i], PRIMES[i + 1])
  {
    Primes32();
    Follows(137, 139);
    Follows(139, 149);
    Follows(149, 151);
    Follows(151, 157);
  }

  lemma Following36()
    ensures forall i :: 36 <= i < 40 ==> NextPrime(PRIMES[i], PRIMES[i + 1])
  {
    Primes32();
    Primes40();
    Follows(157, 163);
    Follows(163, 167);
    Follows(167, 173);
    Follows(173, 179);
  }

  lemma Following40()
    ensures forall i :: 40 <= i < 44 ==> NextPrime(PRIMES[i], PRIMES[i + 1])
  {
    Primes40();
    Follows(179, 181);
    Follows(181, 191);
    Follows(191, 193);
    Follows(193, 197);
  }

  lemma Following44()
    ensures forall i :: 44 <= i < 48 ==> NextPrime(PRIMES[i], PRIMES[i + 1])
  {
    Primes40();
    Primes48();
    Follows(197, 199);
    Follows(199, 211);
    Follows(211, 223);
    Follows(223, 227);
  }

  lemma Following48()
    ensures forall i :: 48 <= i < 52 ==> NextPrime(PRIMES[i], PRIMES[i + 1])
  {
    Primes48();
    Follows(227, 229);
    Follows(229, 233);
    Follows(233, 239);
    Follows(239, 241);
  }

  lemma Following52()
    ensures forall i :: 52 <= i < 56 ==> NextPrime(PRIMES[i], PRIMES[i + 1])
  {
    Primes48();
    Primes56();
    Follows(241, 251);
    Follows(251, 257);
    Follows(257, 263);
    Follows(263, 269);
  }

  lemma Following56()
    ensures forall i :: 56 <= i < 60 ==> NextPrime(PRIMES[i], PRIMES[i + 1])
  {
    Primes56();
    Follows(269, 271);
    Follows(271, 277);
    Follows(277, 281);
    Follows(281, 283);
  }

  lemma Following60()
    ensures forall i :: 60 <= i < 63 ==> NextPrime(PRIMES[i], PRIMES[i + 1])
  {
    Primes56();
    Follows(283, 293);
    Follows(293, 307);
    Follows(307, 311);
  }

  /** The primes are listed in order, without a gap. */
  lemma PrimesAreListed()
    ensures |PRIMES| == 64 && PRIMES[0] == 2
    ensures forall i :: 0 <= i < 63 ==> NextPrime(PRIMES[i], PRIMES[i + 1])
  {
    Primes0();
    Following0();
    Following4();
    Following8();
    Following12();
    Following16();
    Following20();
    Following24();
    Following28();
    Following32();
    Following36();
    Following40();
    Following44();
    Following48();
    Following52();
    Following56();
    Following60();
  }

  // ----- the roots -----

  const TWO32: nat := 0x1_0000_0000
  const TWO96: nat := 0x1_0000_0000_0000_0000_0000_0000

  /** `n` is the cube root of `p`, cut off after 32 binary places. */
  predicate IsCubeRoot(p: nat, n: nat) { n * n * n <= p * TWO96 < (n + 1) * (n + 1) * (n + 1) }

  predicate IsSquareRoot(p: nat, n: nat) { n * n <= p * TWO64 < (n + 1) * (n + 1) }

  /** The word holds the first 32 binary places of the root of `p`. */
  ghost predicate CubeRootPlaces(p: nat, k: Word) { exists n: nat :: IsCubeRoot(p, n) && n % TWO32 == k as int }

  ghost predicate SquareRootPlaces(p: nat, h: Word) { exists n: nat :: IsSquareRoot(p, n) && n % TWO32 == h as int }

  lemma CubeRoot(p: nat, k: Word, n: nat)
    requires IsCubeRoot(p, n) && n % TWO32 == k as int
    ensures CubeRootPlaces(p, k)
  {
  }

  lemma SquareRoot(p: nat, h: Word, n: nat)
    requires IsSquareRoot(p, n) && n % TWO32 == h as int
    ensures SquareRootPlaces(p, h)
  {
  }

  lemma Cubes0()
    ensures forall i :: 0 <= i < 8 ==> CubeRootPlaces(PRIMES[i], K[i])
  {
    Primes0();
    Constants0();
    CubeRoot(2, 0x428a2f98, 0x1428a2f98);
    CubeRoot(3, 0x71374491, 0x171374491);
    CubeRoot(5, 0xb5c0fbcf, 0x1b5c0fbcf);
    CubeRoot(7, 0xe9b5dba5, 0x1e9b5dba5);
    CubeRoot(11, 0x3956c25b, 0x23956c25b);
    CubeRoot(13, 0x59f111f1, 0x259f111f1);
    CubeRoot(17, 0x923f82a4, 0x2923f82a4);
    CubeRoot(19, 0xab1c5ed5, 0x2ab1c5ed5);
  }

  lemma Cubes8()
    ensures forall i :: 8 <= i < 16 ==> CubeRootPlaces(PRIMES[i], K[i])
  {
    Primes8();
    Constants8();
    CubeRoot(23, 0xd807aa98, 0x2d807aa98);
    CubeRoot(29, 0x12835b01, 0x312835b01);
    CubeRoot(31, 0x243185be, 0x3243185be);
    CubeRoot(37, 0x550c7dc3, 0x3550c7dc3);
    CubeRoot(41, 0x72be5d74, 0x372be5d74);
    CubeRoot(43, 0x80deb1fe, 0x380deb1fe);
    CubeRoot(47, 0x9bdc06a7, 0x39bdc06a7);
    CubeRoot(53, 0xc19bf174, 0x3c19bf174);
  }

  lemma Cubes16()
    ensures forall i :: 16 <= i < 24 ==> CubeRootPlaces(PRIMES[i], K[i])
  {
    Primes16();
    Constants16();
    CubeRoot(59, 0xe49b69c1, 0x3e49b69c1);
    CubeRoot(61, 0xefbe4786, 0x3efbe4786);
    CubeRoot(67, 0x0fc19dc6, 0x40fc19dc6);
    CubeRoot(71, 0x240ca1cc, 0x4240ca1cc);
    CubeRoot(73, 0x2de92c6f, 0x42de92c6f);
    CubeRoot(79, 0x4a7484aa, 0x44a7484aa);
    CubeRoot(83, 0x5cb0a9dc, 0x45cb0a9dc);
    CubeRoot(89, 0x76f988da, 0x476f988da);
  }

  lemma Cubes24()
    ensures forall i :: 24 <= i < 32 ==> CubeRootPlaces(PRIMES[i], K[i])
  {
    Primes24();
    Constants24();
    CubeRoot(97, 0x983e5152, 0x4983e5152);
    CubeRoot(101, 0xa831c66d, 0x4a831c66d);
    CubeRoot(103, 0xb00327c8, 0x4b00327c8);
    CubeRoot(107, 0xbf597fc7, 0x4bf597fc7);
    CubeRoot(109, 0xc6e00bf3, 0x4c6e00bf3);
    CubeRoot(113, 0xd5a79147, 0x4d5a79147);
    CubeRoot(127, 0x06ca6351, 0x506ca6351);
    CubeRoot(131, 0x14292967, 0x514292967);
  }

  lemma Cubes32()
    ensures forall i :: 32 <= i < 40 ==> CubeRootPlaces(PRIMES[i], K[i])
  {
    Primes32();
    Constants32();
    CubeRoot(137, 0x27b70a85, 0x527b70a85);
    CubeRoot(139, 0x2e1b2138, 0x52e1b2138);
    CubeRoot(149, 0x4d2c6dfc, 0x54d2c6dfc);
    CubeRoot(151, 0x53380d13, 0x553380d13);
    CubeRoot(157, 0x650a7354, 0x5650a7354);
    CubeRoot(163, 0x766a0abb, 0x5766a0abb);
    CubeRoot(167, 0x81c2c92e, 0x581c2c92e);
    CubeRoot(173, 0x92722c85, 0x592722c85);
  }

  lemma Cubes40()
    ensures forall i :: 40 <= i < 48 ==> CubeRootPlaces(PRIMES[i], K[i])
  {
    Primes40();
    Constants40();
    CubeRoot(179, 0xa2bfe8a1, 0x5a2bfe8a1);
    CubeRoot(181, 0xa81a664b, 0x5a81a664b);
    CubeRoot(191, 0xc24b8b70, 0x5c24b8b70);
    CubeRoot(193, 0xc76c51a3, 0x5c76c51a3);
    CubeRoot(197, 0xd192e819, 0x5d192e819);
    CubeRoot(199, 0xd6990624, 0x5d6990624);
    CubeRoot(211, 0xf40e3585, 0x5f40e3585);
    CubeRoot(223, 0x106aa070, 0x6106aa070);
  }

  lemma Cubes48()
    ensures forall i :: 48 <= i < 56 ==> CubeRootPlaces(PRIMES[i], K[i])
  {
    Primes48();
    Constants48();
    CubeRoot(227, 0x19a4c116, 0x619a4c116);
    CubeRoot(229, 0x1e376c08, 0x61e376c08);
    CubeRoot(233, 0x2748774c, 0x62748774c);
    CubeRoot(239, 0x34b0bcb5, 0x634b0bcb5);
    CubeRoot(241, 0x391c0cb3, 0x6391c0cb3);
    CubeRoot(251, 0x4ed8aa4a, 0x64ed8aa4a);
    CubeRoot(257, 0x5b9cca4f, 0x65b9cca4f);
    CubeRoot(263, 0x682e6ff3, 0x6682e6ff3);
  }

  lemma Cubes56()
    ensures forall i :: 56 <= i < 64 ==> CubeRootPlaces(PRIMES[i], K[i])
  {
    Primes56();
    Constants56();
    CubeRoot(269, 0x748f82ee, 0x6748f82ee);
    CubeRoot(271, 0x78a5636f, 0x678a5636f);
    CubeRoot(277, 0x84c87814, 0x684c87814);
    CubeRoot(281, 0x8cc70208, 0x68cc70208);
    CubeRoot(283, 0x90befffa, 0x690befffa);
    CubeRoot(293, 0xa4506ceb, 0x6a4506ceb);
    CubeRoot(307, 0xbef9a3f7, 0x6bef9a3f7);
    CubeRoot(311, 0xc67178f2, 0x6c67178f2);
  }

  /** Section 4.2.2: the round constants are the first 32 binary places of the cube roots of the first
      sixty-four primes. */
  lemma RoundConstants(i: nat)
    requires i < 64
    ensures CubeRootPlaces(PRIMES[i], K[i])
  {
    Cubes0();
    Cubes8();
    Cubes16();
    Cubes24();
    Cubes32();
    Cubes40();
    Cubes48();
    Cubes56();
  }

  /** Section 5.3.3: the initial value holds those of the square roots of the first eight. */
  lemma InitialValue(i: nat)
    requires i < 8
    ensures SquareRootPlaces(PRIMES[i], H0[i])
  {
    Primes0();
    SquareRoot(2, 0x6a09e667, 0x16a09e667);
    SquareRoot(3, 0xbb67ae85, 0x1bb67ae85);
    SquareRoot(5, 0x3c6ef372, 0x23c6ef372);
    SquareRoot(7, 0xa54ff53a, 0x2a54ff53a);
    SquareRoot(11, 0x510e527f, 0x3510e527f);
    SquareRoot(13, 0x9b05688c, 0x39b05688c);
    SquareRoot(17, 0x1f83d9ab, 0x41f83d9ab);
    SquareRoot(19, 0x5be0cd19, 0x45be0cd19);
  }
}
