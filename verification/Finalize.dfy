/** Accepting or rejecting a finished file (src/engine/finalize.c, sha256_to_hex). */
module Finalize {
  import opened Common
  import opened Sha256Spec
  import opened Sha256Stream

  const HEX: string := "0123456789abcdef"

  // ----- hexadecimal text -----

  function High(b: Byte): nat { ((b >> 4) & 0xf) as nat }
  function Low(b: Byte): nat { (b & 0xf) as nat }

  lemma Nibbles(b: Byte)
    ensures High(b) < 16 && Low(b) < 16
    ensures b == ((High(b) as Byte) << 4) | (Low(b) as Byte)
  {
  }

  function Digit(n: nat): char {
    if n < 16 then HEX[n] else '0'
  }

  /** Two lowercase digits a byte. */
  function Hex(bytes: seq<Byte>): (s: string)
    ensures |s| == 2 * |bytes|
  {
    if bytes == [] then "" else Hex(bytes[..|bytes| - 1]) + [Digit(High(bytes[|bytes| - 1])), Digit(Low(bytes[|bytes| - 1]))]
  }

  lemma DigitInjective(m: nat, n: nat)
    requires m < 16 && n < 16 && Digit(m) == Digit(n)
    ensures m == n
  {
  }

  /** Hexadecimal text determines the bytes. */
  lemma {:induction false} HexInjective(a: seq<Byte>, b: seq<Byte>)
    requires Hex(a) == Hex(b)
    ensures a == b
  {
    assert |a| == |b|;
    if a != [] {
      var n := |a| - 1;
      SameEnds(a, b, n);
      HexInjective(a[..n], b[..n]);
      assert a == a[..n] + [a[n]] && b == b[..n] + [b[n]];
    }
  }

  lemma SameEnds(a: seq<Byte>, b: seq<Byte>, n: nat)
    requires |a| == |b| == n + 1 && Hex(a) == Hex(b)
    ensures Hex(a[..n]) == Hex(b[..n]) && a[n] == b[n]
  {
    LastByte(a, n);
    LastByte(b, n);
    SameByte(a[n], b[n]);
  }

  lemma LastByte(a: seq<Byte>, n: nat)
    requires |a| == n + 1
    ensures |Hex(a)| == 2 * n + 2 && Hex(a)[..2 * n] == Hex(a[..n])
    ensures Hex(a)[2 * n] == Digit(High(a[n])) && Hex(a)[2 * n + 1] == Digit(Low(a[n]))
  {
  }

  lemma SameByte(x: Byte, y: Byte)
    requires Digit(High(x)) == Digit(High(y)) && Digit(Low(x)) == Digit(Low(y))
    ensures x == y
  {
    Nibbles(x);
    Nibbles(y);
    DigitInjective(High(x), High(y));
    DigitInjective(Low(x), Low(y));
  }

  /** `sha256_to_hex`; the terminating NUL is left to the string type. */
  method ToHex(hash: array<Byte>) returns (out: string)
    ensures out == Hex(hash[..])
  {
    out := "";
    var i := 0;
    while i < hash.Length
      invariant 0 <= i <= hash.Length
      invariant out == Hex(hash[..i])
    {
      Nibbles(hash[i]);
      assert hash[..i + 1][..i] == hash[..i];
      out := out + [HEX[High(hash[i])], HEX[Low(hash[i])]];
      i := i + 1;
    }
    assert hash[..i] == hash[..];
  }

  // ----- case-insensitive comparison -----

  function Lower(c: char): char {
    if 'A' <= c <= 'Z' then (c as int - 'A' as int + 'a' as int) as char else c
  }

  function Lowered(s: string): string {
    seq(|s|, i requires 0 <= i < |s| => Lower(s[i]))
  }

  /** `hex_equals_ci` on NUL-free strings. */
  method HexEqualsCi(a: string, b: string) returns (equal: bool)
    ensures equal <==> Lowered(a) == Lowered(b)
  {
    var i := 0;
    while i < |a| && i < |b|
      invariant 0 <= i <= |a| && i <= |b|
      invariant forall j :: 0 <= j < i ==> Lower(a[j]) == Lower(b[j])
    {
      if Lower(a[i]) != Lower(b[i]) {
        assert Lowered(a)[i] != Lowered(b)[i];
        return false;
      }
      i := i + 1;
    }
    return i == |a| && i == |b|;
  }

  lemma DigitIsLower(n: nat)
    ensures Lower(Digit(n)) == Digit(n)
  {
  }

  /** Digests print in lower case. */
  lemma {:induction false} HexIsLower(bytes: seq<Byte>)
    ensures Lowered(Hex(bytes)) == Hex(bytes)
  {
    if bytes != [] {
      var n := |bytes| - 1;
      HexIsLower(bytes[..n]);
      var front, h, l := Hex(bytes[..n]), High(bytes[n]), Low(bytes[n]);
      DigitIsLower(h);
      DigitIsLower(l);
      assert Hex(bytes) == front + [Digit(h), Digit(l)];
      forall i | 0 <= i < |Hex(bytes)| ensures Lower(Hex(bytes)[i]) == Hex(bytes)[i] {
        if i < 2 * n {
          assert Lowered(front)[i] == front[i];
        }
      }
    }
  }

  // ----- the read loop and the decision -----

  /** What reading the file yields: pieces up to end of file, and whether an error ended it. */
  datatype Reading = Reading(pieces: seq<seq<Byte>>, failed: bool)

  /** `compute_sha256_hex`, with the fopen and fread outcomes given. */
  method ComputeSha256Hex(source: Option<Reading>) returns (hex: Option<string>)
    ensures hex == if source.None? || source.value.failed then None else Some(Hex(Digest(Flatten(source.value.pieces))))
  {
    if source.None? {
      return None;
    }
    var hash := HashPieces(source.value.pieces);
    if source.value.failed {
      return None;
    }
    var text := ToHex(hash);
    hex := Some(text);
  }

  /** When the daemon accepts a file: its size is the announced one, and its digest is the one
      asked for, either being unchecked when not given. */
  predicate Accepted(size: nat, source: Option<Reading>, expectedSize: nat, expectedHex: string) {
    && (expectedSize == 0 || size == expectedSize)
    && (expectedHex == "" ||
          (source.Some? && !source.value.failed &&
             Lowered(expectedHex) == Hex(Digest(Flatten(source.value.pieces)))))
  }

  /** `engine_finalize`. */
  method EngineFinalize(size: nat, source: Option<Reading>, expectedSize: nat, expectedHex: string)
    returns (rc: int)
    ensures rc == if Accepted(size, source, expectedSize, expectedHex) then 0 else -1
  {
    if expectedSize != 0 {
      if size != expectedSize {
        return -1;
      }
    }
    if expectedHex != "" {
      var actual := ComputeSha256Hex(source);
      if actual.None? {
        return -1;
      }
      var same := HexEqualsCi(actual.value, expectedHex);
      HexIsLower(Digest(Flatten(source.value.pieces)));
      if !same {
        return -1;
      }
    }
    return 0;
  }

  /** Two files accepted for the same nonempty expected text have the same digest, however
      they were read. */
  lemma AcceptedDigestsAgree(
    size: nat, a: Option<Reading>, size': nat, b: Option<Reading>, expectedSize: nat, expectedHex: string)
    requires expectedHex != ""
    requires Accepted(size, a, expectedSize, expectedHex) && Accepted(size', b, expectedSize, expectedHex)
    ensures Digest(Flatten(a.value.pieces)) == Digest(Flatten(b.value.pieces))
  {
    HexInjective(Digest(Flatten(a.value.pieces)), Digest(Flatten(b.value.pieces)));
  }

  /** With the announced size and the digest of the announced content asked for, a file is accepted exactly when it
      can be read, has that size and has that digest. */
  lemma OnlyRightFileAccepted(content: seq<Byte>, size: nat, source: Option<Reading>)
    requires content != []
    ensures Accepted(size, source, |content|, Hex(Digest(content)))
      <==> (size == |content| && source.Some? && !source.value.failed
            && Digest(Flatten(source.value.pieces)) == Digest(content))
  {
    HexIsLower(Digest(content));
    if source.Some? && Hex(Digest(Flatten(source.value.pieces))) == Hex(Digest(content)) {
      HexInjective(Digest(Flatten(source.value.pieces)), Digest(content));
    }
  }

  /** With no digest asked for only the size decides, when it is known. */
  lemma SizeDecides(size: nat, source: Option<Reading>, expectedSize: nat)
    ensures Accepted(size, source, expectedSize, "") <==> size == expectedSize || expectedSize == 0
  {
  }

  // ----- the alphabet -----

  /** The sixteen digits. */
  lemma HexDigits(n: nat)
    requires n < 16
    ensures n < 10 ==> Digit(n) as int == '0' as int + n
    ensures n >= 10 ==> Digit(n) as int == 'a' as int + (n - 10)
  {
  }

  /** Lowering takes each capital letter to its small one and nothing else anywhere. */
  lemma LowersLetters(c: char)
    ensures forall i :: 0 <= i < 26 ==>
      Lower("ABCDEFGHIJKLMNOPQRSTUVWXYZ"[i]) == "abcdefghijklmnopqrstuvwxyz"[i]
    ensures c !in "ABCDEFGHIJKLMNOPQRSTUVWXYZ" ==> Lower(c) == c
  {
    CapitalsAre();
    SmallLettersAre();
    if 'A' <= c <= 'Z' { assert c == "ABCDEFGHIJKLMNOPQRSTUVWXYZ"[c as int - 'A' as int]; }
  }

  lemma CapitalsAre()
    ensures forall i :: 0 <= i < 26 ==> "ABCDEFGHIJKLMNOPQRSTUVWXYZ"[i] as int == 'A' as int + i
  {
  }

  lemma SmallLettersAre()
    ensures forall i :: 0 <= i < 26 ==> "abcdefghijklmnopqrstuvwxyz"[i] as int == 'a' as int + i
  {
  }

  // ----- the right file -----

  /** A file equal to what the server announced is accepted exactly when the user expected
      nothing or, in either case of letters, its digest. */
  lemma RightFileAccepted(content: seq<Byte>, pieces: seq<seq<Byte>>, expectedHex: string)
    requires Flatten(pieces) == content
    ensures Accepted(|content|, Some(Reading(pieces, false)), |content|, expectedHex) <==>
      expectedHex == "" || Lowered(expectedHex) == Lowered(Hex(Digest(content)))
  {
    HexIsLower(Digest(content));
  }
}
