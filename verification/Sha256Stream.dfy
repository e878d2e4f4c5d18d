/** The streaming hash of src/platform/sha256.c. */
module Sha256Stream {
  import opened Common
  import opened Sha256Spec

  /** What a 64-bit counter holds after adding 512 for each of `blocks` blocks. */
  function Bits(blocks: nat): nat {
    if blocks == 0 then 0 else Wrap64(Bits(blocks - 1) + 512)
  }

  lemma {:induction false} BitsWrap(blocks: nat)
    ensures Bits(blocks) == Wrap64(512 * blocks)
  {
    if blocks > 0 {
      BitsWrap(blocks - 1);
      WrapAdd(512 * (blocks - 1), 512);
    }
  }

  /** Reducing early or late makes no difference to a sum. */
  lemma {:induction false} WrapAdd(n: nat, d: nat)
    ensures Wrap64(Wrap64(n) + d) == Wrap64(n + d)
  {
    if n >= TWO64 { WrapAdd(n - TWO64, d); }
  }

  lemma BitsStep(blocks: nat)
    ensures Wrap64(Bits(blocks) + 512) == Bits(blocks + 1)
  {
  }

  lemma TotalBits(blocks: seq<Block>, tail: seq<Byte>)
    ensures Wrap64(Bits(|blocks|) + 8 * |tail|) == Wrap64(8 * |Flatten(blocks) + tail|)
  {
    FlattenLength(blocks);
    BitsWrap(|blocks|);
    WrapAdd(512 * |blocks|, 8 * |tail|);
  }

  ghost predicate Expands(words: seq<Word>, t: nat)
    requires 16 <= t < 64 == |words|
  {
    words[t] == Expand(words[t - 2], words[t - 7], words[t - 15], words[t - 16])
  }

  function Words(block: seq<Byte>): seq<Word>
    requires |block| == 64
  {
    seq(64, t requires 0 <= t < 64 => Schedule(block, t))
  }

  lemma WordsExpand(block: seq<Byte>, t: nat)
    requires |block| == 64 && 16 <= t < 64
    ensures Expands(Words(block), t)
  {
    ScheduleStep(block, t, Schedule(block, t - 2), Schedule(block, t - 7), Schedule(block, t - 15), Schedule(block, t - 16));
  }

  /** `SHA256_CTX`. `folded` lists the blocks already compressed into `state`. */
  class Context {
    const data: array<Byte>
    const state: array<Word>
    var datalen: nat
    var bitlen: nat
    ghost var folded: seq<Block>

    ghost predicate Shaped()
      reads this
    {
      data.Length == 64 && state.Length == 8
    }

    /** `bitlen` counts the folded bits modulo 2^64; less than a block waits in `data`. */
    ghost predicate Valid()
      reads this, data, state
    {
      && Shaped()
      && datalen < 64
      && state[..] == Chain(folded)
      && bitlen == Bits(|folded|)
    }

    /** Everything fed in so far. */
    ghost function Absorbed(): seq<Byte>
      requires Valid()
      reads this, data, state
    {
      Flatten(folded) + data[..datalen]
    }

    /** `sha256_init`. */
    constructor ()
      ensures Valid() && Absorbed() == [] && fresh(data) && fresh(state)
    {
      data := new Byte[64];
      state := new Word[8];
      datalen, bitlen, folded := 0, 0, [];
      new;
      SetState(H0);
    }

    method SetState(h: seq<Word>)
      requires Shaped() && |h| == 8
      modifies state
      ensures state[..] == h
    {
      var i := 0;
      while i < 8
        invariant 0 <= i <= 8
        invariant forall j :: 0 <= j < i ==> state[j] == h[j]
      {
        state[i] := h[i];
        i := i + 1;
      }
    }

    /** The first schedule loop of `sha256_transform`: the words of the block. */
    method LoadWords(m: array<Word>)
      requires Shaped() && m.Length == 64 && m != state
      modifies m
      ensures forall t :: 0 <= t < 16 ==> m[t] == Schedule(data[..], t)
    {
      var i := 0;
      while i < 16
        invariant 0 <= i <= 16
        invariant forall t :: 0 <= t < i ==> m[t] == Schedule(data[..], t)
      {
        m[i] := BigEndian(data[4 * i], data[4 * i + 1], data[4 * i + 2], data[4 * i + 3]);
        i := i + 1;
      }
    }

    /** The second schedule loop. */
    method ExpandWords(m: array<Word>, ghost words: seq<Word>)
      requires m.Length == |words| == 64 && m[..16] == words[..16]
      requires forall t :: 16 <= t < 64 ==> Expands(words, t)
      modifies m
      ensures m[..] == words
    {
      var i := 16;
      assert forall t :: 0 <= t < 16 ==> m[t] == m[..16][t] == words[..16][t];
      while i < 64
        invariant 16 <= i <= 64
        invariant forall t :: 0 <= t < i ==> m[t] == words[t]
      {
        assert Expands(words, i);
        m[i] := Expand(m[i - 2], m[i - 7], m[i - 15], m[i - 16]);
        i := i + 1;
      }
    }

    /** Both schedule loops. */
    method Expanded() returns (m: array<Word>)
      requires Shaped()
      ensures fresh(m) && m.Length == 64 && m[..] == Words(data[..])
    {
      m := new Word[64];
      LoadWords(m);
      ghost var block := data[..];
      assert m[..16] == Words(block)[..16];
      forall t | 16 <= t < 64 ensures Expands(Words(block), t) {
        WordsExpand(block, t);
      }
      ExpandWords(m, Words(block));
    }

    /** The 64 rounds of `sha256_transform`. */
    method Mixed() returns (v: Vars)
      requires Shaped()
      ensures v == Rounds(data[..], Load(state[..]), 64)
    {
      var m := Expanded();
      assert forall t :: 0 <= t < 64 ==> m[t] == m[..][t];
      var h := state[..];
      v := Load(h);
      var i := 0;
      while i < 64
        invariant 0 <= i <= 64
        invariant v == Rounds(data[..], Load(h), i)
      {
        v := Round(v, K[i], m[i]);
        i := i + 1;
      }
    }

    /** `sha256_transform`: folds the buffered block into the state. */
    method Transform()
      requires Shaped()
      modifies state
      ensures state[..] == Compress(old(state[..]), data[..])
    {
      var v := Mixed();
      SetState(AddTo(state[..], v));
    }
  
    /** One byte of `sha256_update`. */
    method Push(b: Byte)
      requires Valid()
      modifies this, data, state
      ensures Valid() && Absorbed() == old(Absorbed()) + [b]
    {
      data[datalen] := b;
      datalen := datalen + 1;
      assert data[..datalen] == old(data[..datalen]) + [b];
      if datalen == 64 {
        Fold();
      }
    }

    /** A full buffer is compressed and emptied. */
    method Fold()
      requires Shaped() && datalen == 64
      requires state[..] == Chain(folded) && bitlen == Bits(|folded|)
      modifies this, state
      ensures Valid() && Absorbed() == Flatten(old(folded)) + old(data[..])
    {
      FoldWhole(folded);
      FlattenOne(folded, data[..]);
      CountBlock();
      assert Flatten(folded) + data[..0] == Flatten(folded);
    }

    /** The counters after a fold. */
    method CountBlock()
      requires Shaped() && bitlen == Bits(|folded|)
      modifies this
      ensures datalen == 0 && bitlen == Bits(|folded|) && folded == old(folded) + [data[..]]
    {
      BitsStep(|folded|);
      bitlen := Wrap64(bitlen + 512);
      datalen := 0;
      folded := folded + [data[..]];
    }

    /** `sha256_update`. */
    method Update(bytes: seq<Byte>)
      requires Valid()
      modifies this, data, state
      ensures Valid() && Absorbed() == old(Absorbed()) + bytes
    {
      var i := 0;
      while i < |bytes|
        invariant 0 <= i <= |bytes|
        invariant Valid() && Absorbed() == old(Absorbed()) + bytes[..i]
      {
        OneByteMore(old(Absorbed()), bytes, i);
        Push(bytes[i]);
        i := i + 1;
      }
      assert bytes[..i] == bytes;
    }

    /** The byte 0x80 and zeros up to `limit`. */
    method Terminate(limit: nat)
      requires Shaped() && datalen < limit <= 64
      modifies data
      ensures data[..limit] == old(data[..datalen]) + [0x80] + Zeros(limit - datalen - 1)
    {
      var i := datalen;
      data[i] := 0x80;
      i := i + 1;
      while i < limit
        invariant datalen < i <= limit
        invariant data[..i] == old(data[..datalen]) + [0x80] + Zeros(i - datalen - 1)
      {
        data[i] := 0;
        i := i + 1;
      }
    }

    /** memset over the first 56 bytes. */
    method ClearFront()
      requires Shaped()
      modifies data
      ensures data[..56] == Zeros(56)
    {
      var i := 0;
      while i < 56
        invariant 0 <= i <= 56
        invariant data[..i] == Zeros(i)
      {
        data[i] := 0;
        i := i + 1;
      }
    }

    /** The bit count, most significant byte first, in the last eight bytes. */
    method StoreLength(ghost bits: nat)
      requires Shaped() && bitlen == Wrap64(bits)
      modifies data
      ensures data[..] == old(data[..56]) + LengthBytes(bits)
    {
      data[63] := Octet(bitlen);
      data[62] := Octet(bitlen / 0x100);
      data[61] := Octet(bitlen / 0x1_0000);
      data[60] := Octet(bitlen / 0x100_0000);
      data[59] := Octet(bitlen / 0x1_0000_0000);
      data[58] := Octet(bitlen / 0x100_0000_0000);
      data[57] := Octet(bitlen / 0x1_0000_0000_0000);
      data[56] := Octet(bitlen / 0x100_0000_0000_0000);
    }

    /** Fold the buffered block without leaving the buffer open. */
    method FoldWhole(ghost blocks: seq<Block>)
      requires Shaped() && state[..] == Chain(blocks)
      modifies state
      ensures state[..] == Chain(blocks + [data[..]])
    {
      Transform();
      ghost var block: Block := data[..];
      ChainStep(blocks, block);
    }

    /** The byte 0x80 and zeros to the end of the block, which is then folded. */
    method FoldFilled() returns (ghost block: Block)
      requires Shaped() && datalen < 64 && state[..] == Chain(folded)
      modifies data, state
      ensures block == old(data[..datalen]) + [0x80] + Zeros(63 - datalen)
      ensures state[..] == Chain(folded + [block])
    {
      Terminate(64);
      assert data[..64] == data[..];
      block := data[..];
      FoldWhole(folded);
    }

    /** The branch of `sha256_final` that needs a block more. */
    method CloseLong() returns (ghost blocks: seq<Block>)
      requires Valid() && datalen >= 56
      modifies data, state
      ensures state[..] == Chain(blocks)
      ensures var m, front := old(Absorbed()), data[..56];
        Parse(Padded(m)) == blocks + [front + LengthBytes(8 * |m|)]
    {
      ghost var tail := data[..datalen];
      ghost var block := FoldFilled();
      blocks := folded + [block];
      ClearFront();
      PadLong(folded, tail, block, data[..56]);
    }

    /** Both branches: what is left to fold is `data[..56]` and a length. */
    method Close() returns (ghost blocks: seq<Block>)
      requires Valid()
      modifies data, state
      ensures state[..] == Chain(blocks)
      ensures var m, front := old(Absorbed()), data[..56];
        Parse(Padded(m)) == blocks + [front + LengthBytes(8 * |m|)]
    {
      if datalen < 56 {
        PadShort(folded, data[..datalen]);
        Terminate(56);
        blocks := folded;
      } else {
        blocks := CloseLong();
      }
    }

    method Pad() returns (ghost blocks: seq<Block>)
      requires Valid()
      modifies this, data, state
      ensures state[..] == Chain(blocks)
      ensures var m, front := old(Absorbed()), data[..56];
        bitlen == Wrap64(8 * |m|) && Parse(Padded(m)) == blocks + [front + LengthBytes(8 * |m|)]
    {
      TotalBits(folded, data[..datalen]);
      blocks := Close();
      bitlen := Wrap64(bitlen + 8 * datalen);
    }

    /** `sha256_final`: the digest of everything absorbed. */
    method Final(hash: array<Byte>)
      requires Valid() && hash.Length == 32 && hash != data
      modifies this, data, state, hash
      ensures hash[..] == Digest(old(Absorbed()))
    {
      ghost var m := Absorbed();
      ghost var blocks := Pad();
      StoreLength(8 * |m|);
      FoldWhole(blocks);
      Output(hash);
    }

    /** The state words, most significant byte first: byte `i` of every word in round `i`. */
    method Output(hash: array<Byte>)
      requires Shaped() && hash.Length == 32
      modifies hash
      ensures hash[..] == WordsBytes(state[..])
    {
      ghost var target := WordsBytes(state[..]);
      var i := 0;
      while i < 4
        invariant 0 <= i <= 4
        invariant forall x :: 0 <= x < 32 && x % 4 < i ==> hash[x] == target[x]
      {
        var j := 0;
        while j < 8
          invariant 0 <= j <= 8
          invariant forall x :: 0 <= x < 32 && (x % 4 < i || (x % 4 == i && x < 4 * j)) ==> hash[x] == target[x]
        {
          hash[4 * j + i] := WordBytes(state[j])[i];
          WordsBytesAt(state[..], j, i);
          j := j + 1;
        }
        i := i + 1;
      }
    }
  }

  lemma OneByteMore(m: seq<Byte>, bytes: seq<Byte>, i: nat)
    requires i < |bytes|
    ensures m + bytes[..i] + [bytes[i]] == m + bytes[..i + 1]
  {
  }

  // ----- padding and parsing -----

  lemma {:induction false} FlattenLength(blocks: seq<Block>)
    ensures |Flatten(blocks)| == 64 * |blocks|
  {
    if blocks != [] { FlattenLength(blocks[..|blocks| - 1]); }
  }

  /** Parsing undoes concatenation of blocks. */
  lemma {:induction false} ParseFlatten(blocks: seq<Block>)
    ensures |Flatten(blocks)| == 64 * |blocks|
    ensures Parse(Flatten(blocks)) == blocks
  {
    FlattenLength(blocks);
    if blocks != [] {
      var front, last := blocks[..|blocks| - 1], blocks[|blocks| - 1];
      ParseFlatten(front);
      var p := Flatten(blocks);
      assert p[..|p| - 64] == Flatten(front) && p[|p| - 64..] == last;
    }
  }

  lemma FlattenOne(blocks: seq<Block>, a: Block)
    ensures Flatten(blocks + [a]) == Flatten(blocks) + a
  {
    var one := blocks + [a];
    assert one[..|blocks|] == blocks;
  }

  lemma PadZerosOf(n: nat, d: nat)
    requires d < 64
    ensures PadZeros(64 * n + d) == if d < 56 then 55 - d else 119 - d
  {
  }

  lemma Regroup(f: seq<Byte>, a: seq<Byte>, b: seq<Byte>, c: seq<Byte>, d: seq<Byte>, e: seq<Byte>)
    ensures f + a + b + (c + d) + e == f + (a + b + c) + (d + e)
  {
  }

  lemma PaddedShort(f: seq<Byte>, blocks: nat, tail: seq<Byte>)
    requires |f| == 64 * blocks && |tail| < 56
    ensures Padded(f + tail) == f + (tail + [0x80] + Zeros(55 - |tail|) + LengthBytes(8 * |f + tail|))
  {
    PadZerosOf(blocks, |tail|);
    Regroup(f, tail, [0x80], Zeros(55 - |tail|), [], LengthBytes(8 * |f + tail|));
    assert Zeros(55 - |tail|) + [] == Zeros(55 - |tail|);
  }

  lemma PaddedLong(f: seq<Byte>, blocks: nat, tail: seq<Byte>)
    requires |f| == 64 * blocks && 56 <= |tail| < 64
    ensures Padded(f + tail) == f + (tail + [0x80] + Zeros(63 - |tail|)) + (Zeros(56) + LengthBytes(8 * |f + tail|))
  {
    PadZerosOf(blocks, |tail|);
    assert Zeros(119 - |tail|) == Zeros(63 - |tail|) + Zeros(56);
    Regroup(f, tail, [0x80], Zeros(63 - |tail|), Zeros(56), LengthBytes(8 * |f + tail|));
  }

  /** Up to 55 bytes in the last block: the padding fits it. */
  lemma PadShort(blocks: seq<Block>, tail: seq<Byte>)
    requires |tail| < 56
    ensures var m := Flatten(blocks) + tail;
      Parse(Padded(m)) == blocks + [tail + [0x80] + Zeros(55 - |tail|) + LengthBytes(8 * |m|)]
  {
    var m := Flatten(blocks) + tail;
    FlattenLength(blocks);
    PaddedShort(Flatten(blocks), |blocks|, tail);
    var last: Block := tail + [0x80] + Zeros(55 - |tail|) + LengthBytes(8 * |m|);
    FlattenOne(blocks, last);
    ParseFlatten(blocks + [last]);
  }

  /** Fuller last blocks: the padding runs over into a block of its own. */
  lemma PadLong(blocks: seq<Block>, tail: seq<Byte>, first: Block, front: seq<Byte>)
    requires 56 <= |tail| < 64 && first == tail + [0x80] + Zeros(63 - |tail|) && front == Zeros(56)
    ensures var m := Flatten(blocks) + tail;
      Parse(Padded(m)) == blocks + [first] + [front + LengthBytes(8 * |m|)]
  {
    var m := Flatten(blocks) + tail;
    FlattenLength(blocks);
    PaddedLong(Flatten(blocks), |blocks|, tail);
    var last: Block := Zeros(56) + LengthBytes(8 * |m|);
    FlattenOne(blocks, first);
    FlattenOne(blocks + [first], last);
    ParseFlatten(blocks + [first] + [last]);
  }

  lemma {:induction false} WordsBytesAt(h: seq<Word>, j: nat, r: nat)
    requires j < |h| && r < 4
    ensures WordsBytes(h)[4 * j + r] == WordBytes(h[j])[r]
  {
    if j > 0 {
      WordsBytesAt(h[1..], j - 1, r);
      assert WordsBytes(h)[4 * j + r] == WordsBytes(h[1..])[4 * (j - 1) + r];
    }
  }

  // ----- any cutting of the input -----

  lemma {:induction false} FlattenPrefix(pieces: seq<seq<Byte>>, i: nat)
    requires i < |pieces|
    ensures Flatten(pieces[..i + 1]) == Flatten(pieces[..i]) + pieces[i]
  {
    assert pieces[..i + 1][..i] == pieces[..i];
  }

  /** However the input is cut into update calls, the result is the digest of the whole. */
  method HashPieces(pieces: seq<seq<Byte>>) returns (hash: array<Byte>)
    ensures fresh(hash) && hash[..] == Digest(Flatten(pieces))
  {
    hash := new Byte[32];
    var ctx := new Context();
    var i := 0;
    while i < |pieces|
      invariant 0 <= i <= |pieces|
      invariant ctx.Valid() && ctx.Absorbed() == Flatten(pieces[..i])
      invariant fresh(ctx) && fresh(ctx.data) && fresh(ctx.state) && fresh(hash) && ctx.data != hash
    {
      ctx.Update(pieces[i]);
      FlattenPrefix(pieces, i);
      i := i + 1;
    }
    assert pieces[..i] == pieces;
    ctx.Final(hash);
  }
}
