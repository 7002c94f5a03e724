/** The salsa stream: offset and padding arithmetic over a keystream that is a parameter. */
module Salsa {
  import opened Basics

  /** Byte `offset` of keystream block number `block`, for one key and nonce. */
  type Keystream = (nat, nat) -> byte

  const BLOCK := 64
  const POOL_SIZE := 4108

  // ---------- exclusive or ----------

  function XorBits(a: nat, b: nat, n: nat): nat {
    if n == 0 then 0 else (a + b) % 2 + 2 * XorBits(a / 2, b / 2, n - 1)
  }

  function Xor(a: byte, b: byte): byte {
    XorRange(a, b, 8);
    XorBits(a, b, 8)
  }

  lemma {:induction false} XorRange(a: nat, b: nat, n: nat)
    ensures XorBits(a, b, n) < Pow2(n)
    ensures Pow2(8) == 256
  {
    if n > 0 {
      XorRange(a / 2, b / 2, n - 1);
    }
    assert Pow2(8) == 2 * Pow2(7) == 4 * Pow2(6) == 8 * Pow2(5) == 16 * Pow2(4);
    assert Pow2(4) == 2 * Pow2(3) == 4 * Pow2(2);
  }

  /** Bit `i` of `x`. */
  function Bit(x: nat, i: nat): nat {
    (x / Pow2(i)) % 2
  }

  /** `c` is the exclusive or of `a` and `k`: each bit is set exactly when the two differ there. */
  predicate IsXor(c: byte, a: byte, k: byte) {
    forall i :: 0 <= i < 8 ==> (Bit(c, i) == 1 <==> Bit(a, i) != Bit(k, i))
  }

  lemma PowersOf2()
    ensures Pow2(0) == 1 && Pow2(1) == 2 && Pow2(2) == 4 && Pow2(3) == 8
    ensures Pow2(4) == 16 && Pow2(5) == 32 && Pow2(6) == 64 && Pow2(7) == 128
  {
    assert Pow2(3) == 2 * Pow2(2) && Pow2(4) == 2 * Pow2(3) && Pow2(5) == 2 * Pow2(4);
    assert Pow2(6) == 2 * Pow2(5) && Pow2(7) == 2 * Pow2(6);
  }

  lemma HalfThenRest(x: nat)
    ensures x / 4 == (x / 2) / 2 && x / 8 == (x / 2) / 4 && x / 16 == (x / 2) / 8
    ensures x / 32 == (x / 2) / 16 && x / 64 == (x / 2) / 32 && x / 128 == (x / 2) / 64
  {
  }

  lemma BitOfHalf(x: nat, i: nat)
    requires 0 < i < 8
    ensures Bit(x, i) == Bit(x / 2, i - 1)
  {
    PowersOf2();
    HalfThenRest(x);
  }

  lemma LowBit(x: nat)
    ensures Bit(x, 0) == x % 2
  {
    assert Pow2(0) == 1;
  }

  lemma SumParity(a: nat, b: nat, y: nat)
    ensures var x := (a + b) % 2 + 2 * y; x / 2 == y && x % 2 == (a % 2 + b % 2) % 2
  {
  }

  lemma XorBitsParts(a: nat, b: nat, n: nat)
    requires 0 < n
    ensures XorBits(a, b, n) / 2 == XorBits(a / 2, b / 2, n - 1)
    ensures XorBits(a, b, n) % 2 == (a % 2 + b % 2) % 2
  {
    SumParity(a, b, XorBits(a / 2, b / 2, n - 1));
  }

  lemma BitFromHalves(x: nat, a: nat, b: nat, i: nat)
    requires 0 < i < 8 && Bit(x / 2, i - 1) == (Bit(a / 2, i - 1) + Bit(b / 2, i - 1)) % 2
    ensures Bit(x, i) == (Bit(a, i) + Bit(b, i)) % 2
  {
    BitOfHalf(x, i);
    BitOfHalf(a, i);
    BitOfHalf(b, i);
  }

  lemma XorLowBit(a: nat, b: nat, n: nat)
    requires 0 < n
    ensures Bit(XorBits(a, b, n), 0) == (Bit(a, 0) + Bit(b, 0)) % 2
  {
    XorBitsParts(a, b, n);
    LowBit(XorBits(a, b, n));
    LowBit(a);
    LowBit(b);
  }

  lemma {:induction false} XorBitsAt(a: nat, b: nat, n: nat, i: nat)
    requires i < n <= 8
    ensures Bit(XorBits(a, b, n), i) == (Bit(a, i) + Bit(b, i)) % 2
    decreases n
  {
    if i == 0 {
      XorLowBit(a, b, n);
    } else {
      XorBitsAt(a / 2, b / 2, n - 1, i - 1);
      XorBitsParts(a, b, n);
      BitFromHalves(XorBits(a, b, n), a, b, i);
    }
  }

  lemma XorIsXor(a: byte, k: byte)
    ensures IsXor(Xor(a, k), a, k)
  {
    XorRange(a, k, 8);
    forall i | 0 <= i < 8
      ensures Bit(Xor(a, k), i) == 1 <==> Bit(a, i) != Bit(k, i)
    {
      XorBitsAt(a, k, 8, i);
    }
  }

  lemma Parity(a: nat, k: nat, y: nat)
    ensures var x := (a + k) % 2 + 2 * y; x / 2 == y && (x + k) % 2 == a % 2
  {
  }

  lemma {:induction false} XorBitsInvolutive(a: nat, k: nat, n: nat)
    requires a < Pow2(n)
    ensures XorBits(XorBits(a, k, n), k, n) == a
  {
    if n > 0 {
      Parity(a, k, XorBits(a / 2, k / 2, n - 1));
      XorBitsInvolutive(a / 2, k / 2, n - 1);
    }
  }

  lemma XorInvolutive(a: byte, k: byte)
    ensures Xor(Xor(a, k), k) == a
  {
    XorRange(a, k, 8);
    XorBitsInvolutive(a, k, 8);
  }

  // ---------- the stream as a function ----------

  /** The keystream byte at position `p`. */
  function KeyAt(ks: Keystream, p: nat): byte {
    ks(p / BLOCK, p % BLOCK)
  }

  /** What enciphering `src` from position `from` gives. */
  function Stream(ks: Keystream, from: nat, src: bytes): bytes {
    seq(|src|, i requires 0 <= i < |src| => Xor(src[i], KeyAt(ks, from + i)))
  }

  /** Byte `i` of `out` is `src[i]` xor byte `from + i` of the keystream, that is byte `(from + i) % 64` of its block
      number `(from + i) / 64`. */
  predicate IsEnciphered(out: bytes, ks: Keystream, from: nat, src: bytes) {
    |out| <= |src| && forall i :: 0 <= i < |out| ==> IsXor(out[i], src[i], ks((from + i) / 64, (from + i) % 64))
  }

  lemma StreamEnciphers(ks: Keystream, from: nat, src: bytes, n: nat)
    requires n <= |src|
    ensures IsEnciphered(Stream(ks, from, src)[..n], ks, from, src)
  {
    forall i | 0 <= i < n
      ensures IsXor(Stream(ks, from, src)[i], src[i], ks((from + i) / 64, (from + i) % 64))
    {
      XorIsXor(src[i], KeyAt(ks, from + i));
    }
  }

  /** The results of successive calls, joined. */
  function StreamChunks(ks: Keystream, from: nat, chunks: seq<bytes>): bytes {
    if chunks == [] then []
    else
      var front := chunks[..|chunks| - 1];
      StreamChunks(ks, from, front) + Stream(ks, from + |Concat(front)|, chunks[|chunks| - 1])
  }

  /** However the input is cut, successive calls give what one call on the whole gives. */
  lemma {:induction false} ChunkIndependence(ks: Keystream, from: nat, chunks: seq<bytes>)
    ensures StreamChunks(ks, from, chunks) == Stream(ks, from, Concat(chunks))
    decreases |chunks|
  {
    if chunks != [] {
      var front, last := chunks[..|chunks| - 1], chunks[|chunks| - 1];
      ChunkIndependence(ks, from, front);
      StreamSplit(ks, from, Concat(front), last);
      assert Concat(chunks) == Concat(front) + last;
      assert StreamChunks(ks, from, chunks) == StreamChunks(ks, from, front) + Stream(ks, from + |Concat(front)|, last);
    }
  }

  lemma StreamSplit(ks: Keystream, from: nat, a: bytes, b: bytes)
    ensures Stream(ks, from, a + b) == Stream(ks, from, a) + Stream(ks, from + |a|, b)
  {
    forall i | |a| <= i < |a + b|
      ensures Stream(ks, from, a + b)[i] == Stream(ks, from + |a|, b)[i - |a|]
    {
      assert from + i == from + |a| + (i - |a|);
    }
  }

  lemma StreamChunksSnoc(ks: Keystream, from: nat, front: seq<bytes>, last: bytes)
    ensures StreamChunks(ks, from, front + [last])
            == StreamChunks(ks, from, front) + Stream(ks, from + |Concat(front)|, last)
  {
    var all := front + [last];
    assert all[..|all| - 1] == front && all[|all| - 1] == last;
  }

  lemma StreamChunksGrow(ks: Keystream, from: nat, chunks: seq<bytes>, i: nat)
    requires i < |chunks|
    ensures StreamChunks(ks, from, chunks[..i + 1])
            == StreamChunks(ks, from, chunks[..i]) + Stream(ks, from + |Concat(chunks[..i])|, chunks[i])
    ensures |Concat(chunks[..i + 1])| == |Concat(chunks[..i])| + |chunks[i]|
  {
    ConcatTake(chunks, i);
    assert chunks[..i + 1] == chunks[..i] + [chunks[i]];
    StreamChunksSnoc(ks, from, chunks[..i], chunks[i]);
  }

  lemma ChunksEnciphered(ks: Keystream, from: nat, chunks: seq<bytes>)
    ensures var out := StreamChunks(ks, from, chunks);
      && out == Stream(ks, from, Concat(chunks)) && |out| == |Concat(chunks)|
      && IsEnciphered(out, ks, from, Concat(chunks))
  {
    ChunkIndependence(ks, from, chunks);
    var out := StreamChunks(ks, from, chunks);
    StreamEnciphers(ks, from, Concat(chunks), |out|);
    assert out[..|out|] == out;
  }

  /** Two equal streams undo each other. */
  lemma StreamUndoes(ks: Keystream, from: nat, src: bytes)
    ensures Stream(ks, from, Stream(ks, from, src)) == src
  {
    forall i | 0 <= i < |src|
      ensures Stream(ks, from, Stream(ks, from, src))[i] == src[i]
    {
      XorInvolutive(src[i], KeyAt(ks, from + i));
    }
  }

  // ---------- the stream object ----------

  class SalsaStream {
    const ks: Keystream
    var counter: nat

    constructor (ks: Keystream)
      ensures this.ks == ks && counter == 0
    {
      this.ks := ks;
      counter := 0;
    }

    /** `XORKeyStream`. The destination is the first `len` bytes of `dst`, whose length is its capacity; `pooled` is
        the buffer the pool would hand out, with whatever it last held.

        Whichever buffer serves, byte `i` comes out as `src[i]` xor keystream byte `counter + i`. With room in the
        destination's own capacity the work is done there, which spoils bytes behind the result, up to the
        padded size. */
    method XORKeyStream(dst: array<byte>, len: nat, src: bytes, pooled: array<byte>)
      requires len <= dst.Length && pooled.Length == POOL_SIZE && dst != pooled
      modifies dst, pooled, this`counter
      ensures counter == old(counter) + |src|
      ensures IsEnciphered(dst[..Min(len, |src|)], ks, old(counter), src)
      ensures var n := Min(len, |src|); dst[..n] == Stream(ks, old(counter), src)[..n]
      ensures var padded := |src| + old(counter) % BLOCK;
        forall i :: (if padded <= dst.Length then padded else Min(len, |src|)) <= i < dst.Length ==>
          dst[i] == old(dst[i])
    {
      var padLen := counter % BLOCK;
      var dataSize := |src| + padLen;
      var buf: array<byte>;
      if dst.Length >= dataSize {
        buf := dst;
      } else if POOL_SIZE >= dataSize {
        buf := pooled;
      } else {
        buf := new byte[dataSize];
      }
      CopyIn(buf, padLen, src);
      XorBlocks(buf, padLen, src);
      CopyOut(dst, Min(len, |src|), buf, padLen, Stream(ks, counter, src));
      StreamEnciphers(ks, counter, src, Min(len, |src|));
      counter := counter + |src|;
    }

    /** One call with room for the whole result. */
    method XORChunk(dst: array<byte>, src: bytes, pooled: array<byte>) returns (out: bytes)
      requires |src| <= dst.Length && pooled.Length == POOL_SIZE && dst != pooled
      modifies dst, pooled, this`counter
      ensures out == Stream(ks, old(counter), src) && counter == old(counter) + |src|
    {
      ghost var all := Stream(ks, counter, src);
      XORKeyStream(dst, |src|, src, pooled);
      out := dst[..|src|];
      assert out == all[..|src|] == all;
    }

    /** Calls on the chunks of a text in turn, each with buffers of its own, and their results joined: what one call on
        the whole text gives, whichever buffer served each time. */
    method XORChunks(chunks: seq<bytes>, dsts: seq<array<byte>>, pooled: seq<array<byte>>) returns (out: bytes)
      requires |dsts| == |pooled| == |chunks|
      requires forall i :: 0 <= i < |chunks| ==>
                 |chunks[i]| <= dsts[i].Length && pooled[i].Length == POOL_SIZE && dsts[i] != pooled[i]
      modifies dsts, pooled, this`counter
      ensures out == Stream(ks, old(counter), Concat(chunks))
      ensures |out| == |Concat(chunks)| && IsEnciphered(out, ks, old(counter), Concat(chunks))
      ensures counter == old(counter) + |Concat(chunks)|
    {
      out := [];
      for i := 0 to |chunks|
        invariant out == StreamChunks(ks, old(counter), chunks[..i])
        invariant counter == old(counter) + |Concat(chunks[..i])|
      {
        var piece := XORChunk(dsts[i], chunks[i], pooled[i]);
        out := out + piece;
        StreamChunksGrow(ks, old(counter), chunks, i);
      }
      assert chunks[..|chunks|] == chunks;
      ChunksEnciphered(ks, old(counter), chunks);
    }

    /** copy(buf[padLen:], src) */
    method CopyIn(buf: array<byte>, padLen: nat, src: bytes)
      requires padLen + |src| <= buf.Length
      modifies buf
      ensures buf[padLen..padLen + |src|] == src
      ensures forall i :: padLen + |src| <= i < buf.Length ==> buf[i] == old(buf[i])
    {
      for i := 0 to |src|
        invariant forall j :: 0 <= j < i ==> buf[padLen + j] == src[j]
        invariant forall j :: padLen + i <= j < buf.Length ==> buf[j] == old(buf[j])
      {
        buf[padLen + i] := src[i];
      }
    }

    /** The library call: block `counter / 64` and those after it, over the padded buffer. */
    method XorBlocks(buf: array<byte>, padLen: nat, src: bytes)
      requires padLen == counter % BLOCK && padLen + |src| <= buf.Length
      requires buf[padLen..padLen + |src|] == src
      modifies buf
      ensures buf[padLen..padLen + |src|] == Stream(ks, counter, src)
      ensures forall i :: padLen + |src| <= i < buf.Length ==> buf[i] == old(buf[i])
    {
      ghost var out := Stream(ks, counter, src);
      for j := 0 to padLen + |src|
        invariant forall i :: padLen <= i < j ==> buf[i] == out[i - padLen]
        invariant forall i :: j <= i < padLen + |src| && padLen <= i ==> buf[i] == src[i - padLen]
        invariant forall i :: padLen + |src| <= i < buf.Length ==> buf[i] == old(buf[i])
      {
        var c := Xor(buf[j], ks(counter / BLOCK + j / BLOCK, j % BLOCK));
        if padLen <= j {
          BlockByte(ks, counter, src, j);
          assert c == out[j - padLen];
        }
        buf[j] := c;
      }
    }

    /** copy(dst, buf[padLen:]), where `buf` may be `dst` itself */
    method CopyOut(dst: array<byte>, n: nat, buf: array<byte>, padLen: nat, ghost out: bytes)
      requires n <= dst.Length && n <= |out| && padLen + |out| <= buf.Length
      requires buf[padLen..padLen + |out|] == out
      modifies dst
      ensures dst[..n] == out[..n]
      ensures forall i :: n <= i < dst.Length ==> dst[i] == old(dst[i])
    {
      for i := 0 to n
        invariant forall j :: 0 <= j < i ==> dst[j] == out[j]
        invariant forall j :: i <= j < n ==> buf[padLen + j] == out[j]
        invariant forall j :: i <= j < dst.Length ==> dst[j] == old(dst[j])
      {
        dst[i] := buf[padLen + i];
      }
    }
  }

  /** Byte `j` of the padded buffer meets the keystream byte of its place. */
  lemma BlockByte(ks: Keystream, counter: nat, src: bytes, j: nat)
    requires counter % BLOCK <= j < counter % BLOCK + |src|
    ensures var i := j - counter % BLOCK;
      Xor(src[i], ks(counter / BLOCK + j / BLOCK, j % BLOCK)) == Stream(ks, counter, src)[i]
  {
    PositionOf(counter, j - counter % BLOCK);
  }

  /** Position `counter + i` of the stream is byte `counter % 64 + i` of the padded buffer. */
  lemma PositionOf(counter: nat, i: nat)
    ensures (counter + i) / BLOCK == counter / BLOCK + (counter % BLOCK + i) / BLOCK
    ensures (counter + i) % BLOCK == (counter % BLOCK + i) % BLOCK
  {
  }
}
