/** Values shared by every module: bytes, 16-bit sequence numbers and the protocol's constants. */
module Basics {
  type byte = b: int | 0 <= b < 256
  type bytes = seq<byte>
  type u16 = x: int | 0 <= x < 65536

  datatype Option<+T> = None | Some(value: T)

  /** Payload of one full segment (win/swnd.go:48). */
  const MSS: nat := 1442
  /** Capacity of either application buffer (win/swnd.go:52). */
  const BUFFER_SIZE: nat := 14420
  /** Upper bound on both windows (win/swnd.go:35-36). */
  const WINDOW: nat := 128
  /** How far behind the window a 16-bit number can be before it aliases: 65536 - 128. */
  const LIFETIME: nat := 65408

  function Min(a: int, b: int): int {
    if a <= b then a else b
  }

  function Max(a: int, b: int): int {
    if a >= b then a else b
  }

  /** 2 to the power of `n`. */
  function Pow2(n: nat): (r: nat)
    ensures 1 <= r
  {
    if n == 0 then 1 else 2 * Pow2(n - 1)
  }

  /** The `uint16` increment, which wraps. */
  function Inc(s: u16): u16 {
    if s == 65535 then 0 else s + 1
  }

  /** Number of increments that lead from `a` to `b`. */
  function Dist(a: u16, b: u16): nat {
    if a <= b then b - a else b - a + 65536
  }

  /** The number `n` increments after `s`. */
  function Ahead(s: u16, n: nat): (r: u16)
    requires n < 65536
    ensures Dist(s, r) == n
  {
    if s + n < 65536 then s + n else s + n - 65536
  }

  /** The 16-bit number carried by the segment with unbounded index `i`. */
  function SeqOf(i: int): u16 {
    i % 65536
  }

  lemma SeqOfInc(i: int)
    ensures SeqOf(i + 1) == Inc(SeqOf(i))
  {
  }

  /** Two indices with the same number are equal or at least a whole cycle apart. */
  lemma SeqOfInjective(i: int, j: int)
    requires SeqOf(i) == SeqOf(j)
    requires -65536 < i - j < 65536
    ensures i == j
  {
  }

  /** Distance between the numbers of two indices less than a cycle apart. */
  lemma DistSigned(i: int, j: int)
    requires -65536 < j - i < 65536
    ensures Dist(SeqOf(i), SeqOf(j)) == if i <= j then j - i else j - i + 65536
  {
  }

  /** One step closer. */
  lemma DistAfterInc(h: u16, q: u16)
    requires h != q
    ensures Dist(Inc(h), q) == Dist(h, q) - 1
  {
  }

  /** One step further. */
  lemma DistToInc(h: u16, t: u16)
    requires Dist(h, t) < 65535
    ensures Dist(h, Inc(t)) == Dist(h, t) + 1
    ensures forall q: u16 :: Dist(h, q) < Dist(h, Inc(t)) <==> Dist(h, q) < Dist(h, t) || q == t
  {
  }

  /** The number `d` steps after `SeqOf(i)`. */
  lemma SeqAtDistance(i: int, q: u16)
    ensures SeqOf(i + Dist(SeqOf(i), q)) == q
  {
  }

  /** All bytes of a list of segments, in order. */
  function Concat(chunks: seq<bytes>): bytes {
    if chunks == [] then [] else Concat(chunks[..|chunks| - 1]) + chunks[|chunks| - 1]
  }

  lemma ConcatSnoc(chunks: seq<bytes>, bs: bytes)
    ensures Concat(chunks + [bs]) == Concat(chunks) + bs
  {
    assert (chunks + [bs])[..|chunks|] == chunks;
  }

  lemma ConcatTake(chunks: seq<bytes>, n: nat)
    requires n < |chunks|
    ensures Concat(chunks[..n + 1]) == Concat(chunks[..n]) + chunks[n]
  {
    assert chunks[..n + 1] == chunks[..n] + [chunks[n]];
    ConcatSnoc(chunks[..n], chunks[n]);
  }

  lemma {:induction false} ConcatTakeIsPrefix(chunks: seq<bytes>, n: nat)
    requires n <= |chunks|
    ensures Concat(chunks[..n]) <= Concat(chunks)
    decreases |chunks| - n
  {
    if n == |chunks| {
      assert chunks[..n] == chunks;
    } else {
      ConcatTake(chunks, n);
      ConcatTakeIsPrefix(chunks, n + 1);
    }
  }
}
