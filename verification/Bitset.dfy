/** Sets of small numbers, packed into 64-bit words.  A word is the sequence of its bits, lowest first. */
module Bitset {

  const ZERO: seq<bool> := seq(64, _ => false)

  type Word = w: seq<bool> | |w| == 64 witness ZERO

  type Bitset = seq<Word>

  /** The numbers in the set. */
  ghost function Bits(b: Bitset): (s: set<nat>)
    ensures forall p: nat :: p in s <==> Get(b, p)
  {
    set p: nat | p < 64 * |b| && Get(b, p)
  }

  function NewBitset(bits: nat): (b: Bitset)
    ensures bits <= 64 * |b|
    ensures Bits(b) == {}
  {
    seq(bits / 64 + (if bits % 64 != 0 then 1 else 0), _ => ZERO)
  }

  predicate Get(b: Bitset, pos: nat) {
    pos / 64 < |b| && b[pos / 64][pos % 64]
  }

  function Set(b: Bitset, pos: nat): (r: Bitset)
    requires pos < 64 * |b|
    ensures Bits(r) == Bits(b) + {pos}
  {
    SetAt(b, pos, true);
    b[pos / 64 := b[pos / 64][pos % 64 := true]]
  }

  function Clear(b: Bitset, pos: nat): (r: Bitset)
    requires pos < 64 * |b|
    ensures Bits(r) == Bits(b) - {pos}
  {
    SetAt(b, pos, false);
    b[pos / 64 := b[pos / 64][pos % 64 := false]]
  }

  lemma SetAt(b: Bitset, pos: nat, on: bool)
    requires pos < 64 * |b|
    ensures var r: Bitset := b[pos / 64 := b[pos / 64][pos % 64 := on]];
            forall p: nat :: Get(r, p) <==> if p == pos then on else Get(b, p)
  {
  }

  /** Clearing a bit that was set last brings back the very same words. */
  lemma ClearUndoesSet(b: Bitset, pos: nat)
    requires pos < 64 * |b| && pos !in Bits(b)
    ensures Clear(Set(b, pos), pos) == b
  {
    assert Clear(Set(b, pos), pos)[pos / 64] == b[pos / 64];
  }

  function OnesCount(w: seq<bool>): nat {
    if w == [] then 0 else (if w[0] then 1 else 0) + OnesCount(w[1..])
  }

  function Popcnt(b: Bitset): nat {
    if b == [] then 0 else OnesCount(b[0]) + Popcnt(b[1..])
  }

  /** The low k bits of n. */
  function LowBits(n: nat, k: nat): (w: seq<bool>)
    ensures |w| == k
  {
    if k == 0 then [] else [n % 2 == 1] + LowBits(n / 2, k - 1)
  }

  function Xor(v: Word, w: Word): Word {
    seq(64, i requires 0 <= i < 64 => v[i] != w[i])
  }

  function XorAll(start: Word, b: Bitset): Word
    decreases |b|
  {
    if b == [] then start else XorAll(Xor(start, b[0]), b[1..])
  }

  /** The population count, xored with every word. */
  function Hash(b: Bitset): Word {
    XorAll(LowBits(Popcnt(b), 64), b)
  }
}
