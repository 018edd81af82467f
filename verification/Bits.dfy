/** A bitset of 1024 words of 64 bits; a word is its binary digits, least significant first. */
module Bits {
  const NUM64BITS: int := 1024
  const BITS: int := 64 * NUM64BITS

  type Word = w: seq<bool> | |w| == 64 witness seq(64, _ => false)

  function Zero(): Word {
    seq(64, _ => false)
  }

  predicate BitAt(bits: seq<Word>, n: int)
    requires |bits| == NUM64BITS && 0 <= n < BITS
  {
    bits[n / 64][n % 64]
  }

  ghost function IdsOf(bits: seq<Word>): set<int>
    requires |bits| == NUM64BITS
  {
    set n | 0 <= n < BITS && BitAt(bits, n)
  }

  /** Writing one digit of one word changes the membership of that one number. */
  lemma IdsAfterWrite(was: seq<Word>, now: seq<Word>, n: int, b: bool)
    requires |was| == NUM64BITS && 0 <= n < BITS
    requires now == was[n / 64 := was[n / 64][n % 64 := b]]
    ensures IdsOf(now) == if b then IdsOf(was) + {n} else IdsOf(was) - {n}
  {
    forall j | 0 <= j < BITS ensures BitAt(now, j) == if j == n then b else BitAt(was, j) {
      assert j / 64 == n / 64 && j % 64 == n % 64 ==> j == n;
    }
  }

  // ---- the masks of machine words ------------------------------------------------------------

  /** Digit `i` of a machine word. */
  predicate Digit(w: bv64, i: bv64)
    requires i < 64
  {
    w & (1 << i) != 0
  }

  /** Or-ing the mask `1 << i` writes digit `i` and no other. */
  lemma OrWritesOneDigit(w: bv64, i: bv64, j: bv64)
    requires i < 64 && j < 64
    ensures Digit(w | (1 << i), j) <==> i == j || Digit(w, j)
  {
  }

  /** And-ing its complement clears digit `i` and no other. */
  lemma AndClearsOneDigit(w: bv64, i: bv64, j: bv64)
    requires i < 64 && j < 64
    ensures Digit(w & !(1 << i), j) <==> i != j && Digit(w, j)
  {
  }

  /** The test for greater than zero reads digit `i`. */
  lemma TestReadsDigit(w: bv64, i: bv64)
    requires i < 64
    ensures w & (1 << i) > 0 <==> Digit(w, i)
  {
  }

  /** The words, with the set of numbers whose bit is set. */
  class Bitset {
    const words: array<Word>
    ghost var ids: set<int>

    ghost predicate Valid()
      reads this, words
    {
      words.Length == NUM64BITS && ids == IdsOf(words[..])
    }

    constructor ()
      ensures Valid() && fresh(words) && ids == {}
    {
      words := new Word[NUM64BITS](_ => Zero());
      ids := {};
      new;
      assert forall n :: 0 <= n < BITS ==> !BitAt(words[..], n);
    }

    method SetBit(n: int)
      requires Valid() && 0 <= n < BITS
      modifies this, words
      ensures Valid() && ids == old(ids) + {n}
    {
      var nbyte, nbit := n / 64, n % 64;
      words[nbyte] := words[nbyte][nbit := true];
      IdsAfterWrite(old(words[..]), words[..], n, true);
      ids := ids + {n};
    }

    method UnsetBit(n: int)
      requires Valid() && 0 <= n < BITS
      modifies this, words
      ensures Valid() && ids == old(ids) - {n}
    {
      var nbyte, nbit := n / 64, n % 64;
      words[nbyte] := words[nbyte][nbit := false];
      IdsAfterWrite(old(words[..]), words[..], n, false);
      ids := ids - {n};
    }

    method GetBit(n: int) returns (b: bool)
      requires Valid() && 0 <= n < BITS
      ensures b <==> n in ids
    {
      var nbyte, nbit := n / 64, n % 64;
      b := words[nbyte][nbit];
      assert b == BitAt(words[..], n);
    }
  }
}
