/** The default random source of the lottery: xorshift64 is a permutation of the 64-bit words, and a
    seeded source never gets stuck at zero. */
module RandomWords {

  type Word = bv64

  const DEFAULT_SEED: Word := 0x9E37_79B9_7F4A_7C15

  function ShiftLeft13(x: Word): Word { x ^ (x << 13) }

  function ShiftRight7(x: Word): Word { x ^ (x >> 7) }

  function ShiftLeft17(x: Word): Word { x ^ (x << 17) }

  /** One xorshift64 step. */
  function NextWord(x: Word): Word {
    ShiftLeft17(ShiftRight7(ShiftLeft13(x)))
  }

  /** `Intn`: the value drawn, and the state it leaves. */
  function Intn(word: Word, n: int): (v: int)
    ensures n > 0 ==> 0 <= v < n
  {
    if n <= 0 then 0 else (NextWord(word) as int) % n
  }

  function IntnWord(word: Word, n: int): Word {
    if n <= 0 then word else NextWord(word)
  }

  /** `NewRNG` replaces a zero seed. */
  function SeedFor(seed: Word): (s: Word)
    ensures s != 0
  {
    if seed == 0 then DEFAULT_SEED else seed
  }

  function UndoLeft13(y: Word): Word { y ^ (y << 13) ^ (y << 26) ^ (y << 39) ^ (y << 52) }

  function UndoRight7(y: Word): Word {
    y ^ (y >> 7) ^ (y >> 14) ^ (y >> 21) ^ (y >> 28) ^ (y >> 35) ^ (y >> 42) ^ (y >> 49) ^ (y >> 56) ^ (y >> 63)
  }

  function UndoLeft17(y: Word): Word { y ^ (y << 17) ^ (y << 34) ^ (y << 51) }

  function PreviousWord(y: Word): Word {
    UndoLeft13(UndoRight7(UndoLeft17(y)))
  }

  // The bodies below are written out where the inverse is applied, so that the solver can cancel the
  // shifted words term by term.

  lemma Left13Cancels(x: Word)
    ensures UndoLeft13(x ^ (x << 13)) == x
    ensures ShiftLeft13(x ^ (x << 13) ^ (x << 26) ^ (x << 39) ^ (x << 52)) == x
  {
  }

  lemma Right7Cancels(x: Word)
    ensures UndoRight7(x ^ (x >> 7)) == x
    ensures ShiftRight7(x ^ (x >> 7) ^ (x >> 14) ^ (x >> 21) ^ (x >> 28) ^ (x >> 35) ^ (x >> 42) ^ (x >> 49) ^ (x >> 56) ^ (x >> 63)) == x
  {
  }

  lemma Left17Cancels(x: Word)
    ensures UndoLeft17(x ^ (x << 17)) == x
    ensures ShiftLeft17(x ^ (x << 17) ^ (x << 34) ^ (x << 51)) == x
  {
  }

  lemma Left13Undone(x: Word)
    ensures UndoLeft13(ShiftLeft13(x)) == x
  {
    hide UndoLeft13;
    Left13Cancels(x);
  }

  lemma Left13Reached(x: Word)
    ensures ShiftLeft13(UndoLeft13(x)) == x
  {
    hide ShiftLeft13;
    Left13Cancels(x);
  }

  lemma Right7Undone(x: Word)
    ensures UndoRight7(ShiftRight7(x)) == x
  {
    hide UndoRight7;
    Right7Cancels(x);
  }

  lemma Right7Reached(x: Word)
    ensures ShiftRight7(UndoRight7(x)) == x
  {
    hide ShiftRight7;
    Right7Cancels(x);
  }

  lemma Left17Undone(x: Word)
    ensures UndoLeft17(ShiftLeft17(x)) == x
  {
    hide UndoLeft17;
    Left17Cancels(x);
  }

  lemma Left17Reached(x: Word)
    ensures ShiftLeft17(UndoLeft17(x)) == x
  {
    hide ShiftLeft17;
    Left17Cancels(x);
  }

  /** A step of the random source can be undone, and every word is the result of a step. */
  lemma NextWordIsBijective(x: Word)
    ensures PreviousWord(NextWord(x)) == x
    ensures NextWord(PreviousWord(x)) == x
  {
    hide ShiftLeft13, ShiftRight7, ShiftLeft17, UndoLeft13, UndoRight7, UndoLeft17;
    Left13Undone(x);
    Right7Undone(ShiftLeft13(x));
    Left17Undone(ShiftRight7(ShiftLeft13(x)));
    Left17Reached(x);
    Right7Reached(UndoLeft17(x));
    Left13Reached(UndoRight7(UndoLeft17(x)));
  }

  function WordAfter(word: Word, draws: nat): Word {
    if draws == 0 then word else NextWord(WordAfter(word, draws - 1))
  }

  lemma ZeroIsFixed()
    ensures NextWord(0) == 0 && PreviousWord(0) == 0
  {
  }

  /** A seeded source never reaches the word zero, at which it would be stuck. */
  lemma {:induction false} NeverSticks(seed: Word, draws: nat)
    ensures WordAfter(SeedFor(seed), draws) != 0
  {
    hide NextWord, PreviousWord;
    if draws > 0 {
      NeverSticks(seed, draws - 1);
      NextWordIsBijective(WordAfter(SeedFor(seed), draws - 1));
      ZeroIsFixed();
    }
  }

  /** Two steps by number, from 1. Another order of the shifts gives other words. */
  lemma KnownSteps()
    ensures NextWord(1) == 0x4082_2041
    ensures NextWord(0x4082_2041) == 0x1000_4106_0C01_1441
  {
  }
}
