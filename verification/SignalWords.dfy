/** Signal words.  The model reads a 64-bit word as the set of its bit numbers, 0 to 63; the lemmas at
    the end say that the bit operations of UpdateState on words are the set operations on what they stand
    for. */
module SignalWords {
  type Bit = nat
  type Bits = set<Bit>

  const ONCE: Bits := set b: Bit | 0 <= b < 32  // trigger once; the others trigger again and again

  /** What UpdateState reports: the bits that were not set yet, and every multi-trigger bit. */
  function Granted(expected: Bits, emitted: Bits): Bits {
    (emitted - expected) + (emitted - ONCE)
  }

  // ---------------------------------------------------------------- the words themselves

  type Word = bv64

  const HIGH: Word := 0xffff_ffff_0000_0000   // high32bits_mask

  function Or(x: Word, y: Word): Word { x | y }
  function And(x: Word, y: Word): Word { x & y }
  function Xor(x: Word, y: Word): Word { x ^ y }

  predicate Has(x: Word, m: Word) {
    x & m == m
  }

  function BitWord(b: Bit): Word
    requires b < 64
  {
    (1 as bv64) << b
  }

  predicate At(x: Word, b: Bit)
    requires b < 64
  {
    Has(x, BitWord(b))
  }

  /** What a word stands for. */
  function BitsOf(x: Word): Bits {
    set b: Bit | 0 <= b < 64 && At(x, b)
  }

  predicate Single(m: Word) {
    m != 0 && m & (m - 1) == 0
  }

  lemma OrBit(x: Word, y: Word, m: Word)
    requires Single(m)
    ensures Has(Or(x, y), m) <==> Has(x, m) || Has(y, m)
  {
    OneBit(x, m);
    OneBit(y, m);
    assert (x | y) & m == (x & m) | (y & m);
  }

  lemma AndBit(x: Word, y: Word, m: Word)
    requires Single(m)
    ensures Has(And(x, y), m) <==> Has(x, m) && Has(y, m)
  {
    OneBit(x, m);
    OneBit(y, m);
    assert (x & y) & m == (x & m) & (y & m);
  }

  lemma NewBit(x: Word, y: Word, m: Word)
    requires Single(m)
    ensures Has(Xor(Or(x, y), x), m) <==> !Has(x, m) && Has(y, m)
  {
    OneBit(x, m);
    OneBit(y, m);
    assert ((x | y) ^ x) & m == ((x & m) | (y & m)) ^ (x & m);
  }

  lemma OneBit(x: Word, m: Word)
    requires Single(m)
    ensures x & m == 0 || x & m == m
  {}

  lemma SingleBit(b: Bit)
    requires b < 64
    ensures Single(BitWord(b)) && (Has(HIGH, BitWord(b)) <==> b >= 32)
  {}

  lemma BitOperations(x: Word, y: Word, b: Bit)
    requires b < 64
    ensures At(Or(x, y), b) <==> At(x, b) || At(y, b)
    ensures At(And(x, y), b) <==> At(x, b) && At(y, b)
    ensures At(Xor(Or(x, y), x), b) <==> !At(x, b) && At(y, b)
  {
    hide Or, And, Xor, Single, Has, BitWord;
    SingleBit(b);
    OrBit(x, y, BitWord(b));
    AndBit(x, y, BitWord(b));
    NewBit(x, y, BitWord(b));
  }

  lemma HighBit(b: Bit)
    requires b < 64
    ensures At(HIGH, b) <==> b >= 32
  {
    SingleBit(b);
  }

  /** What UpdateState stores, `expected | type`, and what it returns. */
  lemma UpdateWord(expected: Word, sig: Word)
    ensures BitsOf(Or(expected, sig)) == BitsOf(expected) + BitsOf(sig)
    ensures BitsOf(Or(Xor(Or(expected, sig), expected), And(sig, HIGH))) == Granted(BitsOf(expected), BitsOf(sig))
  {
    hide At, Or, And, Xor;
    var novel, high := Xor(Or(expected, sig), expected), And(sig, HIGH);
    forall b: Bit | b < 64
      ensures At(Or(expected, sig), b) <==> At(expected, b) || At(sig, b)
      ensures At(Or(novel, high), b) <==> (!At(expected, b) && At(sig, b)) || (At(sig, b) && b >= 32)
    {
      BitOperations(expected, sig, b);
      BitOperations(novel, high, b);
      BitOperations(sig, HIGH, b);
      HighBit(b);
    }
  }
}
