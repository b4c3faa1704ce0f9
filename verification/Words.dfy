/** Machine words as natural numbers: masking, exclusive or, and 64-bit wrap-around. */
module Words {
  import opened Slots

  const WORD: nat := 0x1_0000_0000_0000_0000

  /** The value a 64-bit unsigned counter holds after n increments from zero. */
  function Wrap(n: nat): nat { n % WORD }

  function Pow2(k: nat): nat {
    if k == 0 then 1 else 2 * Pow2(k - 1)
  }

  /** Bitwise and. */
  function And(x: nat, y: nat): nat {
    if x == 0 || y == 0 then 0
    else (x % 2) * (y % 2) + 2 * And(x / 2, y / 2)
  }

  /** Bitwise exclusive or. */
  function Xor(x: nat, y: nat): nat
    decreases x + y
  {
    if x == 0 then y
    else if y == 0 then x
    else (if x % 2 == y % 2 then 0 else 1) + 2 * Xor(x / 2, y / 2)
  }

  lemma {:induction false} Pow2Positive(k: nat)
    ensures Pow2(k) >= 1
  {
    if k > 0 { Pow2Positive(k - 1); }
  }

  /** Halving a ticket halves its cell, in a ring of an even number of cells. */
  lemma {:induction false} HalfCell(p: nat, half: nat)
    requires half > 0
    ensures Cell(p, 2 * half) == p % 2 + 2 * Cell(p / 2, half)
  {
    if p >= 2 * half {
      HalfCell(p - 2 * half, half);
      assert (p - 2 * half) / 2 == p / 2 - half;
    }
  }

  lemma OddMask(p: nat, half: nat)
    requires half >= 1
    ensures And(p, 2 * half - 1) == p % 2 + 2 * And(p / 2, half - 1)
  {
    assert (2 * half - 1) % 2 == 1 && (2 * half - 1) / 2 == half - 1;
  }

  /** What the rings rely on: masking with a power of two less one finds a ticket's cell. */
  lemma {:induction false} MaskFindsCell(p: nat, k: nat)
    ensures Pow2(k) >= 1 && And(p, Pow2(k) - 1) == Cell(p, Pow2(k))
  {
    Pow2Positive(k);
    if k > 0 {
      var half := Pow2(k - 1);
      Pow2Positive(k - 1);
      MaskFindsCell(p / 2, k - 1);
      HalfCell(p, half);
      OddMask(p, half);
    }
  }

  /** Whole laps do not change the cell. */
  lemma {:induction false} WholeLaps(p: nat, laps: nat, cap: nat)
    requires cap > 0
    ensures laps * cap >= 0 && Cell(p + laps * cap, cap) == Cell(p, cap)
  {
    if laps > 0 {
      WholeLaps(p, laps - 1, cap);
      assert laps * cap == (laps - 1) * cap + cap;
    }
  }

  lemma {:induction false} Pow2Sum(a: nat, b: nat)
    ensures Pow2(a + b) == Pow2(a) * Pow2(b)
  {
    if a > 0 { Pow2Sum(a - 1, b); }
  }

  lemma Pow2Word()
    ensures Pow2(64) == WORD
  {
    Pow2Sum(8, 8);
    Pow2Sum(16, 16);
    Pow2Sum(32, 32);
    assert Pow2(8) == 256;
  }

  /** A wrapped counter still points at the cell of the ticket it stands for. */
  lemma WrapKeepsCell(n: nat, k: nat)
    requires k <= 64
    ensures Pow2(k) >= 1 && And(Wrap(n), Pow2(k) - 1) == Cell(n, Pow2(k))
  {
    var cap := Pow2(k);
    Pow2Positive(k);
    MaskFindsCell(Wrap(n), k);
    Pow2Word();
    Pow2Sum(64 - k, k);
    var wraps := n / WORD;
    var laps := wraps * Pow2(64 - k);
    assert n == Wrap(n) + laps * cap by {
      assert n == WORD * wraps + Wrap(n);
      Associate(wraps, Pow2(64 - k), cap);
    }
    WholeLaps(Wrap(n), laps, cap);
  }

  lemma Associate(a: nat, b: nat, c: nat)
    ensures a * b * c == (b * c) * a
  {
  }

  const HALF: nat := 0x8000_0000_0000_0000

  /** A word read as a signed number. */
  function Signed(w: nat): int {
    if w < HALF then w else w - WORD
  }

  /** Subtraction of words. */
  function Minus(x: nat, y: nat): nat
    requires y < WORD
  {
    (x + (WORD - y)) % WORD
  }

  /** The signed difference of two wrapped counters is that of the numbers, if these are close enough. */
  lemma WordDifference(x: nat, y: nat)
    requires y <= x + HALF && x < y + HALF
    ensures Signed(Minus(Wrap(x), Wrap(y))) == x - y
  {
    var a, b := x / WORD, y / WORD;
    assert x == a * WORD + Wrap(x) && y == b * WORD + Wrap(y);
  }

  /** Two counters less than a whole round apart are equal if their words are. */
  lemma WordEqual(x: nat, y: nat)
    requires y <= x < y + WORD
    ensures Wrap(x) == Wrap(y) <==> x == y
  {
  }
}
