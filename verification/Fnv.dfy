/**
 The 64-bit FNV-1a hash of section 2 of draft-eastlake-fnv-22, with which command buffers and resources are
 named.

 Hashing can be run backwards: the step for a known byte is a bijection of the 64-bit state, because
 exclusive or undoes itself and the prime has an inverse modulo 2^64. So a difference in one byte is never
 lost again.
 */
module Fnv {
  import opened Words
  import RenderLoop
  import RenderSafety

  type Byte = b: nat | b < 256

  const OFFSET_BASIS: nat := 14695981039346656037
  const PRIME: nat := 1099511628211

  /** The inverse of the prime modulo 2^64. */
  const INVERSE: nat := 14886173955864302971

  function Step(h: nat, b: Byte): nat {
    (Xor(h, b) * PRIME) % WORD
  }

  /** The state before byte b that leads to state h. */
  function Unstep(h: nat, b: Byte): nat {
    Xor((h * INVERSE) % WORD, b)
  }

  function HashFrom(h: nat, data: seq<Byte>): nat
    decreases |data|
  {
    if data == [] then h else HashFrom(Step(h, data[0]), data[1..])
  }

  function UnhashFrom(h: nat, data: seq<Byte>): nat {
    if data == [] then h else Unstep(UnhashFrom(h, data[1..]), data[0])
  }

  function Hash(data: seq<Byte>): nat { HashFrom(OFFSET_BASIS, data) }

  /** The loop of the program, in 64-bit arithmetic. */
  method HashBytes(data: seq<Byte>) returns (h: nat)
    ensures h == Hash(data) && h < WORD
  {
    h := OFFSET_BASIS;
    var i := 0;
    while i < |data|
      invariant i <= |data| && h < WORD
      invariant HashFrom(h, data[i..]) == Hash(data)
    {
      assert data[i..][0] == data[i] && data[i..][1..] == data[i + 1..];
      h := Xor(h, data[i]);
      h := (h * PRIME) % WORD;
      i := i + 1;
    }
  }

  // ---------------------------------------------------------------- exclusive or

  lemma {:induction false} XorUndoes(a: nat, b: nat)
    ensures Xor(Xor(a, b), b) == a
    decreases a + b
  {
    if a == 0 {
      XorSelf(b);
    } else if b != 0 {
      XorUndoes(a / 2, b / 2);
      XorHalves(a, b);
      XorHalves(Xor(a, b), b);
    }
  }

  lemma {:induction false} XorSelf(a: nat)
    ensures Xor(a, a) == 0
  {
    if a != 0 {
      XorSelf(a / 2);
    }
  }

  /** Exclusive or, bit by bit, zero or not. */
  lemma XorHalves(a: nat, b: nat)
    ensures Xor(a, b) == (if a % 2 == b % 2 then 0 else 1) + 2 * Xor(a / 2, b / 2)
  {
  }

  lemma {:induction false} XorCommutes(a: nat, b: nat)
    ensures Xor(a, b) == Xor(b, a)
    decreases a + b
  {
    if a != 0 && b != 0 {
      XorCommutes(a / 2, b / 2);
    }
  }

  lemma {:induction false} XorFits(a: nat, b: nat, k: nat)
    requires a < Pow2(k) && b < Pow2(k)
    ensures Xor(a, b) < Pow2(k)
  {
    if a != 0 && b != 0 {
      XorFits(a / 2, b / 2, k - 1);
    }
  }

  lemma XorWord(h: nat, b: Byte)
    requires h < WORD
    ensures Xor(h, b) < WORD
  {
    Pow2Word();
    XorFits(h, b, 64);
  }

  // ---------------------------------------------------------------- multiplication modulo a word

  lemma ModShift(x: nat, t: int, w: nat)
    requires x < w
    ensures (x + t * w) % w == x
  {
    var n := x + t * w;
    var q, r := n / w, n % w;
    assert n == q * w + r;
    assert (q - t) * w == q * w - t * w == x - r;
    assert (t - q) * w == t * w - q * w == r - x;
    if q > t {
      MultipleAtLeast(q - t, w);
    } else if t > q {
      MultipleAtLeast(t - q, w);
    }
  }

  lemma MultipleAtLeast(k: nat, w: nat)
    requires k >= 1
    ensures k * w >= w
  {
    assert (k - 1) * w >= 0 && (k - 1) * w == k * w - w;
  }

  /** Multiplying by p and then by its inverse q is the identity modulo w. */
  lemma MulUndoes(x: nat, p: nat, q: nat, m: nat, w: nat)
    requires x < w && p * q == 1 + m * w
    ensures (((x * p) % w) * q) % w == x
  {
    var k, y := (x * p) / w, (x * p) % w;
    assert x * p == k * w + y;
    assert y * q == (x * p - k * w) * q == x * (p * q) - k * w * q;
    assert x * (p * q) == x + x * m * w by { Distribute(x, m, w); assert x * (p * q) == x * (1 + m * w); }
    assert k * w * q == (k * q) * w;
    assert y * q == x + (x * m - k * q) * w;
    ModShift(x, x * m - k * q, w);
  }

  lemma Distribute(x: int, m: int, w: int)
    ensures x * (1 + m * w) == x + x * m * w
  {
  }

  lemma InverseIs()
    ensures PRIME * INVERSE == 1 + 887285111055 * WORD
  {
  }

  /** A step can be undone, and undoing can be done again. */
  lemma StepUndoes(h: nat, b: Byte)
    requires h < WORD
    ensures Step(h, b) < WORD && Unstep(Step(h, b), b) == h
    ensures Unstep(h, b) < WORD && Step(Unstep(h, b), b) == h
  {
    InverseIs();
    XorWord(h, b);
    MulUndoes(Xor(h, b), PRIME, INVERSE, 887285111055, WORD);
    XorUndoes(h, b);
    var y := (h * INVERSE) % WORD;
    XorWord(y, b);
    MulUndoes(h, INVERSE, PRIME, 887285111055, WORD);
    XorUndoes(y, b);
  }

  // ---------------------------------------------------------------- strings

  /** Hashing a string can be undone from either end of the equation. */
  lemma {:induction false} HashUndoes(h: nat, data: seq<Byte>)
    requires h < WORD
    ensures HashFrom(h, data) < WORD && UnhashFrom(HashFrom(h, data), data) == h
    decreases |data|
  {
    if data != [] {
      StepUndoes(h, data[0]);
      HashUndoes(Step(h, data[0]), data[1..]);
    }
  }

  lemma {:induction false} UnhashUndoes(h: nat, data: seq<Byte>)
    requires h < WORD
    ensures UnhashFrom(h, data) < WORD && HashFrom(UnhashFrom(h, data), data) == h
    decreases |data|
  {
    if data != [] {
      UnhashUndoes(h, data[1..]);
      StepUndoes(UnhashFrom(h, data[1..]), data[0]);
    }
  }

  /** From one state, different bytes lead to different states. */
  lemma StepTellsBytes(h: nat, a: Byte, b: Byte)
    requires h < WORD && a != b
    ensures Step(h, a) != Step(h, b)
  {
    InverseIs();
    XorWord(h, a);
    XorWord(h, b);
    MulUndoes(Xor(h, a), PRIME, INVERSE, 887285111055, WORD);
    MulUndoes(Xor(h, b), PRIME, INVERSE, 887285111055, WORD);
    XorCommutes(h, a);
    XorCommutes(h, b);
    XorUndoes(a, h);
    XorUndoes(b, h);
  }

  /** Two strings that differ in exactly one byte never collide, from any state. */
  lemma {:induction false} OneByteTold(h: nat, data: seq<Byte>, i: nat, b: Byte)
    requires h < WORD && i < |data| && data[i] != b
    ensures HashFrom(h, data) != HashFrom(h, data[i := b])
    decreases |data|
  {
    var other := data[i := b];
    StepUndoes(h, data[0]);
    if i == 0 {
      assert other[1..] == data[1..];
      StepTellsBytes(h, data[0], b);
      StepUndoes(h, b);
      HashUndoes(Step(h, data[0]), data[1..]);
      HashUndoes(Step(h, b), data[1..]);
    } else {
      assert other[1..] == data[1..][i - 1 := b];
      OneByteTold(Step(h, data[0]), data[1..], i - 1, b);
    }
  }

  // ---------------------------------------------------------------- the hash the program writes down

  /** The lowest bit of an exclusive or. */
  function Differ(a: nat, b: nat): nat {
    if a % 2 == b % 2 then 0 else 1
  }

  /** The exclusive or with a letter, its lowest bits written out. */
  function Mixed(h: nat, b: nat): nat {
    var h1, h2, h3, b1, b2, b3 := h / 2, h / 4, h / 8, b / 2, b / 4, b / 8;
    var h4, h5, h6, b4, b5, b6 := h / 16, h / 32, h / 64, b / 16, b / 32, b / 64;
    Differ(h, b) + 2 * Differ(h1, b1) + 4 * Differ(h2, b2) + 8 * Differ(h3, b3)
    + 16 * Differ(h4, b4) + 32 * Differ(h5, b5) + 64 * Differ(h6, b6) + 128 * (h / 128)
  }

  lemma TwoBits(a: nat, b: nat)
    ensures Xor(a, b) == Differ(a, b) + 2 * Differ(a / 2, b / 2) + 4 * Xor(a / 4, b / 4)
  {
    XorHalves(a, b);
    XorHalves(a / 2, b / 2);
    assert a / 2 / 2 == a / 4 && b / 2 / 2 == b / 4;
  }

  lemma Quarters(a: nat)
    ensures a / 4 / 2 == a / 8 && a / 4 / 4 == a / 16 && a / 16 / 2 == a / 32 && a / 16 / 4 == a / 64
    ensures a / 64 / 2 == a / 128
  {
  }

  lemma MixedIsXor(h: nat, b: nat)
    requires b < 128
    ensures Mixed(h, b) == Xor(h, b)
  {
    Quarters(h);
    Quarters(b);
    TwoBits(h, b);
    TwoBits(h / 4, b / 4);
    TwoBits(h / 16, b / 16);
    XorHalves(h / 64, b / 64);
    assert b / 128 == 0;
    SumOfBits(h, b, Xor(h, b), Xor(h / 4, b / 4), Xor(h / 16, b / 16), Xor(h / 64, b / 64));
  }

  lemma SumOfBits(h: nat, b: nat, x: nat, x2: nat, x4: nat, x6: nat)
    requires x == Differ(h, b) + 2 * Differ(h / 2, b / 2) + 4 * x2
    requires x2 == Differ(h / 4, b / 4) + 2 * Differ(h / 8, b / 8) + 4 * x4
    requires x4 == Differ(h / 16, b / 16) + 2 * Differ(h / 32, b / 32) + 4 * x6
    requires x6 == Differ(h / 64, b / 64) + 2 * (h / 128)
    ensures x == Mixed(h, b)
  {
  }

  lemma StepIs(h: nat, b: Byte, mixed: nat, k: nat, h': nat)
    requires b < 128 && Mixed(h, b) == mixed && mixed * PRIME == k * WORD + h' && h' < WORD
    ensures Step(h, b) == h'
  {
    MixedIsXor(h, b);
    ModShift(h', k, WORD);
  }

  lemma FiveSteps(h: nat, data: seq<Byte>, h1: nat, h2: nat, h3: nat, h4: nat)
    requires |data| == 5 && Step(h, data[0]) == h1 && Step(h1, data[1]) == h2
    requires Step(h2, data[2]) == h3 && Step(h3, data[3]) == h4
    ensures HashFrom(h, data) == Step(h4, data[4])
  {
    var d1, d2, d3, d4 := data[1..], data[2..], data[3..], data[4..];
    assert d1[1..] == d2 && d2[1..] == d3 && d3[1..] == d4 && d4[1..] == [];
    assert HashFrom(h4, d4) == HashFrom(Step(h4, data[4]), []);
    assert HashFrom(h3, d3) == HashFrom(h4, d4);
    assert HashFrom(h2, d2) == HashFrom(h3, d3);
    assert HashFrom(h1, d1) == HashFrom(h2, d2);
  }

  const EMPTY: seq<Byte> := [101, 109, 112, 116, 121]

  lemma FirstLetters(name: seq<Byte>)
    requires name == EMPTY
    ensures Step(OFFSET_BASIS, name[0]) == 12638182802509129152
    ensures Step(12638182802509129152, name[1]) == 616490705241064695
  {
    StepIs(OFFSET_BASIS, name[0], 14695981039346656064, 875948729822, 12638182802509129152);
    StepIs(12638182802509129152, name[1], 12638182802509129133, 753294396848, 616490705241064695);
  }

  lemma ThirdLetter(name: seq<Byte>)
    requires name == EMPTY
    ensures Step(616490705241064695, name[2]) == 14045611340577337701
  {
    StepIs(616490705241064695, name[2], 616490705241064583, 36745709507, 14045611340577337701);
  }

  lemma FourthLetter(name: seq<Byte>)
    requires name == EMPTY
    ensures Step(14045611340577337701, name[3]) == 9693020046342561763
  {
    StepIs(14045611340577337701, name[3], 14045611340577337617, 837183674939, 9693020046342561763);
  }

  lemma LastLetter(name: seq<Byte>)
    requires name == EMPTY
    ensures Step(9693020046342561763, name[4]) == 10398793620191490734
  {
    StepIs(9693020046342561763, name[4], 9693020046342561690, 577749016891, 10398793620191490734);
  }

  /** The default name of a staging buffer, the letters of "empty", has the hash its declaration notes. */
  lemma EmptyHash(name: seq<Byte>)
    requires name == EMPTY
    ensures Hash(name) == 10398793620191490734
  {
    FirstLetters(name);
    ThirdLetter(name);
    FourthLetter(name);
    LastLetter(name);
    FiveSteps(OFFSET_BASIS, name, 12638182802509129152, 616490705241064695, 14045611340577337701, 9693020046342561763);
  }

  // ---------------------------------------------------------------- the names of the command buffers

  /** Names that differ only in their last byte have different hashes. */
  lemma LastByteTold(name: seq<Byte>, a: Byte, b: Byte)
    requires a != b
    ensures Hash(name + [a]) != Hash(name + [b])
  {
    assert (name + [a])[|name| := b] == name + [b];
    OneByteTold(OFFSET_BASIS, name + [a], |name|, b);
  }

  /** The name of a slot: a prefix, which the program takes to be "Prim", and a digit. */
  function SlotName(prefix: seq<Byte>, i: nat): seq<Byte>
    requires i < 10
  {
    prefix + [48 + i]
  }

  /** The keys of the first ten slots are different. */
  lemma SlotNamesTold(prefix: seq<Byte>, i: nat, j: nat)
    requires i < 10 && j < 10 && i != j
    ensures Hash(SlotName(prefix, i)) != Hash(SlotName(prefix, j))
  {
    LastByteTold(prefix, 48 + i, 48 + j);
  }

  /** So with up to ten slots no pending command buffer is ever recorded again. */
  lemma TenSlotsRecordSafely(prefix: seq<Byte>, n: nat, ids: nat -> nat)
    requires 0 < n <= 10
    requires forall i: nat | i < n :: ids(i) == Hash(SlotName(prefix, i))
    ensures RenderSafety.RecordsSafely(n, ids)
  {
    forall i: nat, j: nat | i < n && j < n && ids(i) == ids(j) ensures i == j {
      if i != j { SlotNamesTold(prefix, i, j); }
    }
    RenderSafety.RecordsSafelyExactly(n, ids);
  }
}
