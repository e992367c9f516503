/** Exponentiation by squaring modulo 2^256, common/math/big.go. A big integer is a heap
    object: Exp multiplies its first argument in place. */
module BigMath {

  class BigInt {
    var value: int

    constructor (v: int)
      ensures value == v
    {
      value := v;
    }
  }

  function Pow(b: int, e: nat): int
  {
    if e == 0 then 1 else b * Pow(b, e - 1)
  }

  function Pow2(e: nat): (p: nat)
    ensures p >= e + 1
  {
    if e == 0 then 1 else 2 * Pow2(e - 1)
  }

  /** The modulus 2^256 (tt256 in the source). */
  const TT256: nat := 0x1_0000_0000_0000_0000_0000_0000_0000_0000_0000_0000_0000_0000_0000_0000_0000_0000

  /** One more than the largest word. */
  const WORD: nat := 0x1_0000_0000_0000_0000

  /** x & (2^256 - 1), which for any integer in two's complement is the residue modulo 2^256. */
  function U256(x: int): (r: int)
    ensures 0 <= r < TT256
  {
    x % TT256
  }

  /** The magnitude of an exponent as words of 64 bits, the least significant first and no zero
      word at the end. */
  function Words(e: nat): (w: seq<nat>)
    ensures w == [] <==> e == 0
    ensures forall i :: 0 <= i < |w| ==> w[i] < WORD
    ensures Value(w) == e
  {
    if e == 0 then []
    else
      var w := [e % WORD] + Words(e / WORD);
      assert w[1..] == Words(e / WORD);
      w
  }

  function Value(w: seq<nat>): nat
  {
    if w == [] then 0 else w[0] + WORD * Value(w[1..])
  }

  function Abs(e: int): nat { if e < 0 then -e else e }

  // ---------------------------------------------------------------- arithmetic

  lemma Pow2Square(n: nat, v: nat)
    requires Pow2(n) == v
    ensures Pow2(n + n) == v * v
  {
    Pow2Add(n, n);
  }

  lemma Pow2Word()
    ensures Pow2(8) == 256 && Pow2(64) == WORD
  {
    assert Pow2(4) == 16;
    Pow2Square(4, 16);
    Pow2Square(8, 0x100);
    Pow2Square(16, 0x1_0000);
    Pow2Square(32, 0x1_0000_0000);
  }

  lemma Constants()
    ensures Pow2(8) == 256 && Pow2(64) == WORD && Pow2(256) == TT256
  {
    Pow2Word();
    Pow2Square(64, WORD);
    Pow2Square(128, WORD * WORD);
  }

  lemma Swap4(a: int, b: int, c: int, d: int)
    ensures (a * b) * (c * d) == (a * c) * (b * d)
  {
    assert (a * b) * (c * d) == a * (b * c) * d;
  }

  lemma Assoc(a: int, b: int, c: int)
    ensures a * (b * c) == (a * b) * c
  {
  }

  lemma {:induction false} PowAdd(b: int, x: nat, y: nat)
    ensures Pow(b, x + y) == Pow(b, x) * Pow(b, y)
  {
    if x > 0 {
      PowAdd(b, x - 1, y);
      assert Pow(b, x + y) == b * Pow(b, x - 1 + y);
      Assoc(b, Pow(b, x - 1), Pow(b, y));
    }
  }

  lemma {:induction false} Pow2Add(x: nat, y: nat)
    ensures Pow2(x + y) == Pow2(x) * Pow2(y)
  {
    if x > 0 {
      Pow2Add(x - 1, y);
      assert Pow2(x + y) == 2 * Pow2(x - 1 + y);
      Assoc(2, Pow2(x - 1), Pow2(y));
    }
  }

  lemma {:induction false} PowDoubleBase(c: int, e: nat)
    ensures Pow(2 * c, e) == Pow2(e) * Pow(c, e)
  {
    if e > 0 {
      PowDoubleBase(c, e - 1);
      Swap4(2, c, Pow2(e - 1), Pow(c, e - 1));
    }
  }

  lemma BigMultiple(t: int, m: int)
    ensures t != 0 && m > 0 ==> t * m >= m || t * m <= -m
  {
    if t > 0 && m > 0 {
      assert t * m >= m;
    } else if t < 0 && m > 0 {
      assert t * m <= -m;
    }
  }

  lemma Expand(a: int, b: int, p: int, q: int, m: int)
    ensures (a + p * m) * (b + q * m) == a * b + (a * q + p * b + (p * m) * q) * m
  {
    var u, v := p * m, q * m;
    assert (a + u) * (b + v) == a * b + a * v + u * b + u * v;
    assert a * v == (a * q) * m;
    assert u * b == (p * b) * m;
    assert u * v == (u * q) * m;
    assert (a * q + p * b + u * q) * m == (a * q) * m + (p * b) * m + (u * q) * m;
  }

  lemma AddMultiple(z: int, s: int)
    ensures (z + s * TT256) % TT256 == z % TT256
  {
  }

  lemma MulMod(x: int, y: int, a: int, b: int)
    requires x % TT256 == a % TT256 && y % TT256 == b % TT256
    ensures (x * y) % TT256 == (a * b) % TT256
  {
    var p, q := x / TT256 - a / TT256, y / TT256 - b / TT256;
    assert x == a + p * TT256 && y == b + q * TT256;
    Expand(a, b, p, q, TT256);
    AddMultiple(a * b, a * q + p * b + (p * TT256) * q);
  }

  // ---------------------------------------------------------------- the loop

  /** Where the loops stand: `done` of the exponent `e` is in the result, `place` is the weight of
      the next bit, `word` holds the `left` bits not yet used of the current word, and `above`
      is the value of the words after it. */
  ghost predicate Progress(b: int, e: nat, done: nat, place: nat, word: nat, left: nat, above: nat, result: int, base: int)
  {
    ExponentLeft(e, done, place, word, left, above) && Residues(b, done, place, result, base)
  }

  ghost predicate ExponentLeft(e: nat, done: nat, place: nat, word: nat, left: nat, above: nat) {
    place >= 1 && word < Pow2(left) && e == done + place * (word + Pow2(left) * above)
  }

  ghost predicate Residues(b: int, done: nat, place: nat, result: int, base: int) {
    result % TT256 == Pow(b, done) % TT256 && base % TT256 == Pow(b, place) % TT256
  }

  lemma Halve(place: int, half: int, bit: int)
    ensures place * (2 * half + bit) == (2 * place) * half + place * bit
  {
  }

  lemma BitSplit(place: nat, word: nat, left: nat, above: nat)
    requires left > 0
    ensures place * (word + Pow2(left) * above)
         == (2 * place) * (word / 2 + Pow2(left - 1) * above) + (if word % 2 == 1 then place else 0)
  {
    var half := word / 2 + Pow2(left - 1) * above;
    Assoc(2, Pow2(left - 1), above);
    assert word + Pow2(left) * above == 2 * half + word % 2;
    Halve(place, half, word % 2);
  }

  lemma ExponentStep(e: nat, done: nat, place: nat, word: nat, left: nat, above: nat)
    requires left > 0 && ExponentLeft(e, done, place, word, left, above)
    ensures ExponentLeft(e, if word % 2 == 1 then done + place else done, 2 * place, word / 2, left - 1, above)
  {
    BitSplit(place, word, left, above);
  }

  lemma SquareStep(b: int, place: nat, base: int)
    requires base % TT256 == Pow(b, place) % TT256
    ensures U256(base * base) % TT256 == Pow(b, 2 * place) % TT256
  {
    PowAdd(b, place, place);
    MulMod(base, base, Pow(b, place), Pow(b, place));
    ModSmall(U256(base * base));
  }

  lemma ProductStep(b: int, done: nat, place: nat, result: int, base: int)
    requires Residues(b, done, place, result, base)
    ensures U256(result * base) % TT256 == Pow(b, done + place) % TT256
  {
    PowAdd(b, done, place);
    MulMod(result, base, Pow(b, done), Pow(b, place));
    ModSmall(U256(result * base));
  }

  lemma ProgressStep(b: int, e: nat, done: nat, place: nat, word: nat, left: nat, above: nat, result: int, base: int)
    requires left > 0
    requires Progress(b, e, done, place, word, left, above, result, base)
    ensures Progress(b, e, if word % 2 == 1 then done + place else done, 2 * place, word / 2, left - 1, above,
                     if word % 2 == 1 then U256(result * base) else result, U256(base * base))
  {
    ExponentStep(e, done, place, word, left, above);
    SquareStep(b, place, base);
    if word % 2 == 1 { ProductStep(b, done, place, result, base); }
  }

  lemma ProgressStart(b: int, e: nat, words: seq<nat>)
    requires Value(words) == e
    ensures Progress(b, e, 0, 1, 0, 0, Value(words), 1, b)
  {
    assert Pow(b, 1) == b * Pow(b, 0);
  }

  lemma ProgressNextWord(b: int, e: nat, done: nat, place: nat, words: seq<nat>, k: nat, result: int, base: int)
    requires k < |words| && words[k] < WORD
    requires Progress(b, e, done, place, 0, 0, Value(words[k..]), result, base)
    ensures Progress(b, e, done, place, words[k], 64, Value(words[k + 1..]), result, base)
  {
    Constants();
    assert words[k..][1..] == words[k + 1..];
    assert Pow2(0) * Value(words[k..]) == words[k] + WORD * Value(words[k + 1..]);
  }

  lemma NothingLeft(place: nat)
    ensures place * (0 + Pow2(0) * 0) == 0
  {
  }

  lemma ModSmall(x: int)
    ensures 0 <= x < TT256 ==> x % TT256 == x
  {
  }

  lemma ProgressEnd(b: int, e: nat, done: nat, place: nat, result: int, base: int)
    requires Progress(b, e, done, place, 0, 0, 0, result, base)
    requires 0 <= result < TT256
    ensures result == Pow(b, e) % TT256
    ensures 0 <= base < TT256 ==> base == Pow(b, place) % TT256
  {
    NothingLeft(place);
    assert e == done;
    ModSmall(result);
    ModSmall(base);
  }

  /** One bit of a word. */
  method ExpBit(base: BigInt, result: BigInt, word: nat,
                ghost b: int, ghost e: nat, ghost done: nat, ghost place: nat, ghost left: nat, ghost above: nat)
    returns (ghost done': nat)
    requires base != result && left > 0 && 0 <= result.value < TT256
    requires Progress(b, e, done, place, word, left, above, result.value, base.value)
    modifies base, result
    ensures 0 <= result.value < TT256 && 0 <= base.value < TT256
    ensures Progress(b, e, done', 2 * place, word / 2, left - 1, above, result.value, base.value)
  {
    ProgressStep(b, e, done, place, word, left, above, result.value, base.value);
    done' := if word % 2 == 1 then done + place else done;
    if word % 2 == 1 {
      result.value := U256(result.value * base.value);
    }
    base.value := U256(base.value * base.value);
  }

  /** The bits of one word, of which the first has weight 2^shift. */
  method ExpWord(base: BigInt, result: BigInt, w: nat,
                 ghost b: int, ghost e: nat, ghost done: nat, ghost shift: nat, ghost above: nat)
    returns (ghost done': nat)
    requires base != result && w < WORD
    requires 0 <= result.value < TT256
    requires Progress(b, e, done, Pow2(shift), w, 64, above, result.value, base.value)
    modifies base, result
    ensures 0 <= result.value < TT256 && 0 <= base.value < TT256
    ensures Progress(b, e, done', Pow2(shift + 64), 0, 0, above, result.value, base.value)
  {
    var word := w;
    done' := done;
    for i := 0 to 64
      invariant 0 <= result.value < TT256
      invariant Progress(b, e, done', Pow2(shift + i), word, 64 - i, above, result.value, base.value)
      invariant i > 0 ==> 0 <= base.value < TT256
    {
      done' := ExpBit(base, result, word, b, e, done', Pow2(shift + i), 64 - i, above);
      assert Pow2(shift + (i + 1)) == 2 * Pow2(shift + i);
      word := word / 2;
    }
  }

  /** Exp. The result is the power modulo 2^256 for every base and every exponent, and the
      object passed as the base is left holding the last square. */
  method Exp(base: BigInt, exponent: int) returns (result: BigInt)
    modifies base
    ensures fresh(result)
    ensures result.value == Pow(old(base.value), Abs(exponent)) % TT256
    ensures base.value == BaseAfterExp(old(base.value), Abs(exponent))
  {
    var words := Words(Abs(exponent));
    ghost var b, e := base.value, Abs(exponent);
    ghost var done := 0;
    result := new BigInt(1);
    ProgressStart(b, e, words);
    assert words[0..] == words;
    for k := 0 to |words|
      invariant 0 <= result.value < TT256
      invariant Progress(b, e, done, Pow2(64 * k), 0, 0, Value(words[k..]), result.value, base.value)
      invariant if k == 0 then base.value == b else 0 <= base.value < TT256
    {
      ProgressNextWord(b, e, done, Pow2(64 * k), words, k, result.value, base.value);
      done := ExpWord(base, result, words[k], b, e, done, 64 * k, Value(words[k + 1..]));
      assert 64 * (k + 1) == 64 * k + 64;
    }
    assert words[|words|..] == [];
    ProgressEnd(b, e, done, Pow2(64 * |words|), result.value, base.value);
  }

  /** What Exp leaves in the object it was given as the base. */
  function BaseAfterExp(b: int, e: nat): int
  {
    if e == 0 then b else Pow(b, Pow2(64 * |Words(e)|)) % TT256
  }

  // ---------------------------------------------------------------- is the base preserved?

  lemma OddTimesEven(x: int, odd: int, y: int)
    requires odd % 2 == 1 && x * odd == 2 * y
    ensures x % 2 == 0
  {
    var m := odd / 2;
    assert x * odd == x * (2 * m + 1) == 2 * (x * m) + x;
  }

  /** An odd factor does not help to reach a multiple of a power of two. */
  lemma {:induction false} OddCancels(k: nat, x: int, odd: int, q: int) returns (p: int)
    requires odd % 2 == 1 && x * odd == q * Pow2(k)
    ensures x == p * Pow2(k)
  {
    if k == 0 {
      p := x;
    } else {
      assert q * Pow2(k) == 2 * (q * Pow2(k - 1));
      OddTimesEven(x, odd, q * Pow2(k - 1));
      var h := x / 2;
      assert x * odd == (2 * h) * odd == 2 * (h * odd);
      p := OddCancels(k - 1, h, odd, q);
      assert x == 2 * (p * Pow2(k - 1)) == p * Pow2(k);
    }
  }

  /** 1 + b + ... + b^(n-1). */
  function Geometric(b: int, n: nat): int
  {
    if n == 0 then 0 else 1 + b * Geometric(b, n - 1)
  }

  lemma GeometricStep(b: int, p: int, g: int)
    requires p - 1 == (b - 1) * g
    ensures b * p - 1 == (b - 1) * (1 + b * g)
  {
    assert b * p == b * ((b - 1) * g) + b;
    Assoc(b, b - 1, g);
    Assoc(b - 1, b, g);
    assert (b - 1) * (1 + b * g) == (b - 1) + (b - 1) * (b * g);
  }

  lemma {:induction false} GeometricSum(b: int, n: nat)
    ensures Pow(b, n) - 1 == (b - 1) * Geometric(b, n)
  {
    if n > 0 {
      GeometricSum(b, n - 1);
      GeometricStep(b, Pow(b, n - 1), Geometric(b, n - 1));
    }
  }

  lemma OneMore(x: int, n: int)
    requires x % 2 == n % 2
    ensures (1 + x) % 2 == (n + 1) % 2
  {
  }

  lemma OddFactor(b: int, g: int)
    requires b % 2 == 1
    ensures (b * g) % 2 == g % 2
  {
    var c := b / 2;
    Assoc(2, c, g);
    assert b * g == (2 * c) * g + g;
  }

  lemma {:induction false} GeometricParity(b: int, n: nat)
    requires b % 2 == 1
    ensures Geometric(b, n) % 2 == n % 2
  {
    if n > 0 {
      var g := Geometric(b, n - 1);
      GeometricParity(b, n - 1);
      OddFactor(b, g);
      OneMore(b * g, n - 1);
    }
  }

  lemma {:induction false} PowOneZero(n: nat)
    ensures Pow(1, n) == 1
    ensures n > 0 ==> Pow(0, n) == 0
  {
    if n > 0 { PowOneZero(n - 1); }
  }

  lemma MoveFactor(r: int, m: int, t: int)
    ensures (r * m) * t == (r * t) * m
  {
  }

  lemma EvenPowerVanishes(b: int, n: nat)
    requires b % 2 == 0 && n >= 256
    ensures Pow(b, n) % TT256 == 0
  {
    var c := b / 2;
    PowDoubleBase(c, n);
    Constants();
    Pow2Add(n - 256, 256);
    var r, t := Pow2(n - 256), Pow(c, n);
    MoveFactor(r, TT256, t);
    AddMultiple(0, r * t);
  }

  lemma OddFixedPointIsOne(b: int, n: nat, k: nat, q: int)
    requires b % 2 == 1 && 0 <= b < Pow2(k)
    requires n % 2 == 0 && n > 0
    requires Pow(b, n) == b + q * Pow2(k)
    ensures b == 1
  {
    var y := Pow(b, n - 1);
    LessOne(b, y, q * Pow2(k));
    var p := OddCancels(k, y - 1, b, q);
    GeometricSum(b, n - 1);
    GeometricParity(b, n - 1);
    var t := OddCancels(k, b - 1, Geometric(b, n - 1), p);
    NoMultiple(b - 1, t, Pow2(k));
  }

  lemma LessOne(b: int, y: int, z: int)
    requires b * y == b + z
    ensures (y - 1) * b == z
  {
  }

  lemma NoMultiple(x: int, t: int, m: int)
    requires 0 <= x < m && x == t * m
    ensures x == 0
  {
    BigMultiple(t, m);
  }

  lemma {:induction false} AtLeast256(w: nat)
    requires w >= 8
    ensures Pow2(w) >= 256 && Pow2(w) % 2 == 0
  {
    if w == 8 {
      Constants();
    } else {
      AtLeast256(w - 1);
    }
  }

  lemma ManySquarings(e: nat)
    requires e > 0
    ensures var n := Pow2(64 * |Words(e)|); n >= 256 && n % 2 == 0
  {
    AtLeast256(64 * |Words(e)|);
  }

  /** The comment on Exp promises that the base is not changed. It is kept exactly when no
      squaring happens or the base is its own square. */
  lemma BasePreservedIff(b: int, e: nat)
    ensures BaseAfterExp(b, e) == b <==> e == 0 || b == 0 || b == 1
  {
    if e > 0 {
      ManySquarings(e);
      var n := Pow2(64 * |Words(e)|);
      PowOneZero(n);
      if Pow(b, n) % TT256 == b {
        if b % 2 == 0 {
          EvenPowerVanishes(b, n);
        } else {
          var q := Pow(b, n) / TT256;
          Constants();
          OddFixedPointIsOne(b, n, 256, q);
        }
      }
    }
  }

  /** Every even base is destroyed: the caller's object reads 0 afterwards. */
  lemma EvenBaseIsLost(b: int, e: nat)
    requires b % 2 == 0 && e > 0
    ensures BaseAfterExp(b, e) == 0
  {
    ManySquarings(e);
    EvenPowerVanishes(b, Pow2(64 * |Words(e)|));
  }
}
