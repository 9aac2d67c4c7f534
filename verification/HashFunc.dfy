/** The program's own hash of an address: one step of the FNV-1a hash on its low 32 bits. On the low 20 bits,
    which choose the first slot of a table of maximum size, it is onto. */
module HashFunc {
  import opened Arithmetic
  import opened Common
  import opened Probing

  const FNV_BASIS: nat := 2_166_136_261
  const FNV_PRIME: nat := 16_777_619

  /** The `^` operator on unsigned integers. */
  function BitXor(x: nat, y: nat): nat
    decreases x + y
  {
    if x == 0 && y == 0 then 0 else 2 * BitXor(x / 2, y / 2) + (if x % 2 != y % 2 then 1 else 0)
  }

  function HashOf(key: Addr): nat {
    BitXor(key % TWO_32, FNV_BASIS) * FNV_PRIME % TWO_32
  }

  // ---------------------------------------------------------------- exclusive or

  lemma {:induction false} XorBack(x: nat, y: nat)
    ensures BitXor(BitXor(x, y), y) == x
    decreases x + y
  {
    if x > 0 || y > 0 {
      XorBack(x / 2, y / 2);
    }
  }

  lemma XorParts(a: nat, p: nat, b: nat, q: nat)
    requires p < 2 && q < 2
    ensures BitXor(2 * a + p, 2 * b + q) == 2 * BitXor(a, b) + (if p != q then 1 else 0)
  {
    assert (2 * a + p) / 2 == a && (2 * b + q) / 2 == b;
  }

  /** The low `k` bits of a number. */
  function LowBits(x: nat, k: nat): nat {
    if k == 0 then 0 else 2 * LowBits(x / 2, k - 1) + x % 2
  }

  lemma XorHalves(x: nat, y: nat)
    ensures BitXor(x, y) / 2 == BitXor(x / 2, y / 2)
    ensures BitXor(x, y) % 2 == if x % 2 != y % 2 then 1 else 0
  {
  }

  /** The low bits of the result are those of the operands' low bits. */
  lemma {:induction false} XorLow(x: nat, y: nat, k: nat)
    ensures LowBits(BitXor(x, y), k) == BitXor(LowBits(x, k), LowBits(y, k))
    decreases k
  {
    if k > 0 {
      var a, b := LowBits(x / 2, k - 1), LowBits(y / 2, k - 1);
      XorHalves(x, y);
      XorLow(x / 2, y / 2, k - 1);
      XorParts(a, x % 2, b, y % 2);
    }
  }

  lemma {:induction false} LowWhole(x: nat, k: nat) returns (q: nat)
    ensures x == q * Pow2(k) + LowBits(x, k) && LowBits(x, k) < Pow2(k)
    decreases k
  {
    if k == 0 {
      q := x;
    } else {
      q := LowWhole(x / 2, k - 1);
      DoubleSum(x, q, Pow2(k - 1), LowBits(x / 2, k - 1));
    }
  }

  lemma {:induction false} XorZero(x: nat, y: nat)
    requires x == 0
    ensures BitXor(x, y) == y
    decreases y
  {
    if y > 0 {
      XorZero(x / 2, y / 2);
    }
  }

  lemma XorOne(x: nat, y: nat)
    requires x == 1 && y % 2 == 1
    ensures BitXor(x, y) == y - 1
  {
    XorZero(x / 2, y / 2);
  }

  lemma HashOfXor(key: Addr, x: nat, q: nat, h: nat)
    requires key < TWO_32 && BitXor(key, FNV_BASIS) == x && x * FNV_PRIME == q * TWO_32 + h && h < TWO_32
    ensures HashOf(key) == h
  {
    SmallWord(key);
    DivModUnique(x * FNV_PRIME, TWO_32, q, h);
  }

  lemma SmallWord(key: nat)
    requires key < TWO_32
    ensures key % TWO_32 == key
  {
  }

  lemma BasisTimesPrime(x: nat)
    requires x == FNV_BASIS - 1
    ensures x * FNV_PRIME == 8_461_673 * TWO_32 + 0x040C_5B8C
  {
  }

  lemma HashOfByte(key: Addr, x: nat, basis: nat)
    requires key == 1 && basis == FNV_BASIS && x == basis - 1
    ensures HashOf(key) == 0x040C_5B8C
  {
    XorOne(key, basis);
    BasisTimesPrime(x);
    HashOfXor(key, x, 8_461_673, 0x040C_5B8C);
  }

  /** The published FNV-1a hash of a byte of value one. */
  lemma HashOfOne(key: Addr)
    requires key == 1
    ensures HashOf(key) == 0x040C_5B8C
  {
    HashOfByte(key, FNV_BASIS - 1, FNV_BASIS);
  }

  // ---------------------------------------------------------------- the odd multiplier

  const LOW: nat := 1024 * 1024

  /** The multiplier times this is one more than a multiple of 2^20. */
  const INVERSE: nat := 803_995

  lemma ModTimes(x: nat, m: nat)
    ensures x * m % LOW == (x % LOW) * m % LOW
  {
    assert x * m == (x / LOW * m) * LOW + (x % LOW) * m;
    DivModShift((x % LOW) * m, x / LOW * m, LOW);
  }

  lemma LowOfWrapped(x: nat)
    ensures x % TWO_32 % LOW == x % LOW
  {
    var r := x % TWO_32;
    assert x == (x / TWO_32 * 4096 + r / LOW) * LOW + r % LOW;
    DivModUnique(x, LOW, x / TWO_32 * 4096 + r / LOW, r % LOW);
  }

  lemma Undoes(i: nat)
    requires i < LOW
    ensures (i * INVERSE % LOW) * FNV_PRIME % LOW == i
  {
    ModTimes(i * INVERSE, FNV_PRIME);
    assert i * INVERSE * FNV_PRIME == (i * 12_864_229) * LOW + i;
    DivModShift(i, i * 12_864_229, LOW);
  }

  lemma LowIsPow2() returns (k: nat)
    ensures LOW == Pow2(k)
  {
    k := 20;
    assert Pow2(5) == 32 && Pow2(10) == 32 * Pow2(5) && Pow2(15) == 32 * Pow2(10) && Pow2(20) == 32 * Pow2(15);
  }

  lemma LowMod(x: nat, k: nat)
    requires LOW == Pow2(k)
    ensures LowBits(x, k) == x % LOW
  {
    var q := LowWhole(x, k);
    DivModUnique(x, LOW, q, LowBits(x, k));
  }

  lemma XorMod(x: nat, y: nat)
    ensures BitXor(x, y) % LOW == BitXor(x % LOW, y % LOW)
  {
    var k := LowIsPow2();
    XorLow(x, y, k);
    LowMod(x, k);
    LowMod(y, k);
    LowMod(BitXor(x, y), k);
  }

  lemma SmallLow(x: nat)
    ensures x < LOW <==> x % LOW == x
  {
  }

  // ---------------------------------------------------------------- a key for every slot

  /** An address, beyond the first 2^20, whose probe starts at slot `i` of a table of maximum size. */
  function KeyAt(i: nat): Addr {
    LOW + BitXor(i * INVERSE % LOW, FNV_BASIS % LOW)
  }

  lemma XorSmall(y: nat, c: nat)
    requires y < LOW && c < LOW
    ensures BitXor(y, c) < LOW
  {
    XorMod(y, c);
    SmallLow(y);
    SmallLow(c);
    SmallLow(BitXor(y, c));
  }

  lemma KeyXor(y: nat)
    requires y < LOW
    ensures var key := LOW + BitXor(y, FNV_BASIS % LOW);
      key < TWO_32 && BitXor(key, FNV_BASIS) % LOW == y
  {
    var c := FNV_BASIS % LOW;
    var w := BitXor(y, c);
    XorSmall(y, c);
    XorMod(LOW + w, FNV_BASIS);
    DivModShift(w, 1, LOW);
    SmallLow(w);
    XorBack(y, c);
  }

  lemma TimesPrime(z: nat, i: nat)
    requires i < LOW && z % LOW == i * INVERSE % LOW
    ensures z * FNV_PRIME % TWO_32 % LOW == i
  {
    LowOfWrapped(z * FNV_PRIME);
    ModTimes(z, FNV_PRIME);
    Undoes(i);
  }

  /** Every slot of a table of maximum size is the first on the probe path of some address. */
  lemma HashesTo(i: nat)
    requires i < LOW
    ensures HashOf(KeyAt(i)) % LOW == i
  {
    KeyXor(i * INVERSE % LOW);
    SmallWord(KeyAt(i));
    TimesPrime(BitXor(KeyAt(i), FNV_BASIS), i);
  }
}
