/** Integer facts behind the luminance mip chain: powers of two, the ceiling of
    a base-2 logarithm, and the side of each mip of a power-of-two texture. */
module PowersOfTwo {

  /** 2^k. */
  function Pow2(k: nat): (r: nat)
    ensures r >= 1
  {
    if k == 0 then 1 else 2 * Pow2(k - 1)
  }

  lemma {:induction false} Pow2Add(a: nat, b: nat)
    ensures Pow2(a + b) == Pow2(a) * Pow2(b)
  {
    if a > 0 {
      Pow2Add(a - 1, b);
    }
  }

  lemma {:induction false} Pow2StrictlyIncreasing(i: nat, j: nat)
    requires i < j
    ensures Pow2(i) < Pow2(j)
  {
    if i + 1 < j {
      Pow2StrictlyIncreasing(i, j - 1);
    }
  }

  /** ceil(log2 m) for a positive integer m: the least c with m <= 2^c. */
  function CeilLog2(m: nat): (c: nat)
    requires m >= 1
    ensures m <= Pow2(c)
    ensures c > 0 ==> Pow2(c - 1) < m
  {
    if m == 1 then 0 else 1 + CeilLog2((m + 1) / 2)
  }

  /** No other exponent satisfies the two bounds that CeilLog2 promises. */
  lemma {:induction false} CeilLog2Unique(m: nat, c: nat)
    requires m >= 1
    requires m <= Pow2(c) && (c > 0 ==> Pow2(c - 1) < m)
    ensures c == CeilLog2(m)
  {
    var d := CeilLog2(m);
    if c < d {
      if c < d - 1 {
        Pow2StrictlyIncreasing(c, d - 1);
      }
    } else if d < c {
      if d < c - 1 {
        Pow2StrictlyIncreasing(d, c - 1);
      }
    }
  }

  /** The exponent of the luminance texture's side, ceil(log2 m) - 1, for the
      shorter screen side m. It is -1 when m is 1. */
  function MinPower2(m: nat): int
    requires m >= 1
  {
    CeilLog2(m) - 1
  }

  /** The luminance texture's side: 2^L, and 0 when L is -1 (a cast of 0.5 to int). */
  function MinPower2Value(L: int): nat
  {
    if L >= 0 then Pow2(L) else 0
  }

  /** For every m >= 2, L = ceil(log2 m) - 1 is exactly the L >= 0 with
      2^L < m <= 2^(L+1): the base of the chain is the largest power of two
      strictly below m. */
  lemma MinPower2Bracket(m: nat, L: nat)
    requires m >= 2
    ensures L == MinPower2(m) <==> Pow2(L) < m <= Pow2(L + 1)
  {
    if Pow2(L) < m <= Pow2(L + 1) {
      CeilLog2Unique(m, L + 1);
    }
  }

  /** Two screen sizes: a shorter side of 1080 gives 10 and 1024, one of 512 gives 8 and 256. */
  lemma MinPower2Examples()
    ensures MinPower2(1080) == 10 && MinPower2Value(MinPower2(1080)) == 1024
    ensures MinPower2(512) == 8 && MinPower2Value(MinPower2(512)) == 256
  {
    assert Pow2(10) == 1024 && Pow2(11) == 2048;
    CeilLog2Unique(1080, 11);
    assert Pow2(8) == 256 && Pow2(9) == 512;
    CeilLog2Unique(512, 9);
  }

  /** The side of mip k of a 2^L x 2^L texture (0 past the last mip, and for L = -1). */
  function LevelSize(L: int, k: nat): nat
  {
    if 0 <= L && k <= L then Pow2(L - k) else 0
  }

  /** Halving a mip's side gives the next mip's side; this is the
      `textureSize >>= 1` step of the view loops and of the reduction loop. */
  lemma LevelSizeHalves(L: int, k: nat)
    ensures LevelSize(L, k) / 2 == LevelSize(L, k + 1)
  {
    if 0 <= L && k < L {
      assert Pow2(L - k) == 2 * Pow2(L - (k + 1));
    }
  }

  /** A mip has a nonzero side exactly when it exists: k <= L. */
  lemma LevelSizePositive(L: int, k: nat)
    ensures LevelSize(L, k) > 0 <==> 0 <= L && k <= L
  {
  }

  /** The side of mip k is the base side shifted right k times: 2^L / 2^k. */
  lemma LevelSizeIsQuotient(L: nat, k: nat)
    ensures LevelSize(L, k) == Pow2(L) / Pow2(k)
  {
    if k <= L {
      Pow2Add(L - k, k);
      MulDivCancel(Pow2(L - k), Pow2(k));
    } else {
      Pow2StrictlyIncreasing(L, k);
      SmallDivIsZero(Pow2(L), Pow2(k));
    }
  }

  lemma MulDivCancel(a: nat, b: nat)
    requires b > 0
    ensures (a * b) / b == a
  {
    var q, r := (a * b) / b, (a * b) % b;
    MulBeyondUnit(a - q, b);
    assert (a - q) * b == r;
  }

  lemma MulBeyondUnit(x: int, b: nat)
    ensures x >= 1 ==> x * b >= b
    ensures x <= -1 ==> x * b + b <= 0
  {
  }

  lemma SmallDivIsZero(a: nat, b: nat)
    requires a < b
    ensures a / b == 0
  {
  }
}
