/** Powers of two, and shifting by them. */
module Powers {

  function Pow2(k: nat): nat {
    if k == 0 then 1 else 2 * Pow2(k - 1)
  }

  /** `n >> e`. */
  function Shift(n: nat, e: nat): nat {
    if e == 0 then n else Shift(n / 2, e - 1)
  }

  lemma {:induction false} Pow2Monotone(j: nat, k: nat)
    requires j <= k
    ensures Pow2(j) <= Pow2(k)
  {
    if j < k { Pow2Monotone(j, k - 1); }
  }

  lemma {:induction false} Pow2Two(k: nat)
    ensures Pow2(k + 2) == 4 * Pow2(k)
  {
    assert Pow2(k + 1) == 2 * Pow2(k);
  }

  lemma {:induction false} Pow2Ten(k: nat)
    ensures Pow2(k + 10) == 1024 * Pow2(k)
  {
    Pow2Two(k);
    Pow2Two(k + 2);
    Pow2Two(k + 4);
    Pow2Two(k + 6);
    Pow2Two(k + 8);
  }

  /** Shifting once more halves. */
  lemma {:induction false} ShiftHalves(n: nat, e: nat)
    ensures Shift(n, e + 1) == Shift(n, e) / 2
  {
    if e > 0 { ShiftHalves(n / 2, e - 1); }
  }

  /** A number of `h` bits, shifted by fewer, is between 1 and its half. */
  lemma {:induction false} ShiftRange(n: nat, e: nat, h: nat)
    requires 1 <= e < h && Pow2(h - 1) <= n
    ensures 1 <= Shift(n, e) <= n / 2
  {
    if e > 1 {
      ShiftRange(n / 2, e - 1, h - 1);
    } else {
      Pow2Monotone(1, h - 1);
    }
  }

  lemma {:induction false} ShiftTop(n: nat, h: nat)
    requires h >= 1 && Pow2(h - 1) <= n < Pow2(h)
    ensures Shift(n, h - 1) == 1
  {
    if h > 1 { ShiftTop(n / 2, h - 1); }
  }

  /** Adding `2^h` does not change a bit of smaller weight. */
  lemma {:induction false} SameBit(n: nat, e: nat, h: nat)
    requires e < h
    ensures Shift(n + Pow2(h), e) % 2 == Shift(n, e) % 2
  {
    if e > 0 {
      assert (n + Pow2(h)) / 2 == n / 2 + Pow2(h - 1);
      SameBit(n / 2, e - 1, h - 1);
    }
  }
}
