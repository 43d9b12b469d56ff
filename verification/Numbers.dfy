/** Integer widths of the runtime and the saturating operations on them. */
module Numbers {

  const U32_MAX: nat := 0xFFFF_FFFF
  const U64_MAX: nat := 0xFFFF_FFFF_FFFF_FFFF
  const U128_MAX: nat := 0xFFFF_FFFF_FFFF_FFFF_FFFF_FFFF_FFFF_FFFF

  /** The accuracy of a `Perquintill`. */
  const QUINTILLION: nat := 1_000_000_000_000_000_000

  /** Token amounts are `u128`. */
  type Balance = x: int | 0 <= x <= U128_MAX

  /** Draw weights are `u32`. */
  type U32 = x: int | 0 <= x <= U32_MAX

  /** Block numbers are `u64`. */
  type BlockNumber = x: int | 0 <= x <= U64_MAX

  datatype Option<+T> = None | Some(value: T)

  function Min(a: int, b: int): int { if a < b then a else b }

  function Max(a: int, b: int): int { if a < b then b else a }

  /** `saturating_add` at a given width. */
  function SatAddAt(a: nat, b: nat, limit: nat): nat { Min(a + b, limit) }

  /** `saturating_add` on balances. */
  function SatAdd(a: Balance, b: Balance): Balance { Min(a + b, U128_MAX) }

  /** `saturating_sub` on unsigned values. */
  function SatSub(a: nat, b: nat): nat { if b <= a then a - b else 0 }

  /** `saturating_add` on block numbers. */
  function SatAddBlock(a: BlockNumber, b: BlockNumber): BlockNumber { Min(a + b, U64_MAX) }

  function Pow2(e: nat): nat { if e == 0 then 1 else 2 * Pow2(e - 1) }

  /** `n` times `m`, by adding. */
  function Times(n: nat, m: nat): nat { if n == 0 then 0 else Times(n - 1, m) + m }

  lemma {:induction false} TimesIsProduct(n: nat, m: nat)
    ensures Times(n, m) == n * m
  {
    if n > 0 {
      TimesIsProduct(n - 1, m);
      assert n * m == (n - 1) * m + m;
    }
  }

  lemma {:induction false} TimesAdds(a: nat, b: nat, m: nat)
    ensures Times(a + b, m) == Times(a, m) + Times(b, m)
    decreases b
  {
    if b > 0 {
      TimesAdds(a, b - 1, m);
    }
  }

  lemma {:induction false} TimesMono(a: nat, b: nat, m: nat)
    requires a <= b
    ensures Times(a, m) <= Times(b, m)
    decreases b
  {
    if a < b {
      TimesMono(a, b - 1, m);
    }
  }

  lemma {:induction false} MulMono(a: int, b: int, c: nat)
    requires a <= b
    ensures a * c <= b * c
  {
    assert (b - a) * c >= 0;
  }

  lemma {:induction false} Distribute(a: int, b: int, m: int)
    ensures (a + b) * m == a * m + b * m && m * (a + b) == m * a + m * b
  {
  }

  lemma {:induction false} Cancel(a: int, b: int, m: nat)
    ensures a * m < b * m ==> a < b
    ensures 0 < m && a * m <= b * m ==> a <= b
  {
    if b <= a {
      MulMono(b, a, m);
    }
    if b < a {
      MulMono(b + 1, a, m);
      Distribute(b, 1, m);
    }
  }

  lemma {:induction false} ModOfMultiple(k: nat, m: nat)
    requires 0 < m
    ensures (k * m) % m == 0
  {
    var q, r := (k * m) / m, (k * m) % m;
    assert m * (k - q) == r;
    if k - q >= 1 {
      MulMono(1, k - q, m);
    } else if k - q <= -1 {
      MulMono(k - q, -1, m);
    }
  }
}
