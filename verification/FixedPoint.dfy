/** Fixed-point multiplication and division of unsigned 128-bit numbers with ten decimal places. */
module FixedPoint {
  import opened Numbers

  const BASE: Balance := 10_000_000_000

  datatype Error = Overflow | Underflow | DivisionByZero

  datatype Result<+T> = Ok(value: T) | Err(error: Error) {
    predicate IsFailure() { Err? }
    function PropagateFailure<U>(): Result<U>
      requires Err?
    {
      Err(error)
    }
    function Extract(): T
      requires Ok?
    {
      value
    }
  }

  // ---- Checked operations ----

  function CheckedAdd(x: Balance, y: Balance): Result<Balance> {
    if x + y <= U128_MAX then Ok(x + y) else Err(Overflow)
  }

  function CheckedSub(x: Balance, y: Balance): Result<Balance> {
    if y <= x then Ok(x - y) else Err(Underflow)
  }

  function CheckedMul(x: Balance, y: Balance): Result<Balance> {
    if x * y <= U128_MAX then Ok((x * y) as nat) else Err(Overflow)
  }

  function CheckedDiv(x: Balance, y: Balance): Result<Balance> {
    if y == 0 then Err(DivisionByZero) else Ok(x / y)
  }

  // ---- The operations ----

  function Bmul(x: Balance, y: Balance): Result<Balance> {
    var prod :- CheckedMul(x, y);
    var adjustment :- CheckedDiv(BASE, 2);
    var adjusted :- CheckedAdd(prod, adjustment);
    CheckedDiv(adjusted, BASE)
  }

  function BmulFloor(x: Balance, y: Balance): Result<Balance> {
    var prod :- CheckedMul(x, y);
    CheckedDiv(prod, BASE)
  }

  function BmulCeil(x: Balance, y: Balance): Result<Balance> {
    var prod :- CheckedMul(x, y);
    var adjustment :- CheckedSub(BASE, 1);
    var adjusted :- CheckedAdd(prod, adjustment);
    CheckedDiv(adjusted, BASE)
  }

  function Bdiv(x: Balance, y: Balance): Result<Balance> {
    var prod :- CheckedMul(x, BASE);
    var adjustment :- CheckedDiv(y, 2);
    var adjusted :- CheckedAdd(prod, adjustment);
    CheckedDiv(adjusted, y)
  }

  function BdivFloor(x: Balance, y: Balance): Result<Balance> {
    var prod :- CheckedMul(x, BASE);
    CheckedDiv(prod, y)
  }

  function BdivCeil(x: Balance, y: Balance): Result<Balance> {
    if y == 0 then Err(DivisionByZero)
    else
      var prod :- CheckedMul(x, BASE);
      var adjustment :- CheckedSub(y, 1);
      var adjusted :- CheckedAdd(prod, adjustment);
      CheckedDiv(adjusted, y)
  }

  /** The product, scaled up once more, if it fits. */
  function ScaledProduct(x: Balance, multiplier: Balance): Result<Balance> {
    var prod :- CheckedMul(x, multiplier);
    CheckedMul(prod, BASE)
  }

  function MultiplyFirst(scaled: Balance, divisor: Balance, adjustment: Balance): Result<Balance> {
    var quot :- CheckedDiv(scaled, divisor);
    var adjusted :- CheckedAdd(quot, adjustment);
    CheckedDiv(adjusted, BASE)
  }

  function DivideFirst(x: Balance, multiplier: Balance, divisor: Balance, adjustment: Balance): Result<Balance> {
    var smallest: Balance := Min(x, multiplier);
    var largest: Balance := Max(x, multiplier);
    var scaled :- CheckedMul(largest, BASE);
    var quot :- CheckedDiv(scaled, divisor);
    var prod :- CheckedMul(quot, smallest);
    var adjusted :- CheckedAdd(prod, adjustment);
    CheckedDiv(adjusted, BASE)
  }

  function BmulBdiv(x: Balance, multiplier: Balance, divisor: Balance): Result<Balance> {
    var adjustment :- CheckedDiv(BASE, 2);
    match ScaledProduct(x, multiplier)
    case Ok(scaled) => MultiplyFirst(scaled, divisor, adjustment)
    case Err(_) => DivideFirst(x, multiplier, divisor, adjustment)
  }

  // ---- Rounding ----

  /** `r` is `num / den` rounded to the nearest whole number, halves up. */
  ghost predicate IsNearest(num: nat, den: nat, r: nat) { den * (2 * r - 1) <= 2 * num < den * (2 * r + 1) }

  ghost predicate IsFloor(num: nat, den: nat, r: nat) { r * den <= num < (r + 1) * den }

  ghost predicate IsCeil(num: nat, den: nat, r: nat) { (r - 1) * den < num <= r * den }

  lemma {:induction false} NearestUnique(num: nat, den: nat, r: nat, q: nat)
    requires 0 < den && IsNearest(num, den, r) && IsNearest(num, den, q)
    ensures r == q
  {
    if r < q {
      MulMono(2 * r + 1, 2 * q - 1, den);
    } else if q < r {
      MulMono(2 * q + 1, 2 * r - 1, den);
    }
  }

  /** Adding half of the divisor, rounded down, before dividing rounds to the nearest. */
  lemma {:induction false} HalfAdded(num: nat, den: nat)
    requires 0 < den
    ensures IsNearest(num, den, (num + den / 2) / den)
  {
    var r := (num + den / 2) / den;
    assert r * den <= num + den / 2 < r * den + den;
    assert den * (2 * r - 1) == 2 * (r * den) - den;
    assert den * (2 * r + 1) == 2 * (r * den) + den;
    assert 2 * (num + den / 2) < 2 * (r * den) + 2 * den;
  }

  lemma {:induction false} AlmostAllAdded(num: nat, den: nat)
    requires 0 < den
    ensures IsCeil(num, den, (num + den - 1) / den)
  {
    var r := (num + den - 1) / den;
    assert r * den <= num + den - 1 < r * den + den;
    assert (r - 1) * den == r * den - den;
  }

  lemma {:induction false} Quotient(num: nat, den: nat)
    requires 0 < den
    ensures IsFloor(num, den, num / den)
  {
    var r := num / den;
    assert r * den <= num < r * den + den;
    assert (r + 1) * den == r * den + den;
  }

  /** Multiplication rounds as its name says, and fails exactly on overflow. */
  lemma {:induction false} BmulRounds(x: Balance, y: Balance)
    ensures Bmul(x, y).Ok? <==> x * y + BASE / 2 <= U128_MAX
    ensures BmulFloor(x, y).Ok? <==> x * y <= U128_MAX
    ensures BmulCeil(x, y).Ok? <==> x * y + BASE - 1 <= U128_MAX
    ensures Bmul(x, y).Ok? ==> IsNearest(x * y, BASE, Bmul(x, y).value)
    ensures BmulFloor(x, y).Ok? ==> IsFloor(x * y, BASE, BmulFloor(x, y).value)
    ensures BmulCeil(x, y).Ok? ==> IsCeil(x * y, BASE, BmulCeil(x, y).value)
    ensures forall e :: Bmul(x, y) == Err(e) || BmulFloor(x, y) == Err(e) || BmulCeil(x, y) == Err(e) ==> e == Overflow
  {
    HalfAdded(x * y, BASE);
    Quotient(x * y, BASE);
    AlmostAllAdded(x * y, BASE);
  }

  /** Division rounds as its name says, and fails exactly on overflow or a zero divisor. */
  lemma {:induction false} BdivRounds(x: Balance, y: Balance)
    ensures Bdiv(x, y).Ok? <==> 0 < y && x * BASE + y / 2 <= U128_MAX
    ensures BdivFloor(x, y).Ok? <==> 0 < y && x * BASE <= U128_MAX
    ensures BdivCeil(x, y).Ok? <==> 0 < y && x * BASE + y - 1 <= U128_MAX
    ensures Bdiv(x, y).Ok? ==> IsNearest(x * BASE, y, Bdiv(x, y).value)
    ensures BdivFloor(x, y).Ok? ==> IsFloor(x * BASE, y, BdivFloor(x, y).value)
    ensures BdivCeil(x, y).Ok? ==> IsCeil(x * BASE, y, BdivCeil(x, y).value)
    ensures Bdiv(x, y).Err? ==> Bdiv(x, y).error == if x * BASE + y / 2 > U128_MAX then Overflow else DivisionByZero
    ensures BdivFloor(x, y).Err? ==> BdivFloor(x, y).error == if x * BASE > U128_MAX then Overflow else DivisionByZero
    ensures BdivCeil(x, y).Err? ==> BdivCeil(x, y).error == if y == 0 then DivisionByZero else Overflow
  {
    if 0 < y {
      HalfAdded(x * BASE, y);
      Quotient(x * BASE, y);
      AlmostAllAdded(x * BASE, y);
    }
  }

  // ---- Multiplying and dividing ----

  lemma {:induction false} Spread(a: int, b: int, m: int)
    ensures (2 * a + b) * m == 2 * (a * m) + b * m
  {
  }

  lemma {:induction false} Swap(a: int, b: int, m: int)
    ensures (a * b) * m == (a * m) * b
  {
  }

  /** A bound on the rounded value, and with it on twice the exact one. */
  lemma {:induction false} FromAbove(r: nat, quot: nat, base: nat, divisor: nat, exact: nat)
    requires 0 < base && 2 * (r * base) <= 2 * quot + base && quot * divisor <= exact * base
    ensures divisor * (2 * r - 1) <= 2 * exact
  {
    MulMono(2 * (r * base), 2 * quot + base, divisor);
    Spread(quot, base, divisor);
    assert (2 * (r * base)) * divisor == 2 * ((r * base) * divisor);
    Swap(r, base, divisor);
    Spread(exact, divisor, base);
    assert (2 * (r * divisor)) * base == 2 * ((r * divisor) * base);
    LeftOf(2 * (r * divisor), 2 * exact + divisor, base);
    assert divisor * (2 * r - 1) == 2 * (r * divisor) - divisor;
  }

  lemma {:induction false} FromBelow(r: nat, quot: nat, base: nat, divisor: nat, exact: nat)
    requires 0 < base && 0 < divisor && 2 * (quot + 1) <= (2 * r + 1) * base && exact * base < (quot + 1) * divisor
    ensures 2 * exact < divisor * (2 * r + 1)
  {
    MulMono(2 * (quot + 1), (2 * r + 1) * base, divisor);
    assert (2 * (quot + 1)) * divisor == 2 * ((quot + 1) * divisor);
    Swap(2 * r + 1, base, divisor);
    assert (2 * exact) * base == 2 * (exact * base);
    LeftOfStrict(2 * exact, (2 * r + 1) * divisor, base);
  }

  /** Dividing the scaled product first loses nothing: the result is the exact quotient rounded. */
  lemma {:induction false} NestedRounding(prod: nat, divisor: nat, base: nat)
    requires 0 < divisor && 0 < base && base % 2 == 0
    ensures IsNearest(prod, divisor, (prod * base / divisor + base / 2) / base)
  {
    var quot := prod * base / divisor;
    var r := (quot + base / 2) / base;
    Quotient(prod * base, divisor);
    QuotientOfHalf(quot, base);
    FromAbove(r, quot, base, divisor, prod);
    FromBelow(r, quot, base, divisor, prod);
  }

  lemma {:induction false} QuotientOfHalf(x: nat, base: nat)
    requires 0 < base && base % 2 == 0
    ensures var r := (x + base / 2) / base;
            2 * (r * base) <= 2 * x + base && 2 * (x + 1) <= (2 * r + 1) * base
  {
    var r := (x + base / 2) / base;
    Quotient(x + base / 2, base);
    assert (r + 1) * base == r * base + base;
    assert (2 * r + 1) * base == 2 * (r * base) + base;
  }

  lemma {:induction false} LeftOf(a: int, b: int, m: nat)
    requires 0 < m && a * m <= b * m
    ensures a <= b
  {
    if b < a {
      MulMono(b + 1, a, m);
    }
  }

  lemma {:induction false} LeftOfStrict(a: int, b: int, m: nat)
    requires 0 < m && a * m < b * m
    ensures a < b
  {
    if b <= a {
      MulMono(b, a, m);
    }
  }

  /** Multiplying first is exactly rounding `x * multiplier / divisor` to the nearest. */
  lemma {:induction false} MultiplyFirstIsExact(x: Balance, multiplier: Balance, divisor: Balance)
    requires ScaledProduct(x, multiplier).Ok? && BmulBdiv(x, multiplier, divisor).Ok?
    ensures IsNearest(x * multiplier, divisor, BmulBdiv(x, multiplier, divisor).value)
  {
    NestedRounding(x * multiplier, divisor, BASE);
  }

  /** Dividing first never exceeds that, and misses the exact quotient by less than
      smallest / BASE + 1 / 2. */
  lemma {:induction false} DivideFirstBounds(smallest: nat, largest: nat, divisor: nat, base: nat)
    requires 0 < divisor && 0 < base && base % 2 == 0
    ensures var r := (largest * base / divisor * smallest + base / 2) / base;
            && divisor * (2 * r - 1) <= 2 * (smallest * largest)
            && 2 * (smallest * largest) * base < (2 * r) * base * divisor + (2 * smallest + base) * divisor
  {
    var quot := largest * base / divisor;
    var r := (quot * smallest + base / 2) / base;
    Quotient(largest * base, divisor);
    QuotientOfHalf(quot * smallest, base);
    DivideFirstAbove(smallest, largest, divisor, base, quot, r);
    Shortfall(smallest, largest, divisor, base, quot, r);
  }

  lemma {:induction false} DivideFirstAbove(smallest: nat, largest: nat, divisor: nat, base: nat, quot: nat, r: nat)
    requires 0 < base && quot * divisor <= largest * base && 2 * (r * base) <= 2 * (quot * smallest) + base
    ensures divisor * (2 * r - 1) <= 2 * (smallest * largest)
  {
    MulMono(quot * divisor, largest * base, smallest);
    Swap(quot, divisor, smallest);
    Swap(largest, base, smallest);
    assert largest * smallest == smallest * largest;
    FromAbove(r, quot * smallest, base, divisor, smallest * largest);
  }

  lemma {:induction false} Shortfall(smallest: nat, largest: nat, divisor: nat, base: nat, quot: nat, r: nat)
    requires 0 < divisor && 0 < base
    requires largest * base < (quot + 1) * divisor && 2 * (quot * smallest + 1) <= (2 * r + 1) * base
    ensures 2 * (smallest * largest) * base < (2 * r) * base * divisor + (2 * smallest + base) * divisor
  {
    var q, s := quot * smallest, smallest * divisor;
    MulMono(largest * base, (quot + 1) * divisor, smallest);
    Swap(largest, base, smallest);
    Swap(quot + 1, divisor, smallest);
    assert (quot + 1) * smallest == q + smallest;
    assert (q + smallest) * divisor == q * divisor + s;
    assert (largest * smallest) * base <= q * divisor + s;
    MulMono(2 * (q + 1), (2 * r + 1) * base, divisor);
    assert (2 * (q + 1)) * divisor == 2 * (q * divisor) + 2 * divisor;
    assert (2 * r + 1) * base == (2 * r) * base + base;
    assert ((2 * r) * base + base) * divisor == (2 * r) * base * divisor + base * divisor;
    Spread(smallest, base, divisor);
    assert largest * smallest == smallest * largest;
    assert (2 * (smallest * largest)) * base == 2 * ((smallest * largest) * base);
  }

  lemma {:induction false} DivideFirstIsBelow(x: Balance, multiplier: Balance, divisor: Balance)
    requires ScaledProduct(x, multiplier).Err? && BmulBdiv(x, multiplier, divisor).Ok?
    ensures var r := BmulBdiv(x, multiplier, divisor).value;
            && divisor * (2 * r - 1) <= 2 * (x * multiplier)
            && 2 * (x * multiplier) * BASE < (2 * r) * BASE * divisor + (2 * Min(x, multiplier) + BASE) * divisor
  {
    DivideFirstBounds(Min(x, multiplier), Max(x, multiplier), divisor, BASE);
    assert Min(x, multiplier) * Max(x, multiplier) == x * multiplier;
  }

  // ---- The round trip ----

  /** Dividing a product by its factor gives the other one back, for a factor of at least one. */
  lemma {:induction false} RoundTrip(x: Balance, y: Balance)
    requires BASE <= y && Bmul(x, y).Ok? && Bdiv(Bmul(x, y).value, y).Ok?
    ensures Bdiv(Bmul(x, y).value, y) == Ok(x)
  {
    var r := Bmul(x, y).value;
    BmulRounds(x, y);
    BdivRounds(r, y);
    hide Bmul, Bdiv;
    NearestBack(x, y, r, BASE);
    NearestUnique(r * BASE, y, Bdiv(r, y).value, x);
  }

  lemma {:induction false} NearestBack(x: nat, y: nat, r: nat, base: nat)
    requires 0 < base <= y && IsNearest(x * y, base, r)
    ensures IsNearest(r * base, y, x)
  {
    assert base * (2 * r - 1) == 2 * (r * base) - base && base * (2 * r + 1) == 2 * (r * base) + base;
    assert y * (2 * x - 1) == 2 * (x * y) - y && y * (2 * x + 1) == 2 * (x * y) + y;
    if base == y {
      assert IsNearest(x * y, base, x);
      NearestUnique(x * y, base, r, x);
    }
  }

  /** The nearest multiple of a factor below one. */
  function Scaled(x: nat, y: nat): nat { (x * y + BASE / 2) / BASE }

  lemma {:induction false} ScaledGrows(x: nat, y: nat)
    ensures Scaled(x, y) <= Scaled(x + 1, y)
  {
    assert (x + 1) * y == x * y + y;
    Quotient(x * y + BASE / 2, BASE);
    Quotient((x + 1) * y + BASE / 2, BASE);
    LeftOfStrict(Scaled(x, y), Scaled(x + 1, y) + 1, BASE);
  }

  /** Among n steps that raise the value by less than n there is one that does not raise it. */
  lemma {:induction false} StuckSomewhere(y: nat, n: nat) returns (x: nat)
    requires Scaled(n, y) < n
    ensures x < n && Scaled(x, y) == Scaled(x + 1, y)
  {
    hide Scaled;
    x := n - 1;
    ScaledGrows(x, y);
    if Scaled(x, y) != Scaled(n, y) {
      x := StuckSomewhere(y, n - 1);
    }
  }

  lemma {:induction false} SmallProduct(x: Balance, y: Balance)
    requires x <= BASE && y < BASE
    ensures Bmul(x, y) == Ok(Scaled(x, y)) && Scaled(x, y) <= BASE
  {
    MulMono(x, BASE, y);
    MulMono(y, BASE, BASE);
  }

  lemma {:induction false} SmallQuotient(r: Balance, y: Balance)
    requires r <= BASE && 0 < y < BASE
    ensures Bdiv(r, y).Ok?
  {
    MulMono(r, BASE, BASE);
  }

  /** For every x that does not overflow, dividing undoes multiplying. */
  ghost predicate Undone(y: Balance) {
    forall x: Balance :: Bmul(x, y).Ok? && Bdiv(Bmul(x, y).value, y).Ok? ==> Bdiv(Bmul(x, y).value, y) == Ok(x)
  }

  lemma {:induction false} AllUndone(y: Balance)
    requires BASE <= y
    ensures Undone(y)
  {
    hide Bmul, Bdiv;
    forall x: Balance | Bmul(x, y).Ok? && Bdiv(Bmul(x, y).value, y).Ok?
      ensures Bdiv(Bmul(x, y).value, y) == Ok(x)
    {
      RoundTrip(x, y);
    }
  }

  /** Two neighbours have the same product with a factor below one. */
  lemma {:induction false} NotAllUndone(y: Balance)
    requires 0 < y < BASE
    ensures !Undone(y)
  {
    hide Bmul, Bdiv, Scaled;
    WholeScaled(y);
    var x := StuckSomewhere(y, BASE);
    SmallProduct(x, y);
    SmallProduct(x + 1, y);
    SmallQuotient(Scaled(x, y), y);
  }

  /** The round trip works for all numbers exactly if the factor is at least one. */
  lemma {:induction false} RoundTripIff(y: Balance)
    requires 0 < y
    ensures Undone(y) <==> BASE <= y
  {
    hide Undone;
    if BASE <= y {
      AllUndone(y);
    } else {
      NotAllUndone(y);
    }
  }

  lemma {:induction false} WholeScaled(y: nat)
    ensures Scaled(BASE, y) == y
  {
    assert IsFloor(BASE * y + BASE / 2, BASE, y) by {
      assert (y + 1) * BASE == y * BASE + BASE;
    }
    Quotient(BASE * y + BASE / 2, BASE);
    FloorUnique(BASE * y + BASE / 2, BASE, Scaled(BASE, y), y);
  }

  lemma {:induction false} FloorUnique(num: nat, den: nat, r: nat, q: nat)
    requires 0 < den && IsFloor(num, den, r) && IsFloor(num, den, q)
    ensures r == q
  {
    if r < q {
      MulMono(r + 1, q, den);
    } else if q < r {
      MulMono(q + 1, r, den);
    }
  }

  /** When multiplying first fails, when dividing first does, and with which error. */
  lemma {:induction false} MultiplyFirstFails(x: Balance, multiplier: Balance, divisor: Balance)
    requires x * multiplier * BASE <= U128_MAX
    ensures ScaledProduct(x, multiplier).Ok?
    ensures BmulBdiv(x, multiplier, divisor).Ok? <==>
              0 < divisor && x * multiplier * BASE / divisor + BASE / 2 <= U128_MAX
    ensures BmulBdiv(x, multiplier, divisor).Err? ==>
              BmulBdiv(x, multiplier, divisor).error == if divisor == 0 then DivisionByZero else Overflow
  {
    MulMono(1, BASE, x * multiplier);
  }

  lemma {:induction false} DivideFirstFails(x: Balance, multiplier: Balance, divisor: Balance)
    requires x * multiplier * BASE > U128_MAX
    ensures ScaledProduct(x, multiplier).Err?
    ensures BmulBdiv(x, multiplier, divisor).Ok? <==>
              && 0 < divisor
              && Max(x, multiplier) * BASE <= U128_MAX
              && Max(x, multiplier) * BASE / divisor * Min(x, multiplier) + BASE / 2 <= U128_MAX
    ensures BmulBdiv(x, multiplier, divisor).Err? ==>
              BmulBdiv(x, multiplier, divisor).error
              == if divisor == 0 && Max(x, multiplier) * BASE <= U128_MAX then DivisionByZero else Overflow
  {
    DivideFirstOk(x, multiplier, divisor, BASE / 2);
  }

  lemma {:induction false} DivideFirstOk(x: Balance, multiplier: Balance, divisor: Balance, adjustment: Balance)
    ensures DivideFirst(x, multiplier, divisor, adjustment).Ok? <==>
              && 0 < divisor
              && Max(x, multiplier) * BASE <= U128_MAX
              && Max(x, multiplier) * BASE / divisor * Min(x, multiplier) + adjustment <= U128_MAX
    ensures DivideFirst(x, multiplier, divisor, adjustment).Err? ==>
              DivideFirst(x, multiplier, divisor, adjustment).error
              == if divisor == 0 && Max(x, multiplier) * BASE <= U128_MAX then DivisionByZero else Overflow
  {
  }
}
