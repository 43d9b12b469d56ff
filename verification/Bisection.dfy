/** Approximating a preimage by bisection. */
module Bisection {
  import opened Numbers

  datatype Error = NoVolume | Overflow | Refused(code: nat)  // `Refused`: an error of the function itself

  datatype Result<+T> = Ok(value: T) | Err(error: Error)

  /** The sign of the difference `x - y`. */
  function DiffSign(x: nat, y: nat): int { if x == y then 0 else if y < x then 1 else -1 }

  function IsOutsideOf(t: nat, x: nat, y: nat): bool { DiffSign(x, t) * DiffSign(y, t) > 0 }

  function Dist(x: nat, y: nat): nat { if x > y then x - y else y - x }

  /** Outside means on the same side of both ends. */
  lemma {:induction false} OutsideIff(t: nat, x: nat, y: nat)
    ensures IsOutsideOf(t, x, y) <==> (t < x && t < y) || (x < t && y < t)
  {
  }

  // ---- The bracket ----

  /** The value lies strictly between the images of the ends. */
  ghost predicate Bracket(f: nat -> Result<nat>, value: nat, lo: nat, hi: nat) {
    && lo < hi && f(lo).Ok? && f(hi).Ok?
    && (f(lo).value < value < f(hi).value || f(hi).value < value < f(lo).value)
  }

  /** The size after `n` rounds of keeping the larger half. */
  function Halved(size: nat, n: nat): nat { if n == 0 then size else (Halved(size, n - 1) + 1) / 2 }

  /** Which is the size divided by 2^n, rounded up. */
  lemma {:induction false} HalvedIsCeil(size: nat, n: nat)
    ensures 0 < Pow2(n)
    ensures size <= Halved(size, n) * Pow2(n) < size + Pow2(n)
  {
    if n > 0 {
      HalvedIsCeil(size, n - 1);
      HalfStep(size, Halved(size, n - 1), Halved(size, n), Pow2(n - 1));
    }
  }

  lemma {:induction false} HalfStep(size: nat, k: nat, h: nat, p: nat)
    requires k <= 2 * h <= k + 1 && size <= k * p < size + p
    ensures size <= h * (2 * p) < size + 2 * p
  {
    assert h * (2 * p) == (2 * h) * p;
    MulMono(k, 2 * h, p);
    MulMono(2 * h, k + 1, p);
    assert (k + 1) * p == k * p + p;
  }

  lemma {:induction false} HalvedToOne(size: nat, n: nat)
    requires size <= Pow2(n)
    ensures Halved(size, n) <= 1
  {
    HalvedIsCeil(size, n);
    if Halved(size, n) >= 2 {
      MulMono(2, Halved(size, n), Pow2(n));
    }
  }

  // ---- Why the search ends ----

  datatype Why = Hit | Outside | Tolerance | Exhausted

  /** How the search ended: the last bracket, the rounds that halved it, and why. */
  datatype End = End(lo: nat, hi: nat, rounds: nat, why: Why)

  /** What a successful search returns for each reason to end. */
  ghost predicate Explains(f: nat -> Result<nat>, value: nat, min: nat, max: nat, maxIterations: nat, tol: nat,
                           preimage: nat, iterations: nat, end: End)
  {
    && min < max && f(min).Ok? && f(max).Ok?
    && (end.why.Hit? ==>
          && f(preimage) == Ok(value)
          && if iterations == 0 then preimage == min || (preimage == max && f(min) != Ok(value))
             else && min <= end.lo && end.hi <= max && Bracket(f, value, end.lo, end.hi)
                  && end.hi - end.lo <= Halved(max - min, end.rounds)
                  && preimage == (end.lo + end.hi) / 2 && iterations == end.rounds + 1 <= maxIterations)
    && (end.why.Outside? ==>
          && IsOutsideOf(value, f(min).value, f(max).value) && iterations == 0
          && preimage == if Dist(f(max).value, value) < Dist(f(min).value, value) then max else min)
    && (end.why.Tolerance? || end.why.Exhausted? ==>
          && min <= end.lo && end.hi <= max && Bracket(f, value, end.lo, end.hi)
          && (preimage == end.lo || preimage == end.hi)
          && end.hi - end.lo <= Halved(max - min, end.rounds))
    && (end.why.Tolerance? ==>
          end.hi - end.lo < tol && iterations == end.rounds + 1 <= maxIterations)
    && (end.why.Exhausted? ==>
          iterations == end.rounds == maxIterations && (0 < maxIterations ==> tol <= Halved(max - min, maxIterations - 1)))
  }

  /** Where an error can come from: an empty range, the function, or a midpoint that does not fit. */
  ghost predicate Fails(bound: nat, f: nat -> Result<nat>, min: nat, max: nat, e: Error) {
    if min >= max then e == NoVolume
    else (exists x :: min <= x <= max && f(x) == Err(e)) || (e == Overflow && bound < 2 * max - 1)
  }

  /** The round that keeps the half with the sign change, and at most the larger half. */
  lemma {:induction false} HalfKept(f: nat -> Result<nat>, value: nat, lo: nat, hi: nat)
    requires Bracket(f, value, lo, hi)
    ensures var mid := (hi + lo) / 2;
            f(mid).Ok? && f(mid).value != value ==>
              if IsOutsideOf(value, f(mid).value, f(hi).value) then Bracket(f, value, lo, mid) && mid - lo <= (hi - lo + 1) / 2
              else Bracket(f, value, mid, hi) && hi - mid <= (hi - lo + 1) / 2
  {
    var mid := (hi + lo) / 2;
    if f(mid).Ok? {
      OutsideIff(value, f(mid).value, f(hi).value);
    }
  }

  /** The loop of `calc_preimage`. */
  method Bisect(bound: nat, f: nat -> Result<nat>, value: nat, min: nat, max: nat, maxIterations: nat, tol: nat)
    returns (r: Result<(nat, nat)>, ghost end: End)
    requires Bracket(f, value, min, max)
    ensures r.Ok? ==> Explains(f, value, min, max, maxIterations, tol, r.value.0, r.value.1, end)
    ensures r.Err? ==> Fails(bound, f, min, max, r.error)
  {
    var lo: nat, hi: nat, mid: nat, fmax := min, max, min, f(max).value;
    end := End(min, max, 0, Tolerance);
    for i := 0 to maxIterations
      invariant min <= lo && hi <= max && Bracket(f, value, lo, hi) && f(hi) == Ok(fmax)
      invariant mid == lo || mid == hi
      invariant hi - lo <= Halved(max - min, i)
      invariant 0 < i ==> tol <= Halved(max - min, i - 1)
    {
      hide IsOutsideOf;
      end := End(lo, hi, i, Tolerance);
      if hi - lo < tol {
        return Ok((mid, i + 1)), end;
      }
      if hi + lo > bound {
        return Err(Overflow), end;
      }
      mid := (hi + lo) / 2;
      var atMid := f(mid);
      if atMid.Err? {
        return Err(atMid.error), end;
      }
      var fmid := atMid.value;
      if fmid == value {
        end := end.(why := Hit);
        return Ok((mid, i + 1)), end;
      }
      HalfKept(f, value, lo, hi);
      if IsOutsideOf(value, fmid, fmax) {
        hi, fmax := mid, fmid;
      } else {
        lo := mid;
      }
    }
    end := End(lo, hi, maxIterations, Exhausted);
    return Ok((mid, maxIterations)), end;
  }

  /** `calc_preimage`, over numbers up to `bound`. */
  method CalcPreimage(bound: nat, f: nat -> Result<nat>, value: nat, min: nat, max: nat, maxIterations: nat, tol: nat)
    returns (r: Result<(nat, nat)>)
    ensures r.Ok? ==> exists end :: Explains(f, value, min, max, maxIterations, tol, r.value.0, r.value.1, end)
    ensures r.Err? ==> Fails(bound, f, min, max, r.error)
  {
    if min >= max {
      return Err(NoVolume);
    }
    var atMin := f(min);
    if atMin.Err? {
      return Err(atMin.error);
    }
    var atMax := f(max);
    if atMax.Err? {
      return Err(atMax.error);
    }
    var fmin, fmax := atMin.value, atMax.value;
    if fmin == value {
      assert Explains(f, value, min, max, maxIterations, tol, min, 0, End(min, max, 0, Hit));
      return Ok((min, 0));
    } else if fmax == value {
      assert Explains(f, value, min, max, maxIterations, tol, max, 0, End(min, max, 0, Hit));
      return Ok((max, 0));
    }
    OutsideIff(value, fmin, fmax);
    if IsOutsideOf(value, fmin, fmax) {
      var nearer := if Dist(fmax, value) < Dist(fmin, value) then max else min;
      assert Explains(f, value, min, max, maxIterations, tol, nearer, 0, End(min, max, 0, Outside));
      return Ok((nearer, 0));
    }
    ghost var end;
    r, end := Bisect(bound, f, value, min, max, maxIterations, tol);
  }

  // ---- What this means for monotone functions ----

  ghost predicate Monotone(f: nat -> Result<nat>, min: nat, max: nat) {
    || (forall x, y :: min <= x <= y <= max && f(x).Ok? && f(y).Ok? ==> f(x).value <= f(y).value)
    || (forall x, y :: min <= x <= y <= max && f(x).Ok? && f(y).Ok? ==> f(y).value <= f(x).value)
  }

  /** Every exact preimage lies inside every bracket. */
  lemma {:induction false} BracketHoldsPreimages(f: nat -> Result<nat>, value: nat, min: nat, max: nat, lo: nat, hi: nat, x: nat)
    requires Monotone(f, min, max) && min <= lo && hi <= max && Bracket(f, value, lo, hi)
    requires min <= x <= max && f(x) == Ok(value)
    ensures lo < x < hi
  {
    assert f(lo).Ok? && f(x).Ok? && f(hi).Ok?;
  }

  /** A search that ends by tolerance is within the tolerance of every exact preimage. */
  lemma {:induction false} ToleranceIsClose(f: nat -> Result<nat>, value: nat, min: nat, max: nat, maxIterations: nat, tol: nat,
                                            preimage: nat, iterations: nat, end: End, x: nat)
    requires Monotone(f, min, max) && min <= x <= max && f(x) == Ok(value)
    requires Explains(f, value, min, max, maxIterations, tol, preimage, iterations, end) && end.why.Tolerance?
    ensures Dist(preimage, x) + 1 < tol
  {
    BracketHoldsPreimages(f, value, min, max, end.lo, end.hi, x);
  }

  /** A search that is cut off is within what is left of the range. */
  lemma {:induction false} ExhaustedIsClose(f: nat -> Result<nat>, value: nat, min: nat, max: nat, maxIterations: nat, tol: nat,
                                            preimage: nat, iterations: nat, end: End, x: nat)
    requires Monotone(f, min, max) && min <= x <= max && f(x) == Ok(value)
    requires Explains(f, value, min, max, maxIterations, tol, preimage, iterations, end) && end.why.Exhausted?
    ensures Dist(preimage, x) < Halved(max - min, maxIterations)
  {
    BracketHoldsPreimages(f, value, min, max, end.lo, end.hi, x);
  }

  /** If there is an exact preimage, the search of a monotone function never reports the value
      outside of the images. */
  lemma {:induction false} PreimageIsNotOutside(f: nat -> Result<nat>, value: nat, min: nat, max: nat, x: nat)
    requires Monotone(f, min, max) && min <= x <= max && f(x) == Ok(value) && f(min).Ok? && f(max).Ok?
    ensures !IsOutsideOf(value, f(min).value, f(max).value)
  {
    OutsideIff(value, f(min).value, f(max).value);
    assert f(min).Ok? && f(x).Ok? && f(max).Ok?;
  }

  /** With a tolerance of at least two and enough iterations for the size, the search is never cut
      off; with a smaller tolerance it never ends by tolerance. */
  lemma {:induction false} EnoughIterations(f: nat -> Result<nat>, value: nat, min: nat, max: nat, maxIterations: nat, tol: nat,
                                            preimage: nat, iterations: nat, end: End)
    requires Explains(f, value, min, max, maxIterations, tol, preimage, iterations, end)
    ensures 2 <= tol && 0 < maxIterations && max - min <= Pow2(maxIterations - 1) ==> !end.why.Exhausted?
    ensures tol <= 1 ==> !end.why.Tolerance?
  {
    if 0 < maxIterations && max - min <= Pow2(maxIterations - 1) {
      HalvedToOne(max - min, maxIterations - 1);
    }
  }

  /** Altogether: for a monotone function with an exact preimage in the range, the result is an
      exact hit, or within the tolerance, or within what the iterations have left of the range. With
      a tolerance of at least two and enough iterations the last case cannot occur. */
  lemma {:induction false} PreimageTheorem(f: nat -> Result<nat>, value: nat, min: nat, max: nat, maxIterations: nat, tol: nat,
                                           preimage: nat, iterations: nat, end: End, x: nat)
    requires Monotone(f, min, max) && min <= x <= max && f(x) == Ok(value)
    requires Explains(f, value, min, max, maxIterations, tol, preimage, iterations, end)
    ensures f(preimage) == Ok(value) || Dist(preimage, x) < Max(tol, Halved(max - min, maxIterations))
    ensures 2 <= tol && 0 < maxIterations && max - min <= Pow2(maxIterations - 1) ==>
              f(preimage) == Ok(value) || Dist(preimage, x) < tol
  {
    PreimageIsNotOutside(f, value, min, max, x);
    EnoughIterations(f, value, min, max, maxIterations, tol, preimage, iterations, end);
    if end.why.Tolerance? {
      ToleranceIsClose(f, value, min, max, maxIterations, tol, preimage, iterations, end, x);
    } else if end.why.Exhausted? {
      ExhaustedIsClose(f, value, min, max, maxIterations, tol, preimage, iterations, end, x);
    }
  }
}
