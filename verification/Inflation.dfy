/** The periodic inflation reward for the members of the court pool. */
module Inflation {
  import opened Numbers
  import opened CourtTypes
  import opened Ledger

  const BILLION: nat := 1_000_000_000

  /** Whoever has been in the pool for at least one inflation period. */
  predicate Eligible(item: PoolItem, now: BlockNumber, period: BlockNumber) {
    SatSub(now, item.joinedAt) >= period
  }

  /** The eligible stakes of the first `n` items, and how many there are. */
  function StakesTo(pool: seq<PoolItem>, n: nat, now: BlockNumber, period: BlockNumber): nat
    requires n <= |pool|
  {
    if n == 0 then 0
    else StakesTo(pool, n - 1, now, period) + if Eligible(pool[n - 1], now, period) then pool[n - 1].stake else 0
  }

  function EligibleTo(pool: seq<PoolItem>, n: nat, now: BlockNumber, period: BlockNumber): nat
    requires n <= |pool|
  {
    if n == 0 then 0
    else EligibleTo(pool, n - 1, now, period) + if Eligible(pool[n - 1], now, period) then 1 else 0
  }

  /** `Perquintill::from_rational`, rounded down. */
  function Share(stake: nat, total: nat): nat
    requires 0 < total
  {
    stake * QUINTILLION / total
  }

  /** The part of the mint for a share, rounded down. */
  function MintFor(share: nat, mint: nat): nat { share * mint / QUINTILLION }

  function SharesTo(pool: seq<PoolItem>, n: nat, now: BlockNumber, period: BlockNumber, total: nat): nat
    requires n <= |pool| && 0 < total
  {
    if n == 0 then 0
    else SharesTo(pool, n - 1, now, period, total)
         + if Eligible(pool[n - 1], now, period) then Share(pool[n - 1].stake, total) else 0
  }

  /** What is credited to the first `n` items. */
  function CreditsTo(pool: seq<PoolItem>, n: nat, now: BlockNumber, period: BlockNumber, total: nat, mint: nat): nat
    requires n <= |pool| && 0 < total
  {
    if n == 0 then 0
    else CreditsTo(pool, n - 1, now, period, total, mint)
         + if Eligible(pool[n - 1], now, period) then MintFor(Share(pool[n - 1].stake, total), mint) else 0
  }

  lemma {:induction false} ShareBounds(stake: nat, total: nat)
    requires 0 < total
    ensures Share(stake, total) * total <= stake * QUINTILLION <= Share(stake, total) * total + (total - 1)
  {
  }

  lemma {:induction false} MintBounds(share: nat, mint: nat)
    ensures MintFor(share, mint) * QUINTILLION <= share * mint <= MintFor(share, mint) * QUINTILLION + (QUINTILLION - 1)
  {
  }

  /** The shares add up to at most the whole, and lose less than one unit each. */
  lemma {:induction false} SharesBound(pool: seq<PoolItem>, n: nat, now: BlockNumber, period: BlockNumber, total: nat)
    requires n <= |pool| && 0 < total
    ensures SharesTo(pool, n, now, period, total) * total <= StakesTo(pool, n, now, period) * QUINTILLION
    ensures StakesTo(pool, n, now, period) * QUINTILLION
         <= SharesTo(pool, n, now, period, total) * total + EligibleTo(pool, n, now, period) * (total - 1)
  {
    hide Share;
    if n > 0 {
      SharesBound(pool, n - 1, now, period, total);
      if Eligible(pool[n - 1], now, period) {
        var stake, share := pool[n - 1].stake, Share(pool[n - 1].stake, total);
        ShareBounds(stake, total);
        Distribute(EligibleTo(pool, n - 1, now, period), 1, total - 1);
        Distribute(SharesTo(pool, n - 1, now, period, total), share, total);
        Distribute(StakesTo(pool, n - 1, now, period), stake, QUINTILLION);
      }
    }
  }

  lemma {:induction false} CreditsBound(pool: seq<PoolItem>, n: nat, now: BlockNumber, period: BlockNumber, total: nat, mint: nat)
    requires n <= |pool| && 0 < total
    ensures CreditsTo(pool, n, now, period, total, mint) * QUINTILLION <= SharesTo(pool, n, now, period, total) * mint
    ensures SharesTo(pool, n, now, period, total) * mint
         <= CreditsTo(pool, n, now, period, total, mint) * QUINTILLION + EligibleTo(pool, n, now, period) * (QUINTILLION - 1)
  {
    hide Share, MintFor;
    if n > 0 {
      CreditsBound(pool, n - 1, now, period, total, mint);
      if Eligible(pool[n - 1], now, period) {
        var share := Share(pool[n - 1].stake, total);
        MintBounds(share, mint);
        Distribute(SharesTo(pool, n - 1, now, period, total), share, mint);
      }
    }
  }

  lemma {:induction false} StakesGrow(pool: seq<PoolItem>, n: nat, m: nat, now: BlockNumber, period: BlockNumber)
    requires n <= m <= |pool|
    ensures StakesTo(pool, n, now, period) <= StakesTo(pool, m, now, period)
    decreases m
  {
    if n < m {
      StakesGrow(pool, n, m - 1, now, period);
    }
  }

  /** At every point, what has been credited fits the mint. */
  lemma {:induction false} CreditsFit(pool: seq<PoolItem>, n: nat, now: BlockNumber, period: BlockNumber, total: nat, mint: nat)
    requires n <= |pool| && 0 < total == StakesTo(pool, |pool|, now, period)
    ensures CreditsTo(pool, n, now, period, total, mint) <= mint
  {
    hide CreditsTo, SharesTo, StakesTo;
    SharesBound(pool, n, now, period, total);
    StakesGrow(pool, n, |pool|, now, period);
    var shares, stakes := SharesTo(pool, n, now, period, total), StakesTo(pool, n, now, period);
    MulMono(stakes, total, QUINTILLION);
    Cancel(shares, QUINTILLION, total);
    CreditsBound(pool, n, now, period, total, mint);
    MulMono(shares, QUINTILLION, mint);
  }

  /** The arithmetic of the leftover: with k shares of the whole `base`, less than k units of share
      and less than k units of money are lost. */
  lemma {:induction false} LossBound(base: nat, total: nat, mint: nat, shares: nat, credits: nat, k: nat)
    requires 0 < total && 0 < k
    requires total * base <= shares * total + k * (total - 1)
    requires shares * mint <= credits * base + k * (base - 1)
    ensures (mint - credits) * base < k * (mint + base)
  {
    Distribute(shares, k, total);
    assert k * (total - 1) == k * total - k;
    Cancel(base, shares + k, total);
    MulMono(base, shares + k, mint);
    Distribute(shares, k, mint);
    assert k * (base - 1) == k * base - k;
    assert k * (mint + base) == k * mint + k * base;
    assert (mint - credits) * base == mint * base - credits * base;
  }

  /** What is not credited, and is burned, is less than k * (mint / 10^18 + 1) for k eligible items. */
  lemma {:induction false} LeftoverBound(pool: seq<PoolItem>, now: BlockNumber, period: BlockNumber, total: nat, mint: nat)
    requires 0 < total == StakesTo(pool, |pool|, now, period)
    ensures var k := EligibleTo(pool, |pool|, now, period);
            0 < k && (mint - CreditsTo(pool, |pool|, now, period, total, mint)) * QUINTILLION < k * (mint + QUINTILLION)
  {
    hide CreditsTo, SharesTo, EligibleTo, StakesTo;
    var n := |pool|;
    SomeEligible(pool, n, now, period);
    SharesBound(pool, n, now, period, total);
    CreditsBound(pool, n, now, period, total, mint);
    LossBound(QUINTILLION, total, mint, SharesTo(pool, n, now, period, total), CreditsTo(pool, n, now, period, total, mint),
              EligibleTo(pool, n, now, period));
  }

  lemma {:induction false} SomeEligible(pool: seq<PoolItem>, n: nat, now: BlockNumber, period: BlockNumber)
    requires n <= |pool| && 0 < StakesTo(pool, n, now, period)
    ensures 0 < EligibleTo(pool, n, now, period)
  {
    if !Eligible(pool[n - 1], now, period) {
      SomeEligible(pool, n - 1, now, period);
    }
  }

  /** The yearly inflation of the supply. `rate` is in parts per billion. */
  function YearlyMint(rate: nat, supply: Balance): Balance { Min(rate * supply / BILLION, U128_MAX) }

  /** The amount to mint in a period. */
  function PeriodMint(rate: nat, supply: Balance, blocksPerYear: nat, period: BlockNumber): Balance {
    Min(YearlyMint(rate, supply) / Max(blocksPerYear, 1) * period, U128_MAX)
  }

  /** The total of the eligible stakes, which saturates. */
  function TotalStake(pool: seq<PoolItem>, now: BlockNumber, period: BlockNumber): Balance {
    Min(StakesTo(pool, |pool|, now, period), U128_MAX)
  }

  /** What item `i` is credited: its part of the mint, as far as the items before it have left it. */
  function PartOf(pool: seq<PoolItem>, i: nat, now: BlockNumber, period: BlockNumber, total: nat, mint: Balance): Balance
    requires i < |pool| && 0 < total
  {
    if Eligible(pool[i], now, period)
    then Min(SatSub(mint, CreditsTo(pool, i, now, period, total, mint)), MintFor(Share(pool[i].stake, total), mint))
    else 0
  }

  /** Nothing is left for some item only if its full part together with those before exceeds the mint. */
  lemma {:induction false} PartIsFull(pool: seq<PoolItem>, i: nat, now: BlockNumber, period: BlockNumber, total: nat, mint: Balance)
    requires i < |pool| && 0 < total
    ensures CreditsTo(pool, i + 1, now, period, total, mint) <= mint ==>
              PartOf(pool, i, now, period, total, mint)
              == if Eligible(pool[i], now, period) then MintFor(Share(pool[i].stake, total), mint) else 0
    ensures PartOf(pool, i, now, period, total, mint) == Min(mint, CreditsTo(pool, i + 1, now, period, total, mint))
                                                         - Min(mint, CreditsTo(pool, i, now, period, total, mint))
  {
    hide Share, MintFor;
  }

  lemma {:induction false} CreditsGrow(pool: seq<PoolItem>, n: nat, m: nat, now: BlockNumber, period: BlockNumber, total: nat, mint: nat)
    requires n <= m <= |pool| && 0 < total
    ensures CreditsTo(pool, n, now, period, total, mint) <= CreditsTo(pool, m, now, period, total, mint)
    decreases m
  {
    hide Share, MintFor;
    if n < m {
      CreditsGrow(pool, n, m - 1, now, period, total, mint);
    }
  }

  /** Everybody gets the full part if and only if the full parts fit the mint. They do whenever the
      total of the stakes does not saturate. */
  lemma {:induction false} NobodyIsCutIff(pool: seq<PoolItem>, now: BlockNumber, period: BlockNumber, total: nat, mint: Balance)
    requires 0 < total
    ensures CreditsTo(pool, |pool|, now, period, total, mint) <= mint
       <==> forall i :: 0 <= i < |pool| && Eligible(pool[i], now, period) ==>
              PartOf(pool, i, now, period, total, mint) == MintFor(Share(pool[i].stake, total), mint)
    ensures total == StakesTo(pool, |pool|, now, period) ==> CreditsTo(pool, |pool|, now, period, total, mint) <= mint
  {
    hide Share, MintFor, PartOf;
    if total == StakesTo(pool, |pool|, now, period) {
      CreditsFit(pool, |pool|, now, period, total, mint);
    }
    if CreditsTo(pool, |pool|, now, period, total, mint) <= mint {
      forall i | 0 <= i < |pool| && Eligible(pool[i], now, period)
        ensures PartOf(pool, i, now, period, total, mint) == MintFor(Share(pool[i].stake, total), mint)
      {
        CreditsGrow(pool, i + 1, |pool|, now, period, total, mint);
        PartIsFull(pool, i, now, period, total, mint);
      }
    } else {
      SomebodyIsCut(pool, |pool|, now, period, total, mint);
    }
  }

  lemma {:induction false} SomebodyIsCut(pool: seq<PoolItem>, n: nat, now: BlockNumber, period: BlockNumber, total: nat, mint: Balance)
    requires n <= |pool| && 0 < total && mint < CreditsTo(pool, n, now, period, total, mint)
    ensures exists i :: 0 <= i < n && Eligible(pool[i], now, period)
                        && PartOf(pool, i, now, period, total, mint) != MintFor(Share(pool[i].stake, total), mint)
  {
    hide Share, MintFor, PartOf;
    if mint < CreditsTo(pool, n - 1, now, period, total, mint) {
      SomebodyIsCut(pool, n - 1, now, period, total, mint);
    } else {
      PartIsFull(pool, n - 1, now, period, total, mint);
    }
  }

  /** Credit an account that exists; otherwise the tokens vanish. */
  function ResolveIntoExisting(l: Ledger, a: AccountId, amount: Balance): Ledger {
    if a in l then Deposit(l, a, amount) else l
  }

  function Credited(l: Ledger, pool: seq<PoolItem>, n: nat, now: BlockNumber, period: BlockNumber, total: nat, mint: Balance): Ledger
    requires n <= |pool| && 0 < total
  {
    if n == 0 then l
    else
      var before := Credited(l, pool, n - 1, now, period, total, mint);
      if Eligible(pool[n - 1], now, period)
      then ResolveIntoExisting(before, pool[n - 1].account, PartOf(pool, n - 1, now, period, total, mint))
      else before
  }

  /** What the first `n` items credit to an account. */
  function CreditFor(pool: seq<PoolItem>, n: nat, now: BlockNumber, period: BlockNumber, total: nat, mint: Balance, a: AccountId): nat
    requires n <= |pool| && 0 < total
  {
    if n == 0 then 0
    else CreditFor(pool, n - 1, now, period, total, mint, a)
         + if pool[n - 1].account == a then PartOf(pool, n - 1, now, period, total, mint) else 0
  }

  /** Every account that exists gets what its items are credited; the ledger grows by no more
      than all credits. */
  lemma {:induction false} CreditedFacts(l: Ledger, pool: seq<PoolItem>, n: nat, now: BlockNumber, period: BlockNumber,
                                         total: nat, mint: Balance, a: AccountId)
    requires n <= |pool| && 0 < total && Total(l) + Min(mint, CreditsTo(pool, n, now, period, total, mint)) <= U128_MAX
    ensures Total(Credited(l, pool, n, now, period, total, mint))
         <= Total(l) + Min(mint, CreditsTo(pool, n, now, period, total, mint))
    ensures Credited(l, pool, n, now, period, total, mint).Keys == l.Keys
    ensures BalanceOf(Credited(l, pool, n, now, period, total, mint), a)
         == BalanceOf(l, a) + if a in l then CreditFor(pool, n, now, period, total, mint, a) else 0
  {
    hide Share, MintFor;
    if n > 0 {
      CreditedFacts(l, pool, n - 1, now, period, total, mint, a);
      PartIsFull(pool, n - 1, now, period, total, mint);
      if Eligible(pool[n - 1], now, period) {
        DepositTotal(Credited(l, pool, n - 1, now, period, total, mint), pool[n - 1].account,
                     PartOf(pool, n - 1, now, period, total, mint));
      }
    }
  }

  /** Nothing is minted outside the ends of periods; otherwise the period's mint, which never
      exceeds the yearly amount, is credited and the rest is burned. */
  ghost predicate Distributed(pool: seq<PoolItem>, l: Ledger, now: BlockNumber, period: BlockNumber, rate: nat,
                              supply: Balance, blocksPerYear: nat, l': Ledger, minted: nat, burned: nat)
    requires 0 < period
  {
    var mint := PeriodMint(rate, supply, blocksPerYear, period);
    var total := TotalStake(pool, now, period);
    if now % period != 0 || rate == 0 || mint > YearlyMint(rate, supply) || total == 0
    then l' == l && minted == 0 && burned == 0
    else && l' == Credited(l, pool, |pool|, now, period, total, mint)
         && minted == mint
         && burned + Min(mint, CreditsTo(pool, |pool|, now, period, total, mint)) == mint
  }

  /** `handle_inflation`: every eligible member gets its part of the period's mint. */
  method HandleInflation(pool: seq<PoolItem>, l: Ledger, now: BlockNumber, period: BlockNumber, rate: nat,
                         supply: Balance, blocksPerYear: nat)
    returns (l': Ledger, minted: nat, burned: nat)
    requires 0 < period
    ensures Distributed(pool, l, now, period, rate, supply, blocksPerYear, l', minted, burned)
  {
    l', minted, burned := l, 0, 0;
    if now % period != 0 || rate == 0 {
      return;
    }
    var mint := PeriodMint(rate, supply, blocksPerYear, period);
    if mint > YearlyMint(rate, supply) {
      return;
    }
    var total: Balance := 0;
    for i := 0 to |pool|
      invariant total == Min(StakesTo(pool, i, now, period), U128_MAX)
    {
      if Eligible(pool[i], now, period) {
        total := Min(total + pool[i].stake, U128_MAX);
      }
    }
    if total == 0 {
      return;
    }
    minted := mint;
    var left: Balance := mint;
    hide Share, MintFor, PeriodMint, YearlyMint;
    for i := 0 to |pool|
      invariant left == SatSub(mint, CreditsTo(pool, i, now, period, total, mint))
      invariant l' == Credited(l, pool, i, now, period, total, mint)
    {
      if Eligible(pool[i], now, period) {
        var amount := MintFor(Share(pool[i].stake, total), mint);
        var part := Min(left, amount);
        left := left - part;
        l' := ResolveIntoExisting(l', pool[i].account, part);
      }
    }
    burned := left;
  }

  // ---- What inflation amounts to ----

  lemma {:induction false} MintUpper(base: nat, n: nat, yearly: nat, per: nat, period: nat, inflated: nat)
    requires yearly * base <= inflated && per * n <= yearly
    ensures per * period * (n * base) <= inflated * period
  {
    MulMono(per * n, yearly, base);
    MulMono(per * n * base, inflated, period);
    assert per * period * (n * base) == per * n * base * period;
  }

  lemma {:induction false} MintLower(base: nat, n: nat, yearly: nat, per: nat, period: nat, inflated: nat)
    requires inflated < (yearly + 1) * base && yearly < (per + 1) * n && 0 < period
    ensures inflated * period < (per * period + period) * (n * base)
  {
    MulMono(yearly + 1, (per + 1) * n, base);
    MulMono(inflated + 1, (per + 1) * n * base, period);
    Distribute(inflated, 1, period);
    assert (per * period + period) * (n * base) == (per + 1) * n * base * period by {
      assert per * period + period == (per + 1) * period;
    }
  }

  lemma {:induction false} DivBounds(x: nat, n: nat)
    requires 0 < n
    ensures x / n * n <= x < (x / n + 1) * n
  {
    assert x == x / n * n + x % n;
    Distribute(x / n, 1, n);
  }

  lemma {:induction false} NotSaturated(rate: nat, supply: Balance)
    requires rate <= BILLION
    ensures YearlyMint(rate, supply) == rate * supply / BILLION
  {
    MulMono(rate, BILLION, supply);
    DivBounds(rate * supply, BILLION);
    Cancel(rate * supply / BILLION, supply, BILLION);
  }

  /** The mint of a period from the yearly one, with its parts as plain numbers. */
  lemma {:induction false} MintRange(base: nat, n: nat, inflated: nat, yearly: nat, per: nat, period: nat, mint: nat, cap: nat)
    requires yearly * base <= inflated < (yearly + 1) * base && per * n <= yearly < (per + 1) * n && 0 < period
    requires mint == Min(per * period, cap) && yearly <= cap
    ensures mint * (n * base) <= inflated * period
    ensures period <= n ==> mint <= yearly && inflated * period < (mint + period) * (n * base)
  {
    MintUpper(base, n, yearly, per, period, inflated);
    MintLower(base, n, yearly, per, period, inflated);
    MulMono(mint, per * period, n * base);
    if period <= n {
      MulMono(period, n, per);
    }
  }

  lemma {:induction false} MintIs(rate: nat, supply: Balance, blocksPerYear: nat, period: BlockNumber)
    requires rate <= BILLION && 0 < period
    ensures var n, mint := Max(blocksPerYear, 1), PeriodMint(rate, supply, blocksPerYear, period);
            && mint * (n * BILLION) <= rate * supply * period
            && (period <= n ==>
                  && mint <= YearlyMint(rate, supply)
                  && rate * supply * period < (mint + period) * (n * BILLION))
  {
    hide YearlyMint, PeriodMint;
    YearlyIs(rate, supply);
    var per := PerBlock(rate, supply, blocksPerYear, period);
    MintRange(BILLION, Max(blocksPerYear, 1), rate * supply, YearlyMint(rate, supply), per, period,
              PeriodMint(rate, supply, blocksPerYear, period), U128_MAX);
  }

  lemma {:induction false} YearlyIs(rate: nat, supply: Balance)
    requires rate <= BILLION
    ensures var yearly := YearlyMint(rate, supply);
            yearly * BILLION <= rate * supply < (yearly + 1) * BILLION && yearly <= U128_MAX
  {
    NotSaturated(rate, supply);
    DivBounds(rate * supply, BILLION);
  }

  lemma {:induction false} PerBlock(rate: nat, supply: Balance, blocksPerYear: nat, period: BlockNumber) returns (per: nat)
    ensures var yearly, n := YearlyMint(rate, supply), Max(blocksPerYear, 1);
            per * n <= yearly < (per + 1) * n && PeriodMint(rate, supply, blocksPerYear, period) == Min(per * period, U128_MAX)
  {
    hide YearlyMint;
    per := YearlyMint(rate, supply) / Max(blocksPerYear, 1);
    DivBounds(YearlyMint(rate, supply), Max(blocksPerYear, 1));
  }

  /** How much is minted: at most `period / blocksPerYear` of the yearly inflation of the supply, nothing outside the
      ends of periods, and within one token per block of that if somebody is eligible; `rate` is at most one. */
  lemma {:induction false} MintTheorem(pool: seq<PoolItem>, l: Ledger, now: BlockNumber, period: BlockNumber, rate: nat,
                                       supply: Balance, blocksPerYear: nat, l': Ledger, minted: nat, burned: nat, i: nat)
    requires 0 < period && rate <= BILLION && i < |pool|
    requires Distributed(pool, l, now, period, rate, supply, blocksPerYear, l', minted, burned)
    ensures now % period != 0 ==> minted == 0 && l' == l
    ensures minted * (Max(blocksPerYear, 1) * BILLION) <= rate * supply * period
    ensures minted * BILLION <= rate * supply
    ensures now % period == 0 && period <= Max(blocksPerYear, 1) && pool[i].joinedAt + period <= now && 0 < pool[i].stake ==>
              rate * supply * period < (minted + period) * (Max(blocksPerYear, 1) * BILLION)
  {
    MintIs(rate, supply, blocksPerYear, period);
    YearlyIs(rate, supply);
    if PeriodMint(rate, supply, blocksPerYear, period) <= YearlyMint(rate, supply) {
      MulMono(PeriodMint(rate, supply, blocksPerYear, period), YearlyMint(rate, supply), BILLION);
    }
    if pool[i].joinedAt + period <= now {
      StakeCounts(pool, i, |pool|, now, period);
    }
    hide PeriodMint, YearlyMint, Credited, CreditsTo;
    var n := Max(blocksPerYear, 1);
    if rate == 0 {
      assert rate * supply * period == 0;
      MulMono(1, period, n * BILLION);
    }
  }

  lemma {:induction false} StakeCounts(pool: seq<PoolItem>, i: nat, n: nat, now: BlockNumber, period: BlockNumber)
    requires i < n <= |pool| && pool[i].joinedAt + period <= now
    ensures pool[i].stake <= StakesTo(pool, n, now, period)
  {
    if i < n - 1 {
      StakeCounts(pool, i, n - 1, now, period);
    }
  }

  /** The stakes of those who joined at least a period ago. */
  function EarlyStakes(pool: seq<PoolItem>, n: nat, now: BlockNumber, period: BlockNumber): nat
    requires n <= |pool|
  {
    if n == 0 then 0
    else EarlyStakes(pool, n - 1, now, period) + if pool[n - 1].joinedAt + period <= now then pool[n - 1].stake else 0
  }

  lemma {:induction false} EarlyIsEligible(pool: seq<PoolItem>, n: nat, now: BlockNumber, period: BlockNumber)
    requires n <= |pool| && 0 < period
    ensures EarlyStakes(pool, n, now, period) == StakesTo(pool, n, now, period)
  {
    if n > 0 {
      EarlyIsEligible(pool, n - 1, now, period);
    }
  }

  lemma {:induction false} CreditOnce(pool: seq<PoolItem>, n: nat, i: nat, now: BlockNumber, period: BlockNumber, total: nat, mint: Balance)
    requires n <= |pool| && i < |pool| && 0 < total
    requires forall j, k :: 0 <= j < k < |pool| ==> pool[j].account != pool[k].account
    ensures CreditFor(pool, n, now, period, total, mint, pool[i].account) == if i < n then PartOf(pool, i, now, period, total, mint) else 0
  {
    hide PartOf;
    if n > 0 {
      CreditOnce(pool, n - 1, i, now, period, total, mint);
    }
  }

  lemma {:induction false} PartUpper(q: nat, stake: nat, total: nat, mint: nat, share: nat, got: nat)
    requires 0 < q && share * total <= stake * q && got * q <= share * mint
    ensures got * total <= stake * mint
  {
    MulMono(got * q, share * mint, total);
    MulMono(share * total, stake * q, mint);
    assert got * q * total == got * total * q;
    assert share * mint * total == share * total * mint;
    assert stake * q * mint == stake * mint * q;
    Cancel(got * total, stake * mint, q);
  }

  lemma {:induction false} PartLower(q: nat, stake: nat, total: nat, mint: nat, share: nat, got: nat)
    requires 0 < q && 0 < total && stake * q <= share * total + (total - 1) && share * mint <= got * q + (q - 1)
    ensures stake * mint * q <= (got * q + (q - 1)) * total + (total - 1) * mint
  {
    MulMono(stake * q, share * total + (total - 1), mint);
    Distribute(share * total, total - 1, mint);
    MulMono(share * mint, got * q + (q - 1), total);
    assert share * mint * total == share * total * mint;
    assert stake * q * mint == stake * mint * q;
  }

  /** What a member gets of what is minted: nothing if it joined less than a period ago, otherwise its part by stake
      among those who did not, rounded down by less than a token and a 10^18th of the mint. */
  lemma {:induction false} MemberTheorem(pool: seq<PoolItem>, l: Ledger, now: BlockNumber, period: BlockNumber, rate: nat,
                                         supply: Balance, blocksPerYear: nat, l': Ledger, minted: nat, burned: nat, i: nat)
    requires 0 < period && i < |pool| && pool[i].account in l && Total(l) + minted <= U128_MAX && 0 < minted
    requires forall j, k :: 0 <= j < k < |pool| ==> pool[j].account != pool[k].account
    requires Distributed(pool, l, now, period, rate, supply, blocksPerYear, l', minted, burned)
    requires EarlyStakes(pool, |pool|, now, period) <= U128_MAX
    ensures var total, got := EarlyStakes(pool, |pool|, now, period), BalanceOf(l', pool[i].account) - BalanceOf(l, pool[i].account);
            if pool[i].joinedAt + period <= now then
              && 0 <= got && got * total <= pool[i].stake * minted
              && pool[i].stake * minted * QUINTILLION <= (got * QUINTILLION + (QUINTILLION - 1)) * total + (total - 1) * minted
            else got == 0
  {
    EarlyIsEligible(pool, |pool|, now, period);
    var total: Balance, mint: Balance := TotalStake(pool, now, period), PeriodMint(rate, supply, blocksPerYear, period);
    hide PeriodMint, YearlyMint, Credited, EarlyStakes;
    NobodyIsCutIff(pool, now, period, total, mint);
    CreditedFacts(l, pool, |pool|, now, period, total, mint, pool[i].account);
    CreditOnce(pool, |pool|, i, now, period, total, mint);
    hide Share, MintFor, CreditsTo, StakesTo, CreditFor;
    if pool[i].joinedAt + period <= now {
      var share := Share(pool[i].stake, total);
      ShareBounds(pool[i].stake, total);
      MintBounds(share, mint);
      PartUpper(QUINTILLION, pool[i].stake, total, mint, share, MintFor(share, mint));
      PartLower(QUINTILLION, pool[i].stake, total, mint, share, MintFor(share, mint));
    }
  }
}
