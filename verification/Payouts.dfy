/** How the reward of a court is split among the stakes of the winners. */
module Payouts {
  import opened Numbers
  import opened CourtTypes

  // ---- The split ----

  /** `Perquintill::from_rational`, rounded down, times the reward, rounded to the nearest. */
  function ShareOf(stake: nat, total: nat, reward: nat): nat {
    var share := if total == 0 || total <= stake then QUINTILLION else stake * QUINTILLION / total;
    (2 * share * reward + QUINTILLION - 1) / (2 * QUINTILLION)
  }

  /** What is left of the reward after the winners of the list: a share is cut when it runs out. */
  function LeftAfter(list: Stakes, total: nat, reward: Balance): Balance {
    if list == [] then reward
    else
      var left := LeftAfter(list[..|list| - 1], total, reward);
      left - Min(left, ShareOf(list[|list| - 1].1, total, reward))
  }

  /** What the last winner of the list gets. */
  function PaidLast(list: Stakes, total: nat, reward: Balance): Balance
    requires list != []
  {
    Min(LeftAfter(list[..|list| - 1], total, reward), ShareOf(list[|list| - 1].1, total, reward))
  }

  /** What an account gets. */
  function PaidTo(list: Stakes, total: nat, reward: Balance, a: AccountId): nat {
    if list == [] then 0
    else PaidTo(list[..|list| - 1], total, reward, a)
         + if list[|list| - 1].0 == a then PaidLast(list, total, reward) else 0
  }

  // ---- Stakes and full shares ----

  function ListSum(list: Stakes): nat {
    if list == [] then 0 else ListSum(list[..|list| - 1]) + list[|list| - 1].1
  }

  function ListFor(list: Stakes, a: AccountId): nat {
    if list == [] then 0
    else ListFor(list[..|list| - 1], a) + if list[|list| - 1].0 == a then list[|list| - 1].1 else 0
  }

  /** The full shares of everybody. */
  function SharesSum(list: Stakes, total: nat, reward: nat): nat {
    if list == [] then 0 else SharesSum(list[..|list| - 1], total, reward) + ShareOf(list[|list| - 1].1, total, reward)
  }

  /** The full shares of an account, and how many there are. */
  function SharesFor(list: Stakes, total: nat, reward: nat, a: AccountId): nat {
    if list == [] then 0
    else SharesFor(list[..|list| - 1], total, reward, a)
         + if list[|list| - 1].0 == a then ShareOf(list[|list| - 1].1, total, reward) else 0
  }

  function EntriesFor(list: Stakes, a: AccountId): nat {
    if list == [] then 0 else EntriesFor(list[..|list| - 1], a) + if list[|list| - 1].0 == a then 1 else 0
  }

  // ---- Who is cut ----

  /** The winners together get the full shares, or the whole reward. */
  lemma {:induction false} LeftIs(list: Stakes, total: nat, reward: Balance)
    ensures LeftAfter(list, total, reward) == SatSub(reward, SharesSum(list, total, reward))
  {
    hide ShareOf;
    if list != [] {
      LeftIs(list[..|list| - 1], total, reward);
    }
  }

  lemma {:induction false} SharesGrow(list: Stakes, i: nat, total: nat, reward: nat)
    requires i <= |list|
    ensures SharesSum(list[..i], total, reward) <= SharesSum(list, total, reward)
  {
    hide ShareOf;
    if i == |list| {
      assert list[..i] == list;
    } else {
      SharesGrow(list[..|list| - 1], i, total, reward);
      assert list[..|list| - 1][..i] == list[..i];
    }
  }

  lemma {:induction false} FirstCut(list: Stakes, total: nat, reward: Balance)
    requires reward < SharesSum(list, total, reward)
    ensures exists i :: 0 <= i < |list| && PaidLast(list[..i + 1], total, reward) < ShareOf(list[i].1, total, reward)
  {
    hide ShareOf;
    var prefix := list[..|list| - 1];
    if reward < SharesSum(prefix, total, reward) {
      FirstCut(prefix, total, reward);
      var i :| 0 <= i < |prefix| && PaidLast(prefix[..i + 1], total, reward) < ShareOf(prefix[i].1, total, reward);
      assert prefix[..i + 1] == list[..i + 1];
    } else {
      LeftIs(prefix, total, reward);
      assert list[..|list| - 1 + 1] == list;
    }
  }

  /** Everybody is paid the full share if and only if the rounded shares together do not exceed
      the reward. */
  lemma {:induction false} NobodyIsCutIff(list: Stakes, total: nat, reward: Balance)
    ensures SharesSum(list, total, reward) <= reward
       <==> forall i :: 0 <= i < |list| ==> PaidLast(list[..i + 1], total, reward) == ShareOf(list[i].1, total, reward)
  {
    hide ShareOf;
    if SharesSum(list, total, reward) <= reward {
      forall i | 0 <= i < |list|
        ensures PaidLast(list[..i + 1], total, reward) == ShareOf(list[i].1, total, reward)
      {
        SharesGrow(list, i + 1, total, reward);
        assert list[..i + 1][..i] == list[..i];
        LeftIs(list[..i], total, reward);
      }
    } else {
      FirstCut(list, total, reward);
    }
  }

  /** What an account gets is at most its full shares, and no cut exceeds what the reward is short
      of all full shares. */
  lemma {:induction false} PaidWithinShares(list: Stakes, total: nat, reward: Balance, a: AccountId)
    ensures PaidTo(list, total, reward, a) <= SharesFor(list, total, reward, a)
         <= PaidTo(list, total, reward, a) + SatSub(SharesSum(list, total, reward), reward)
  {
    hide ShareOf;
    if list != [] {
      PaidWithinShares(list[..|list| - 1], total, reward, a);
      LeftIs(list[..|list| - 1], total, reward);
    }
  }

  /** Stakes of 1, 1 and 1 and a reward of 5: each share is 2, and the last winner gets 1. */
  lemma {:induction false} LastWinnerIsCut()
    ensures var list: Stakes := [(1, 1), (2, 1), (3, 1)];
            && ListSum(list) == 3 && ShareOf(1, 3, 5) == 2
            && PaidTo(list, 3, 5, 1) == 2 && PaidTo(list, 3, 5, 2) == 2 && PaidTo(list, 3, 5, 3) == 1
  {
    var list: Stakes := [(1, 1), (2, 1), (3, 1)];
    assert list[..2] == [(1, 1), (2, 1)] && list[..2][..1] == [(1, 1)] && list[..2][..1][..0] == [];
    assert LeftAfter([], 3, 5) == 5;
    assert LeftAfter([(1, 1)], 3, 5) == 3;
    assert LeftAfter([(1, 1), (2, 1)], 3, 5) == 1;
  }

  // ---- How close a share is to the proportional part ----

  lemma {:induction false} Regroup(a: int, b: int, c: int)
    ensures a * b * c == a * (b * c) && a * b * c == a * c * b
  {
  }

  /** Cancelling the base `q` out of `2 * a * q <= 2 * x + (q - 1) * total` with `x <= b * q`. */
  lemma {:induction false} CancelUpper(q: nat, a: nat, x: nat, b: nat, total: nat)
    requires 0 < total && 2 * (a * q) <= 2 * x + (q - 1) * total && x <= b * q
    ensures 2 * a < 2 * b + total
  {
    Distribute(q - 1, 1, total);
    if 2 * b + total <= 2 * a {
      MulMono(2 * b + total, 2 * a, q);
      Distribute(2 * b, total, q);
      Regroup(2, a, q);
      Regroup(2, b, q);
    }
  }

  /** A share is less than half a unit above the proportional part ... */
  lemma {:induction false} UpperShare(q: nat, s: nat, p: nat, stake: nat, total: nat, reward: nat)
    requires 0 < total && s * total <= stake * q && 2 * (p * q) <= 2 * (s * reward) + (q - 1)
    ensures 2 * (p * total) < 2 * (stake * reward) + total
  {
    MulMono(2 * (p * q), 2 * (s * reward) + (q - 1), total);
    Distribute(2 * (s * reward), q - 1, total);
    Regroup(2, p * q, total);
    Regroup(p, q, total);
    Regroup(2, s * reward, total);
    Regroup(s, reward, total);
    MulMono(s * total, stake * q, reward);
    Regroup(stake, q, reward);
    Regroup(p, total, q);
    CancelUpper(q, p * total, s * total * reward, stake * reward, total);
  }

  /** ... and below it by no more than half a unit and the rounding of the fraction. */
  lemma {:induction false} LowerShare(q: nat, s: nat, p: nat, stake: nat, total: nat, reward: nat)
    requires 0 < total && stake * q <= s * total + (total - 1) && 2 * (s * reward) <= 2 * (p * q) + q
    ensures 2 * (stake * reward * q) <= 2 * (p * total * q) + q * total + 2 * ((total - 1) * reward)
  {
    MulMono(stake * q, s * total + (total - 1), reward);
    Distribute(s * total, total - 1, reward);
    Regroup(stake, q, reward);
    MulMono(2 * (s * reward), 2 * (p * q) + q, total);
    Distribute(2 * (p * q), q, total);
    Regroup(2, s * reward, total);
    Regroup(s, reward, total);
    Regroup(2, p * q, total);
    Regroup(p, q, total);
  }

  /** `paid` is what `k` shares for `stake` of `total` may differ from `stake * reward / total`: each
      is less than half a unit too much, and too little by at most half a unit and the rounding of
      the fraction. */
  ghost predicate Near(paid: nat, stake: nat, k: nat, total: nat, reward: nat)
    requires 0 < total
  {
    && 2 * (paid * total) <= 2 * (stake * reward) + k * (total - 1)
    && 2 * (stake * reward * QUINTILLION)
       <= 2 * (paid * total * QUINTILLION) + k * (QUINTILLION * total + 2 * ((total - 1) * reward))
  }

  lemma {:induction false} ShareIsNear(stake: nat, total: nat, reward: nat)
    requires stake <= total && 0 < total
    ensures Near(ShareOf(stake, total, reward), stake, 1, total, reward)
  {
    var s := if total <= stake then QUINTILLION else stake * QUINTILLION / total;
    var p := ShareOf(stake, total, reward);
    ShareRounds(s, reward, p);
    UpperShare(QUINTILLION, s, p, stake, total, reward);
    LowerShare(QUINTILLION, s, p, stake, total, reward);
  }

  lemma {:induction false} ShareRounds(s: nat, reward: nat, p: nat)
    requires p == (2 * s * reward + QUINTILLION - 1) / (2 * QUINTILLION)
    ensures 2 * (p * QUINTILLION) <= 2 * (s * reward) + (QUINTILLION - 1)
    ensures 2 * (s * reward) <= 2 * (p * QUINTILLION) + QUINTILLION
  {
    Regroup(2, s, reward);
  }

  lemma {:induction false} NothingIsNear(total: nat, reward: nat)
    requires 0 < total
    ensures Near(0, 0, 0, total, reward)
  {
  }

  lemma {:induction false} NearAdds(x: nat, y: nat, k: nat, p: nat, stake: nat, total: nat, reward: nat)
    requires 0 < total && Near(x, y, k, total, reward) && Near(p, stake, 1, total, reward)
    ensures Near(x + p, y + stake, k + 1, total, reward)
  {
    var q, room := QUINTILLION, QUINTILLION * total + 2 * ((total - 1) * reward);
    Distribute(x, p, total);
    Distribute(y, stake, reward);
    Distribute(k, 1, total - 1);
    Distribute(x * total, p * total, q);
    Distribute(y * reward, stake * reward, q);
    Distribute(k, 1, room);
  }

  ghost predicate StakesWithin(list: Stakes, total: nat) {
    forall i :: 0 <= i < |list| ==> list[i].1 <= total
  }

  /** The full shares of an account, and of everybody. */
  lemma {:induction false} SharesAreNear(list: Stakes, total: nat, reward: nat, a: AccountId)
    requires 0 < total && StakesWithin(list, total)
    ensures Near(SharesFor(list, total, reward, a), ListFor(list, a), EntriesFor(list, a), total, reward)
    ensures Near(SharesSum(list, total, reward), ListSum(list), |list|, total, reward)
  {
    hide ShareOf, Near;
    if list == [] {
      NothingIsNear(total, reward);
    } else {
      var prefix, stake := list[..|list| - 1], list[|list| - 1].1;
      SharesAreNear(prefix, total, reward, a);
      ShareIsNear(stake, total, reward);
      var p := ShareOf(stake, total, reward);
      NearAdds(SharesFor(prefix, total, reward, a), ListFor(prefix, a), EntriesFor(prefix, a), p, stake, total, reward);
      NearAdds(SharesSum(prefix, total, reward), ListSum(prefix), |prefix|, p, stake, total, reward);
    }
  }

  lemma {:induction false} EachWithinSum(list: Stakes)
    ensures StakesWithin(list, ListSum(list))
  {
    if list != [] {
      EachWithinSum(list[..|list| - 1]);
      assert forall i :: 0 <= i < |list| - 1 ==> list[i] == list[..|list| - 1][i];
    }
  }

  /** All shares together exceed the reward by less than half a unit each ... */
  lemma {:induction false} WholeUpper(paid: nat, k: nat, total: nat, reward: nat)
    requires 0 < total && 0 < k && 2 * (paid * total) <= 2 * (total * reward) + k * (total - 1)
    ensures 2 * paid < 2 * reward + k
  {
    Distribute(total - 1, 1, k);
    Distribute(2 * reward, k, total);
    Regroup(2, reward, total);
    Regroup(2, paid, total);
    Cancel(2 * paid, 2 * reward + k, total);
  }

  /** ... and fall short of it by at most half a unit and the rounding of the fraction each. */
  lemma {:induction false} WholeLower(q: nat, paid: nat, k: nat, total: nat, reward: nat)
    requires 0 < total && 2 * (total * reward * q) <= 2 * (paid * total * q) + k * (q * total + 2 * ((total - 1) * reward))
    ensures 2 * (reward * q) <= 2 * (paid * q) + k * (q + 2 * reward)
  {
    Distribute(total - 1, 1, reward);
    Distribute(q, 2 * reward, total);
    Regroup(2, reward, total);
    MulMono(q * total + 2 * ((total - 1) * reward), (q + 2 * reward) * total, k);
    Regroup(q + 2 * reward, total, k);
    Distribute(2 * (paid * q), k * (q + 2 * reward), total);
    Regroup(paid, total, q);
    Regroup(total, reward, q);
    Regroup(2, paid * q, total);
    Regroup(2, reward * q, total);
    Regroup(k, q + 2 * reward, total);
    Cancel(2 * (reward * q), 2 * (paid * q) + k * (q + 2 * reward), total);
  }

  /** What the winners of a list get of the reward. Together they get all full shares or the whole
      reward. The reward falls short of the full shares by less than half a unit for each winner,
      and no account is cut by more than that; what the winners leave is at most half a unit
      and a 10^18th of the reward for each. Up to the cut, an account gets what its stakes deserve,
      up to the same errors. */
  lemma {:induction false} PayoutTheorem(list: Stakes, reward: Balance, a: AccountId)
    requires 0 < ListSum(list)
    ensures var total, k := ListSum(list), |list|;
            var shares, mine := SharesSum(list, total, reward), SharesFor(list, total, reward, a);
            && LeftAfter(list, total, reward) == SatSub(reward, shares)
            && 2 * shares < 2 * reward + k
            && 2 * (LeftAfter(list, total, reward) * QUINTILLION) <= k * (QUINTILLION + 2 * reward)
            && PaidTo(list, total, reward, a) <= mine <= PaidTo(list, total, reward, a) + SatSub(shares, reward)
            && Near(mine, ListFor(list, a), EntriesFor(list, a), total, reward)
  {
    hide ShareOf, Near, ListSum, ListFor, SharesSum, SharesFor, EntriesFor, LeftAfter, PaidTo, StakesWithin;
    var total := ListSum(list);
    EachWithinSum(list);
    SharesAreNear(list, total, reward, a);
    LeftIs(list, total, reward);
    PaidWithinShares(list, total, reward, a);
    NoStakes();
    NearWhole(SharesSum(list, total, reward), |list|, total, reward);
    LeftBound(QUINTILLION, SharesSum(list, total, reward), |list|, reward);
  }

  lemma {:induction false} NoStakes()
    ensures ListSum([]) == 0
  {
  }

  lemma {:induction false} NearWhole(paid: nat, k: nat, total: nat, reward: nat)
    requires 0 < total && 0 < k && Near(paid, total, k, total, reward)
    ensures 2 * paid < 2 * reward + k
    ensures 2 * (reward * QUINTILLION) <= 2 * (paid * QUINTILLION) + k * (QUINTILLION + 2 * reward)
  {
    WholeUpper(paid, k, total, reward);
    WholeLower(QUINTILLION, paid, k, total, reward);
  }

  lemma {:induction false} LeftBound(q: nat, paid: nat, k: nat, reward: nat)
    requires 2 * (reward * q) <= 2 * (paid * q) + k * (q + 2 * reward)
    ensures 2 * (SatSub(reward, paid) * q) <= k * (q + 2 * reward)
  {
    if paid < reward {
      Distribute(reward - paid, paid, q);
    }
  }
}
