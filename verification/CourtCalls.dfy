/** The checks of the pallet's calls, and how what a call computes amounts to a step of `CourtSteps`. */
module CourtCalls {
  import opened Numbers
  import opened Ordered
  import opened CourtTypes
  import opened CourtPool
  import opened JurySelection
  import opened JuryDraws
  import opened CourtVotes
  import opened CourtWinner
  import opened CourtStorage
  import opened CourtSteps
  import opened CourtInvariants
  import opened SectionShuffle

  // ---- Joining ----

  /** The pool after making room: the lowest item goes if the pool is full. */
  function RemoveWeakestIfFull(cfg: Config, pool: seq<PoolItem>, amount: Balance): Result<seq<PoolItem>>
    requires 0 < cfg.maxCourtParticipants
  {
    if |pool| < cfg.maxCourtParticipants then Ok(pool)
    else if amount <= pool[0].stake then Err(AmountBelowLowestJuror)
    else Ok(pool[1..])
  }

  /** The checks of joining, the pool to insert into and the item to insert. */
  function JoinPlan(cfg: Config, pool: seq<PoolItem>, previous: Option<ParticipantInfo>, who: AccountId,
                    amount: Balance, free: Balance, now: BlockNumber): Result<(seq<PoolItem>, PoolItem)>
    requires 0 < cfg.maxCourtParticipants
  {
    if amount < cfg.minJurorStake then Err(BelowMinJurorStake)
    else if free < amount then Err(AmountExceedsBalance)
    else if previous.Some? && amount < previous.value.stake then Err(AmountBelowLastJoin)
    else
      var index := if previous.Some? then GetPoolItem(pool, previous.value.stake, who) else None;
      match index
      case Some(i) => Ok((RemoveAt(pool, i), PoolItem(amount, who, pool[i].consumedStake, pool[i].joinedAt)))
      case None =>
        var consumedStake := if previous.Some? then previous.value.activeLock else 0;
        match RemoveWeakestIfFull(cfg, pool, amount)
        case Err(e) => Err(e)
        case Ok(rest) => Ok((rest, PoolItem(amount, who, consumedStake, now)))
  }

  function InfoOf(participants: map<AccountId, ParticipantInfo>, who: AccountId): Option<ParticipantInfo> {
    if who in participants then Some(participants[who]) else None
  }

  /** The searches of the plan find what looking at every item would find. */
  lemma {:induction false} JoinPlanIs(cfg: Config, b: Bench, who: AccountId, amount: Balance, free: Balance, now: BlockNumber)
    requires PoolOk(cfg, b) && 0 < cfg.maxCourtParticipants
    ensures JoinPlan(cfg, b.pool, InfoOf(b.participants, who), who, amount, free, now)
         == match JoinError(cfg, b, who, amount, free)
            case Some(e) => Err(e)
            case None => Ok((PoolForJoin(cfg, b.pool, who), JoinedItem(b, who, amount, now)))
  {
    PoolStakesAgree(cfg, b);
    StrangerNotInPool(cfg, b, who);
    if who in b.participants {
      SearchFindsAccount(b.pool, b.participants, who);
    }
  }

  /** Inserting at the place that the search by stake and account ends up at. */
  function TryInsert(cfg: Config, pool: seq<PoolItem>, item: PoolItem): Result<seq<PoolItem>> {
    var i := PoolPosition(pool, item.stake, item.account);
    if FoundAt(pool, i, item.stake, item.account) then Err(CourtParticipantTwiceInPool)
    else if |pool| >= cfg.maxCourtParticipants then Err(MaxCourtParticipantsReached)
    else Ok(InsertAt(pool, i, item))
  }

  /** The two insertion errors cannot happen. */
  lemma {:induction false} InsertionSucceeds(cfg: Config, b: Bench, who: AccountId, amount: Balance,
                                             delegations: Option<seq<AccountId>>, now: BlockNumber)
    requires PoolOk(cfg, b) && 0 < cfg.maxCourtParticipants
    ensures var activeLock := if who in b.participants then b.participants[who].activeLock else 0;
            var inserted := TryInsert(cfg, PoolForJoin(cfg, b.pool, who), JoinedItem(b, who, amount, now));
            && inserted.Ok?
            && Joined(cfg, b, who, amount, delegations, now)
               == Bench(inserted.value, b.participants[who := ParticipantInfo(amount, activeLock, None, delegations)],
                        b.locks[who := amount])
  {
    PoolForJoinOk(cfg, b, who);
  }

  lemma {:induction false} PoolStakesAgree(cfg: Config, b: Bench)
    requires PoolOk(cfg, b)
    ensures PoolSorted(b.pool) && StakesAgree(b.pool, b.participants)
  {
    forall i | 0 <= i < |b.pool|
      ensures b.pool[i].account in b.participants && b.participants[b.pool[i].account].stake == b.pool[i].stake
    {
      assert ItemOk(b.pool[i], b.participants);
    }
  }

  lemma {:induction false} StrangerNotInPool(cfg: Config, b: Bench, who: AccountId)
    requires PoolOk(cfg, b)
    ensures IndexOf(b.pool, who).Some? ==> who in b.participants
  {
    assert forall i :: 0 <= i < |b.pool| ==> ItemOk(b.pool[i], b.participants);
  }

  /** What `delegate` checks of a pretended juror, by searching the pool. */
  predicate IsActiveJuror(pool: seq<PoolItem>, participants: map<AccountId, ParticipantInfo>, juror: AccountId) {
    && juror in participants
    && GetPoolItem(pool, participants[juror].stake, juror).Some?
    && participants[juror].delegations.None?
  }

  lemma {:induction false} ActiveJurorIff(pool: seq<PoolItem>, participants: map<AccountId, ParticipantInfo>,
                                          locks: map<AccountId, Balance>, juror: AccountId)
    requires PoolSorted(pool) && StakesAgree(pool, participants)
    ensures IsActiveJuror(pool, participants, juror) <==> CanBeDelegate(Bench(pool, participants, locks), juror)
  {
    if juror in participants {
      SearchFindsAccount(pool, participants, juror);
    }
  }

  /** The checks of `delegate`, in the order of the source, find the error that the list has. */
  lemma {:induction false} DelegateChecks(cfg: Config, b: Bench, who: AccountId, delegations: seq<AccountId>)
    requires PoolOk(cfg, b)
    ensures (exists i :: 0 <= i < |delegations| && !CanBeDelegate(b, delegations[i]))
       <==> !(forall i :: 0 <= i < |delegations| ==> IsActiveJuror(b.pool, b.participants, delegations[i]))
    ensures (exists i, j :: 0 <= i < j < |delegations| && delegations[i] == delegations[j])
       <==> !(forall i :: 0 <= i < |delegations| - 1 ==> SortList(delegations)[i] != SortList(delegations)[i + 1])
    ensures who in delegations <==> who in SortList(delegations)
    ensures DelegateError(b, cfg, who, delegations).None? ==> DelegationsOk(cfg, who, Some(SortList(delegations)))
  {
    PoolStakesAgree(cfg, b);
    hide CanBeDelegate, IsActiveJuror, PoolOk, Increasing;
    forall i | 0 <= i < |delegations|
      ensures IsActiveJuror(b.pool, b.participants, delegations[i]) <==> CanBeDelegate(b, delegations[i])
    {
      ActiveJurorIff(b.pool, b.participants, b.locks, delegations[i]);
    }
    DistinctIffIncreasing(delegations);
    NoNeighboursEqual(SortList(delegations));
    SortListElements(delegations, who);
  }

  lemma {:induction false} StoreBench(cfg: Config, s: Storage)
    requires StoreOk(cfg, s)
    ensures BenchOk(cfg, s.bench) && PoolOk(cfg, s.bench) && PoolSorted(s.bench.pool) && StakesAgree(s.bench.pool, s.bench.participants)
  {
    PoolStakesAgree(cfg, s.bench);
  }

  // ---- Selecting jurors ----

  /** The sections that the ascending section ends stand for. */
  ghost predicate SectionsAre(ends: seq<nat>, sections: seq<nat>, min: nat, count: nat) {
    && |sections| == |ends|
    && (forall i :: 0 <= i < |ends| ==> ends[i] == Times(sections[i], min) <= U128_MAX && 0 < sections[i] <= count)
    && Increasing(sections)
  }

  lemma {:induction false} SectionsOf(ends: seq<nat>, max: Balance, min: Balance, count: nat) returns (sections: seq<nat>)
    requires 0 < min && max / min <= count && Increasing(ends) && forall e :: e in ends ==> min <= e <= max && e % min == 0
    ensures SectionsAre(ends, sections, min, count)
  {
    sections := seq(|ends|, i requires 0 <= i < |ends| => ends[i] / min);
    forall i | 0 <= i < |ends|
      ensures ends[i] == Times(sections[i], min) <= U128_MAX && 0 < sections[i] <= count
    {
      assert ends[i] in ends;
      SectionOf(ends[i], max, min);
    }
    forall i, j | 0 <= i < j < |ends|
      ensures sections[i] < sections[j]
    {
      if sections[j] <= sections[i] {
        TimesMono(sections[j], sections[i], min);
      }
    }
  }

  lemma {:induction false} SectionOf(e: nat, max: nat, min: nat)
    requires 0 < min <= e <= max && e % min == 0
    ensures e == Times(e / min, min) && 0 < e / min <= max / min
  {
    TimesIsProduct(e / min, min);
    if max / min < e / min {
      MulMono(max / min + 1, e / min, min);
    }
  }

  /** The next section end hits an item that has the section. */
  lemma {:induction false} HitNext(pool: seq<PoolItem>, counts: seq<nat>, totals: seq<(nat, bool)>, min: nat, section: nat,
                                   log: Log, target: Target)
    requires |counts| == |pool| && 0 < min && RunningTotals(totals, counts, min) && HitsOk(pool, counts, log)
    requires 0 < section <= SumTo(counts, |counts|) && Times(section, min) <= U128_MAX
    requires forall t :: 0 <= t < |log| ==> log[t].section < section
    ensures var k := SearchTotals(totals, (Times(section, min), false));
            k < |pool| && HitsOk(pool, counts, log + [Hit(section, k, pool[k].account, target)])
  {
    HitInterval(totals, counts, min, section);
  }

  lemma {:induction false} WithLocksNext(cfg: Config, participants: map<AccountId, ParticipantInfo>, log: Log, h: Hit)
    requires h.account in participants
    ensures var p := WithLocks(cfg, participants, log);
            WithLocks(cfg, participants, log + [h])
            == p[h.account := p[h.account].(activeLock := SatAdd(p[h.account].activeLock, cfg.minJurorStake))]
  {
    forall a | a in participants
      ensures Count(log + [h], Of(a)) == Count(log, Of(a)) + if h.account == a then 1 else 0
    {
      CountNext(log, h, Of(a));
    }
  }

  lemma {:induction false} AfterHitsNext(cfg: Config, pool: seq<PoolItem>, log: Log, h: Hit)
    requires UniqueAccounts(pool) && h.index < |pool| && h.account == pool[h.index].account
    ensures var p := AfterHits(cfg, pool, log);
            AfterHits(cfg, pool, log + [h])
            == p[h.index := p[h.index].(consumedStake := SatAdd(p[h.index].consumedStake, cfg.minJurorStake))]
  {
    forall k | 0 <= k < |pool|
      ensures Count(log + [h], Of(pool[k].account)) == Count(log, Of(pool[k].account)) + if k == h.index then 1 else 0
    {
      CountNext(log, h, Of(pool[k].account));
    }
  }

  lemma {:induction false} FailedNext(log: Log, h: Hit)
    ensures FailedIndices(log + [h]) == FailedIndices(log) + if h.target.Nobody? then [h.index] else []
  {
    assert (log + [h])[..|log|] == log;
  }

  lemma {:induction false} SomeValidJuror(b: Bench, delegations: seq<AccountId>)
    ensures ValidJurors(b, delegations) != [] ==> exists j :: j in delegations && CanBeDelegate(b, j)
  {
    if ValidJurors(b, delegations) != [] {
      assert ValidJurors(b, delegations)[0] in ValidJurors(b, delegations);
    }
  }

  /** Locks do not matter for who can be drawn. */
  lemma {:induction false} SameValidJurors(cfg: Config, b: Bench, log: Log, delegations: seq<AccountId>)
    ensures ValidJurors(b.(participants := WithLocks(cfg, b.participants, log)), delegations) == ValidJurors(b, delegations)
  {
    if delegations != [] {
      SameValidJurors(cfg, b, log, delegations[1..]);
    }
  }

  lemma {:induction false} SameTargets(cfg: Config, b: Bench, log: Log, who: AccountId, target: Target)
    ensures TargetOk(b.(participants := WithLocks(cfg, b.participants, log)), who, target) <==> TargetOk(b, who, target)
  {
    if who in b.participants && b.participants[who].delegations.Some? {
      SameValidJurors(cfg, b, log, b.participants[who].delegations.value);
    }
  }

  lemma {:induction false} LocksKeepStakes(cfg: Config, b: Bench, log: Log)
    requires StakesAgree(b.pool, b.participants)
    ensures StakesAgree(b.pool, WithLocks(cfg, b.participants, log))
  {
  }

  lemma {:induction false} TargetsNext(b: Bench, log: Log, h: Hit)
    requires TargetsOk(b, log) && TargetOk(b, h.account, h.target)
    ensures TargetsOk(b, log + [h])
  {
  }

  lemma {:induction false} RemoveEachStops<T>(s: seq<T>, indices: seq<nat>, n: nat)
    requires n <= |indices| && RemoveEach(s, indices[..n]).None?
    ensures RemoveEach(s, indices).None?
    decreases |indices|
  {
    if n < |indices| {
      var before := indices[..|indices| - 1];
      assert before[..n] == indices[..n];
      RemoveEachStops(s, before, n);
    } else {
      assert indices[..n] == indices;
    }
  }

  /** `remove` for one index after the other; running past the end is a panic. */
  method RemoveIndices<T>(s: seq<T>, indices: seq<nat>) returns (r: Option<seq<T>>)
    ensures r == RemoveEach(s, indices)
  {
    var rest := s;
    for i := 0 to |indices|
      invariant RemoveEach(s, indices[..i]) == Some(rest)
    {
      assert indices[..i + 1][..i] == indices[..i];
      if indices[i] >= |rest| {
        RemoveEachStops(s, indices, i + 1);
        return None;
      }
      rest := RemoveAt(rest, indices[i]);
    }
    assert indices[..|indices|] == indices;
    return Some(rest);
  }

  lemma {:induction false} NextTotal(cfg: Config, pool: seq<PoolItem>, i: nat)
    requires 0 < cfg.minJurorStake && i < |pool|
    ensures var counts, min := SectionCounts(pool, cfg.minJurorStake), cfg.minJurorStake;
            && SatAdd(Min(Times(SumTo(counts, i), min), U128_MAX), Unconsumed(pool[i], min))
               == Min(Times(SumTo(counts, i + 1), min), U128_MAX)
            && (Unconsumed(pool[i], min) == 0 <==> counts[i] == 0)
  {
    hide Unconsumed, Sections;
    var counts, min := SectionCounts(pool, cfg.minJurorStake), cfg.minJurorStake;
    UnconsumedIsSectioned(pool[i], min);
    TimesAdds(SumTo(counts, i), counts[i], min);
  }

  lemma {:induction false} NoTotals(counts: seq<nat>, min: nat)
    ensures Times(SumTo(counts, 0), min) == 0 && RunningTotals([], counts[..0], min)
  {
  }

  lemma {:induction false} SumToPrefix(counts: seq<nat>, n: nat, k: nat)
    requires k <= n <= |counts|
    ensures SumTo(counts[..n], k) == SumTo(counts, k)
  {
    if k > 0 {
      SumToPrefix(counts, n, k - 1);
    }
  }

  lemma {:induction false} TotalsGrow(totals: seq<(nat, bool)>, counts: seq<nat>, min: nat, i: nat)
    requires i < |counts| && RunningTotals(totals, counts[..i], min)
    ensures RunningTotals(totals + [(Min(Times(SumTo(counts, i + 1), min), U128_MAX), counts[i] == 0)], counts[..i + 1], min)
  {
    hide Times;
    var totals', counts' := totals + [(Min(Times(SumTo(counts, i + 1), min), U128_MAX), counts[i] == 0)], counts[..i + 1];
    forall k | 0 <= k < |counts'|
      ensures totals'[k] == (Min(Times(SumTo(counts', k + 1), min), U128_MAX), counts'[k] == 0)
    {
      SumToPrefix(counts, i + 1, k + 1);
      if k < i {
        SumToPrefix(counts, i, k + 1);
        assert totals'[k] == totals[k] && counts[..i][k] == counts'[k];
      }
    }
  }

  /** The running totals of the whole sections, which saturate as the source's do. */
  method CumulativeSectionEnds(cfg: Config, pool: seq<PoolItem>) returns (totals: seq<(nat, bool)>, total: Balance)
    requires 0 < cfg.minJurorStake
    ensures RunningTotals(totals, SectionCounts(pool, cfg.minJurorStake), cfg.minJurorStake)
    ensures total == Min(Times(SumTo(SectionCounts(pool, cfg.minJurorStake), |pool|), cfg.minJurorStake), U128_MAX)
  {
    hide Unconsumed, SatAdd, SectionCounts, Sections, Times, SumTo;
    ghost var counts := SectionCounts(pool, cfg.minJurorStake);
    totals, total := [], 0;
    NoTotals(counts, cfg.minJurorStake);
    for i := 0 to |pool|
      invariant total == Min(Times(SumTo(counts, i), cfg.minJurorStake), U128_MAX)
      invariant RunningTotals(totals, counts[..i], cfg.minJurorStake)
    {
      hide RunningTotals;
      NextTotal(cfg, pool, i);
      var unconsumed := Unconsumed(pool[i], cfg.minJurorStake);
      TotalsGrow(totals, counts, cfg.minJurorStake, i);
      total := SatAdd(total, unconsumed);
      totals := totals + [(total, unconsumed == 0)];
    }
    assert counts[..|pool|] == counts;
  }

  /** What the selection has done after the hits `log`. */
  ghost predicate SelectionSoFar(cfg: Config, b: Bench, log: Log, sections: seq<nat>, sel: Selections, failed: seq<nat>,
                                 pool: seq<PoolItem>)
    requires 0 < cfg.minJurorStake
  {
    && |log| <= |sections| && (forall t :: 0 <= t < |log| ==> log[t].section == sections[t])
    && HitsOk(b.pool, SectionCounts(b.pool, cfg.minJurorStake), log)
    && TargetsOk(b, log)
    && sel == Tally(cfg, log)
    && failed == FailedIndices(log)
    && pool == AfterHits(cfg, b.pool, log)
  }

  lemma {:induction false} SelectionStart(cfg: Config, b: Bench)
    requires 0 < cfg.minJurorStake
    ensures WithLocks(cfg, b.participants, []) == b.participants
    ensures forall sections: seq<nat> :: SelectionSoFar(cfg, b, [], sections, [], [], b.pool)
  {
    assert AfterHits(cfg, b.pool, []) == b.pool;
  }

  /** The next section end hits an item with a whole section left, and the search for delegates
      works on the participants as they are now. */
  lemma {:induction false} SelectionReady(cfg: Config, b: Bench, log: Log, sections: seq<nat>, sel: Selections, failed: seq<nat>,
                                          pool: seq<PoolItem>, ends: seq<nat>, totals: seq<(nat, bool)>)
    requires 0 < cfg.minJurorStake && PoolOk(cfg, b) && SelectionSoFar(cfg, b, log, sections, sel, failed, pool)
    requires var counts := SectionCounts(b.pool, cfg.minJurorStake);
             && RunningTotals(totals, counts, cfg.minJurorStake)
             && SectionsAre(ends, sections, cfg.minJurorStake, SumTo(counts, |counts|))
    requires |log| < |ends|
    ensures |sections| == |ends|
    ensures var k := SearchTotals(totals, (ends[|log|], false));
            && k < |pool| == |b.pool| && pool[k].account == b.pool[k].account && pool[k].account in b.participants
            && Min(SatSub(pool[k].stake, pool[k].consumedStake), cfg.minJurorStake) == cfg.minJurorStake
            && forall target :: HitsOk(b.pool, SectionCounts(b.pool, cfg.minJurorStake),
                                       log + [Hit(sections[|log|], k, pool[k].account, target)])
    ensures UniqueAccounts(b.pool) && PoolSorted(b.pool) && StakesAgree(b.pool, WithLocks(cfg, b.participants, log))
  {
    var counts, section := SectionCounts(b.pool, cfg.minJurorStake), sections[|log|];
    assert ends[|log|] == Times(section, cfg.minJurorStake);
    var k := SearchTotals(totals, (ends[|log|], false));
    PoolStakesAgree(cfg, b);
    LocksKeepStakes(cfg, b, log);
    AllAccountsUnique(cfg, b);
    HitNext(b.pool, counts, totals, cfg.minJurorStake, section, log, Own);
    NextLock(cfg, b.pool, log, Hit(section, k, b.pool[k].account, Own));
    forall target
      ensures HitsOk(b.pool, counts, log + [Hit(section, k, pool[k].account, target)])
    {
      HitNext(b.pool, counts, totals, cfg.minJurorStake, section, log, target);
    }
  }

  lemma {:induction false} SelectionAdds(cfg: Config, b: Bench, log: Log, sections: seq<nat>, sel: Selections, failed: seq<nat>,
                                         pool: seq<PoolItem>, h: Hit)
    requires 0 < cfg.minJurorStake && UniqueAccounts(b.pool) && SelectionSoFar(cfg, b, log, sections, sel, failed, pool)
    requires |log| < |sections| && h.section == sections[|log|]
    requires h.index < |b.pool| && h.account == b.pool[h.index].account
    requires HitsOk(b.pool, SectionCounts(b.pool, cfg.minJurorStake), log + [h])
    requires TargetOk(b.(participants := WithLocks(cfg, b.participants, log)), h.account, h.target)
    ensures SelectionSoFar(cfg, b, log + [h], sections, Apply(cfg, sel, h),
              failed + (if h.target.Nobody? then [h.index] else []),
              pool[h.index := pool[h.index].(consumedStake := SatAdd(pool[h.index].consumedStake, cfg.minJurorStake))])
  {
    hide HitsOk, TargetOk, TargetsOk, WithLocks, AfterHits, Tally, FailedIndices, UniqueAccounts, Apply, SectionCounts;
    SameTargets(cfg, b, log, h.account, h.target);
    TargetsNext(b, log, h);
    TallyNext(cfg, log, h);
    FailedNext(log, h);
    AfterHitsNext(cfg, b.pool, log, h);
  }

  /** What the total says about the number of sections, even if it saturates. */
  lemma {:induction false} TotalSections(count: nat, min: nat, total: Balance, n: nat)
    requires 0 < min && total == Min(Times(count, min), U128_MAX) && n * min <= U128_MAX
    ensures total / min <= count
    ensures n * min <= total <==> n <= count
    ensures n * min <= total ==> n <= total / min
  {
    TimesIsProduct(count, min);
    QuotientWithin(total, min, count);
    if n <= count {
      MulMono(n, count, min);
    } else {
      MulMono(count + 1, n, min);
    }
    if n * min <= total {
      QuotientReaches(total, min, n);
    }
  }

  lemma {:induction false} QuotientWithin(total: nat, min: nat, count: nat)
    requires 0 < min && total <= count * min
    ensures total / min <= count
  {
    if total / min > count {
      MulMono(count + 1, total / min, min);
    }
  }

  lemma {:induction false} QuotientReaches(total: nat, min: nat, n: nat)
    requires 0 < min && n * min <= total
    ensures n <= total / min
  {
    if total / min < n {
      MulMono(total / min + 1, n, min);
    }
  }

  /** Enough stake for the configured rounds. */
  lemma {:induction false} WeightFits(cfg: Config, appeals: nat)
    requires ConfigOk(cfg) && appeals < cfg.maxAppeals
    ensures NecessaryDrawsWeight(appeals) * cfg.minJurorStake <= U128_MAX
  {
    hide NecessaryDrawsWeight;
    DrawsWeightMono(appeals, cfg.maxAppeals - 1);
    MulMono(NecessaryDrawsWeight(appeals), NecessaryDrawsWeight(cfg.maxAppeals - 1), cfg.minJurorStake);
  }

  /** The draw runs past the end of the pool when it removes items. */
  ghost predicate RemovalPanicked(cfg: Config, b: Bench, n: nat, log: Log)
    requires 0 < cfg.minJurorStake
  {
    && |log| == n
    && HitsOk(b.pool, SectionCounts(b.pool, cfg.minJurorStake), log)
    && TargetsOk(b, log)
    && RemoveEach(AfterHits(cfg, b.pool, log), FailedIndices(log)).None?
  }

  // ---- Rounds ----

  lemma {:induction false} UnlockedNext(participants: map<AccountId, ParticipantInfo>, draws: seq<Draw>, i: nat)
    requires i < |draws|
    ensures var u, a := Unlocked(participants, draws[..i]), draws[i].participant;
            Unlocked(participants, draws[..i + 1])
            == if a in u then u[a := u[a].(activeLock := SatSub(u[a].activeLock, draws[i].slashable))] else u
  {
    assert draws[..i + 1][..i] == draws[..i];
  }

  lemma {:induction false} NothingUnlocked(participants: map<AccountId, ParticipantInfo>)
    ensures Unlocked(participants, []) == participants
  {
  }

  lemma {:induction false} DisputePerformed(cfg: Config, s: Storage, s': Storage, m: MarketId, log: Log)
    requires ConfigOk(cfg) && StoreOk(cfg, s) && DisputeStep(cfg, s, s', m, log)
    ensures StoreOk(cfg, s')
  {
    hide BenchOk, IdsOk, JuriesOk, CourtsOk, ScheduleOk, DisputedOk, ItemsOk, DisputeStep;
    DisputeJury(cfg, s, s', m, log);
    DisputeCases(cfg, s, s', m, log);
  }

  /** Why there is no item that a court would resolve on. */
  function LatestWinnerError(s: Storage, c: CourtId): Option<Error> {
    if c !in s.courts then Some(CourtNotFound)
    else if c !in s.marketOf then Some(CourtIdToMarketIdNotFound)
    else if s.marketOf[c] !in s.markets then Some(MarketDoesNotExist)
    else if s.markets[s.marketOf[c]].report.None? then Some(MarketReportNotFound)
    else None
  }

  /** What has to be free for a reserve: the bond, on top of what the court has locked. */
  predicate CanReserve(s: Storage, who: AccountId, bond: Balance) {
    bond + (if who in s.bench.locks then s.bench.locks[who] else 0) <= Free(s, who)
  }

  function AppealableMarketError(s: Storage, c: CourtId): Option<Error>
    requires c in s.courts
  {
    if c in s.marketOf && s.marketOf[c] !in s.markets then Some(MarketDoesNotExist)
    else if c in s.marketOf && s.marketOf[c] !in s.disputed then Some(MarketIsNotDisputed)
    else if c in s.marketOf && !s.markets[s.marketOf[c]].usesCourt then Some(MarketDoesNotHaveCourtMechanism)
    else if !(s.courts[c].roundEnds.aggregation < s.now < s.courts[c].roundEnds.appeal) then Some(NotInAppealPeriod)
    else None
  }

  /** Why an appeal is refused before anybody is drawn. */
  function AppealError(cfg: Config, s: Storage, who: AccountId, c: CourtId): Option<Error> {
    if c !in s.courts then Some(CourtNotFound)
    else if |s.courts[c].appeals| + 1 > cfg.maxAppeals then Some(MaxAppealsReached)
    else if !CanReserve(s, who, AppealBond(cfg, |s.courts[c].appeals| + 1)) then Some(AppealBondExceedsBalance)
    else if AppealableMarketError(s, c).Some? then AppealableMarketError(s, c)
    else LatestWinnerError(s, c)
  }

  /** What passes the checks is appealable: the court of a disputed market is open. */
  lemma {:induction false} AppealPasses(cfg: Config, s: Storage, who: AccountId, c: CourtId)
    requires StoreOk(cfg, s) && AppealError(cfg, s, who, c).None?
    ensures Appealable(cfg, s, c)
  {
    hide BenchOk, JuriesOk, CourtsOk, ScheduleOk, ItemsOk;
  }

  /** Why no round was drawn and scheduled. */
  ghost predicate DrawRefused(cfg: Config, s: Storage, m: MarketId, appeals: nat, log: Log, e: Error)
    requires cfg.Valid()
  {
    var sections := SumTo(SectionCounts(s.bench.pool, cfg.minJurorStake), |s.bench.pool|);
    if sections < NecessaryDrawsWeight(appeals) then e == NotEnoughJurorsAndDelegatorsStake
    else || (e == RemovalOutOfBounds && RemovalPanicked(cfg, s.bench, NecessaryDrawsWeight(appeals), log))
         || (e == StorageOverflow && AddResolve(cfg, s.schedule, m, RoundFrom(cfg, s.requestBlock).appeal).Err?)
  }

  lemma {:induction false} DrawnBench(cfg: Config, b: Bench, b': Bench, appeals: nat, log: Log, draws: seq<Draw>)
    requires cfg.Valid() && Selected(cfg, b, b', appeals, log, draws)
    ensures b' == Bench(b'.pool, WithLocks(cfg, b.participants, log), b.locks)
  {
  }

  /** The storage `s'` after a new jury is drawn, its round is scheduled and the old jury is released. */
  ghost predicate RoundDrawn(cfg: Config, s: Storage, s': Storage, c: CourtId, m: MarketId, number: nat, log: Log)
    requires cfg.Valid()
  {
    var drawn := Bench(s'.bench.pool, WithLocks(cfg, s.bench.participants, log), s.bench.locks);
    var added := AddResolve(cfg, s.schedule, m, RoundFrom(cfg, s.requestBlock).appeal);
    && Selected(cfg, s.bench, drawn, number, log, DrawsIn(s'.draws, c))
    && added.Ok?
    && s' == s.(bench := drawn.(participants := Unlocked(drawn.participants, DrawsIn(s.draws, c))),
                draws := s.draws[c := DrawsIn(s'.draws, c)],
                schedule := added.value)
  }

  /** An appeal fails on its checks, or because no round could be drawn and scheduled. */
  ghost predicate AppealRefused(cfg: Config, s: Storage, who: AccountId, c: CourtId, log: Log, e: Error)
    requires cfg.Valid()
  {
    match AppealError(cfg, s, who, c)
    case Some(error) => e == error
    case None =>
      var number := |s.courts[c].appeals| + 1;
      number < cfg.maxAppeals && DrawRefused(cfg, s, s.marketOf[c], number, log, e)
  }

  /** The checks passed and the bond left the backer's free balance. */
  ghost predicate BondReserved(cfg: Config, s: Storage, s': Storage, who: AccountId, c: CourtId) {
    && AppealError(cfg, s, who, c).None?
    && var bond := AppealBond(cfg, |s.courts[c].appeals| + 1);
       bond <= Free(s, who) && s'.balances == s.balances[who := Free(s, who) - bond]
  }

  lemma {:induction false} AppealPerformed(cfg: Config, s: Storage, mid: Storage, s': Storage, who: AccountId, c: CourtId, log: Log)
    requires ConfigOk(cfg) && StoreOk(cfg, s) && Appealable(cfg, s, c)
    requires var m, number := s.marketOf[c], |s.courts[c].appeals| + 1;
             && (if number < cfg.maxAppeals then RoundDrawn(cfg, s, mid, c, m, number, log) else mid == s && log == [])
             && s' == mid.(schedule := RemoveResolve(mid.schedule, m, s.courts[c].roundEnds.appeal),
                           courts := s.courts[c := AppealedCourt(cfg, s, who, c)],
                           balances := s'.balances)
    ensures AppealStep(cfg, s, s', who, c, log) && StoreOk(cfg, s')
  {
    hide StoreOk, Selected, WithLocks, Unlocked, RoundFrom, AddResolve, RemoveResolve, AppealedCourt;
    assert AppealStep(cfg, s, s', who, c, log);
    hide AppealStep;
    AppealStore(cfg, s, s', who, c, log);
  }

  /** Which of the appealed outcomes a global dispute adds to the oracle's. */
  function AppealedOutcomes(appeals: seq<AppealInfo>, oracle: OutcomeReport): seq<OutcomeReport> {
    if appeals == [] then []
    else
      var item := appeals[|appeals| - 1].appealedItem;
      AppealedOutcomes(appeals[..|appeals| - 1], oracle)
      + if item.Outcome? && item.report != oracle then [item.report] else []
  }

  lemma {:induction false} DisputedHasOpenCourt(cfg: Config, s: Storage, m: MarketId)
    requires StoreOk(cfg, s) && m in s.disputed && m in s.courtOf && s.courtOf[m] in s.courts
    ensures HasOpenCourt(s, m)
  {
    hide BenchOk, JuriesOk, CourtsOk, ScheduleOk, ItemsOk;
  }

  lemma {:induction false} CourtOfMarket(cfg: Config, s: Storage, m: MarketId)
    requires StoreOk(cfg, s) && m in s.courtOf
    ensures s.courtOf[m] in s.marketOf && s.marketOf[s.courtOf[m]] == m
  {
    hide BenchOk, JuriesOk, CourtsOk, ScheduleOk, ItemsOk;
  }

  lemma {:induction false} BlockPerformed(cfg: Config, s: Storage, s': Storage)
    requires ConfigOk(cfg) && StoreOk(cfg, s) && NextBlockStep(cfg, s, s')
    ensures StoreOk(cfg, s')
  {
    hide StoreOk, NextBlockStep;
    BenchKept(cfg, s, s');
    QuietStore(cfg, s, s');
  }

  /** A court that is gone has no draws left. */
  lemma {:induction false} GoneCourtHasNoDraws(cfg: Config, s: Storage, c: CourtId)
    requires StoreOk(cfg, s) && c !in s.courts
    ensures DrawsIn(s.draws, c) == [] && s.draws - {c} == s.draws && s.courts - {c} == s.courts
  {
    hide BenchOk, JuriesOk, CourtsOk, ScheduleOk, ItemsOk;
    assert c !in s.draws;
  }
}
