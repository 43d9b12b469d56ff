/** The court pallet as the runtime holds it: one object whose calls update the storage items.
    The calls are transactional: each performs one step of `CourtSteps`, or fails and leaves
    the whole storage as it was. */
module CourtPallet {
  import opened Numbers
  import opened Ordered
  import opened CourtTypes
  import opened CourtPool
  import opened JurySelection
  import opened JuryDraws
  import opened CourtVotes
  import opened CourtWinner
  import opened CourtStorage
  import opened CourtSteps
  import opened CourtInvariants
  import opened SectionShuffle
  import opened CourtCalls
  import opened CourtMembership
  import Reassignment
  import Inflation

  class Court {
    const cfg: Config
    const treasury: AccountId
    /** The reward pot of a court is a sub-account of the pallet. */
    const rewardPot: CourtId -> AccountId

    /** All storage items. */
    var store: Storage

    ghost predicate Valid()
      reads this
    {
      ConfigOk(cfg) && StoreOk(cfg, store)
    }

    /** After the first block: nobody has joined and nothing is disputed. */
    constructor (cfg: Config, treasury: AccountId, rewardPot: CourtId -> AccountId, balances: map<AccountId, Balance>,
                 markets: map<MarketId, Market>)
      requires ConfigOk(cfg)
      ensures this.cfg == cfg && this.treasury == treasury && this.rewardPot == rewardPot
      ensures store == Storage(Bench([], map[], map[]), map[], map[], 0, map[], map[], SatAddBlock(1, cfg.requestInterval),
                               balances, 1, markets, {}, map[])
      ensures Valid()
    {
      this.cfg, this.treasury, this.rewardPot := cfg, treasury, rewardPot;
      store := Storage(Bench([], map[], map[]), map[], map[], 0, map[], map[], SatAddBlock(1, cfg.requestInterval),
                       balances, 1, markets, {}, map[]);
    }

    // ---- Joining and leaving ----

    /** Joining never runs into the two errors of the insertion. */
    method DoJoinCourt(who: AccountId, amount: Balance, delegations: Option<seq<AccountId>>) returns (r: Result<()>)
      requires Valid() && DelegationsOk(cfg, who, delegations)
      modifies this
      ensures Valid()
      ensures r.Ok? ==> JoinStep(cfg, old(store), store, who, amount, delegations)
      ensures r.Err? ==> store == old(store) && JoinError(cfg, store.bench, who, amount, Free(store, who)) == Some(r.error)
    {
      hide StoreOk, PoolOk, PoolSorted, StakesAgree, DelegationsOk, JoinError, JoinPlan, PoolForJoin, JoinedItem, Joined, TryInsert;
      StoreBench(cfg, store);
      var b := store.bench;
      JoinPlanIs(cfg, b, who, amount, Free(store, who), store.now);
      var plan := JoinPlan(cfg, b.pool, InfoOf(b.participants, who), who, amount, Free(store, who), store.now);
      if plan.Err? {
        return Err(plan.error);
      }
      InsertionSucceeds(cfg, b, who, amount, delegations, store.now);
      var activeLock := if who in b.participants then b.participants[who].activeLock else 0;
      b := b.(locks := b.locks[who := amount]);
      b := b.(pool := TryInsert(cfg, plan.value.0, plan.value.1).value);
      b := b.(participants := b.participants[who := ParticipantInfo(amount, activeLock, None, delegations)]);
      store := store.(bench := b);
      JoinStore(cfg, old(store), store, who, amount, delegations);
      return Ok(());
    }

    method JoinCourt(who: AccountId, amount: Balance) returns (r: Result<()>)
      requires Valid()
      modifies this
      ensures Valid()
      ensures r.Ok? ==> JoinStep(cfg, old(store), store, who, amount, None)
      ensures r.Err? ==> store == old(store) && JoinError(cfg, store.bench, who, amount, Free(store, who)) == Some(r.error)
    {
      r := DoJoinCourt(who, amount, None);
    }

    /** The delegations are stored in order, whatever order they are given in. */
    method Delegate(who: AccountId, amount: Balance, delegations: seq<AccountId>) returns (r: Result<()>)
      requires Valid()
      modifies this
      ensures Valid()
      ensures r.Ok? ==> DelegateError(old(store.bench), cfg, who, delegations).None?
      ensures r.Ok? ==> forall i :: 0 <= i < |delegations| ==> VotesInPerson(old(store.bench), delegations[i])
      ensures r.Ok? ==> JoinStep(cfg, old(store), store, who, amount, Some(SortList(delegations)))
      ensures r.Err? ==> store == old(store)
      ensures r.Err? ==> Some(r.error) == match DelegateError(store.bench, cfg, who, delegations)
                                          case Some(e) => Some(e)
                                          case None => JoinError(cfg, store.bench, who, amount, Free(store, who))
    {
      hide StoreOk, PoolOk, PoolSorted, StakesAgree, DelegationsOk, IsActiveJuror, CanBeDelegate, VotesInPerson, JoinError, JoinStep;
      StoreBench(cfg, store);
      if delegations == [] {
        return Err(NoDelegations);
      }
      if |delegations| > cfg.maxDelegations {
        return Err(MaxDelegationsReached);
      }
      DelegateChecks(cfg, store.bench, who, delegations);
      DelegatesVote(store.bench, delegations);
      var b := store.bench;
      if !(forall i :: 0 <= i < |delegations| ==> IsActiveJuror(b.pool, b.participants, delegations[i])) {
        return Err(DelegatedToInvalidJuror);
      }
      var sorted := SortList(delegations);
      if !(forall i :: 0 <= i < |sorted| - 1 ==> sorted[i] != sorted[i + 1]) {
        return Err(IdenticalDelegationsNotAllowed);
      }
      if who in sorted {
        return Err(SelfDelegationNotAllowed);
      }
      r := DoJoinCourt(who, amount, Some(sorted));
    }

    method PrepareExitCourt(who: AccountId) returns (r: Result<()>)
      requires Valid()
      modifies this
      ensures Valid()
      ensures r.Ok? ==> PrepareExitStep(old(store), store, who)
      ensures r.Err? ==> store == old(store) && PrepareExitError(store.bench, who) == Some(r.error)
    {
      hide StoreOk, PoolOk, PoolSorted, StakesAgree;
      var b := store.bench;
      if who !in b.participants {
        return Err(JurorDoesNotExist);
      }
      var info := b.participants[who];
      if info.prepareExitAt.Some? {
        return Err(AlreadyPreparedExit);
      }
      StoreBench(cfg, store);
      SearchFindsAccount(b.pool, b.participants, who);
      match GetPoolItem(b.pool, info.stake, who) {
        case Some(i) => b := b.(pool := RemoveAt(b.pool, i));
        case None =>
      }
      store := store.(bench := b.(participants := b.participants[who := info.(prepareExitAt := Some(store.now))]));
      LeaveStore(cfg, old(store), store, who);
      return Ok(());
    }

    method ExitCourt(who: AccountId) returns (r: Result<()>)
      requires Valid()
      modifies this
      ensures Valid()
      ensures r.Ok? ==> ExitStep(cfg, old(store), store, who)
      ensures r.Err? ==> store == old(store) && ExitError(cfg, store.bench, who, store.now) == Some(r.error)
    {
      hide StoreOk;
      var b := store.bench;
      if who !in b.participants {
        return Err(JurorDoesNotExist);
      }
      var info := b.participants[who];
      if info.prepareExitAt.None? {
        return Err(PrepareExitAtNotPresent);
      }
      if SatSub(store.now, info.prepareExitAt.value) < cfg.inflationPeriod {
        return Err(PrematureExit);
      }
      if info.activeLock == 0 {
        b := b.(locks := b.locks - {who}, participants := b.participants - {who});
      } else {
        b := b.(locks := b.locks[who := info.activeLock],
                participants := b.participants[who := info.(stake := info.activeLock)]);
      }
      store := store.(bench := b);
      LeaveStore(cfg, old(store), store, who);
      return Ok(());
    }

    // ---- Voting ----

    method Vote(who: AccountId, c: CourtId, commitment: Hash) returns (r: Result<()>)
      requires Valid()
      modifies this
      ensures Valid()
      ensures r.Ok? ==> VoteStep(old(store), store, c, VoteCall(old(store), who, c, commitment))
      ensures r.Err? ==> store == old(store) && VoteCall(store, who, c, commitment) == Err(r.error)
    {
      hide StoreOk;
      if c !in store.courts {
        return Err(CourtNotFound);
      }
      var ends := store.courts[c].roundEnds;
      if !(ends.preVote < store.now <= ends.vote) {
        return Err(NotInVotingPeriod);
      }
      var draws := DrawsIn(store.draws, c);
      match FindDraw(draws, who) {
        case None => return Err(CallerNotInSelectedDraws);
        case Some(i) =>
          if !draws[i].vote.Drawn? && !draws[i].vote.Secret? {
            return Err(InvalidVoteState);
          }
          draws := draws[i := draws[i].(vote := Secret(commitment))];
      }
      store := store.(draws := store.draws[c := draws]);
      VotePerformed(cfg, old(store), store, who, c, commitment);
      return Ok(());
    }

    /** The checks that denouncing and revealing share. */
    method CheckItem(c: CourtId, item: VoteItem) returns (r: Option<Error>)
      ensures r == MarketItemError(store, c, item)
    {
      if c in store.marketOf {
        var m := store.marketOf[c];
        if m !in store.markets {
          return Some(MarketDoesNotExist);
        }
        if !item.Outcome? {
          return Some(VoteItemIsNoOutcome);
        }
        if !store.markets[m].Matches(item.report) {
          return Some(OutcomeMismatch);
        }
      }
      return None;
    }

    method DenounceVote(who: AccountId, c: CourtId, juror: AccountId, item: VoteItem, salt: Hash) returns (r: Result<()>)
      requires Valid()
      modifies this
      ensures Valid()
      ensures r.Ok? ==> VoteStep(old(store), store, c, DenounceCall(cfg, old(store), who, c, juror, item, salt))
      ensures r.Err? ==> store == old(store) && DenounceCall(cfg, store, who, c, juror, item, salt) == Err(r.error)
    {
      hide StoreOk, MarketItemError;
      var itemError := CheckItem(c, item);
      if itemError.Some? {
        return Err(itemError.value);
      }
      if who == juror {
        return Err(CallerDenouncedItself);
      }
      if juror !in store.bench.participants {
        return Err(JurorDoesNotExist);
      }
      if c !in store.courts {
        return Err(CourtNotFound);
      }
      var typeError := ItemTypeError(store.courts[c], item);
      if typeError.Some? {
        return Err(typeError.value);
      }
      var ends := store.courts[c].roundEnds;
      if !(ends.preVote < store.now <= ends.vote) {
        return Err(NotInVotingPeriod);
      }
      var draws := DrawsIn(store.draws, c);
      match FindDraw(draws, juror) {
        case None => return Err(JurorNotDrawn);
        case Some(i) =>
          var commitment := HashedCommitment(cfg, draws[i].vote, juror, item, salt);
          if commitment.Err? {
            return Err(commitment.error);
          }
          draws := draws[i := draws[i].(vote := Denounced(commitment.value, item, salt))];
      }
      store := store.(draws := store.draws[c := draws]);
      DenouncePerformed(cfg, old(store), store, who, c, juror, item, salt);
      return Ok(());
    }

    method RevealVote(who: AccountId, c: CourtId, item: VoteItem, salt: Hash) returns (r: Result<()>)
      requires Valid()
      modifies this
      ensures Valid()
      ensures r.Ok? ==> VoteStep(old(store), store, c, RevealCall(cfg, old(store), who, c, item, salt))
      ensures r.Err? ==> store == old(store) && RevealCall(cfg, store, who, c, item, salt) == Err(r.error)
    {
      hide StoreOk, MarketItemError;
      var itemError := CheckItem(c, item);
      if itemError.Some? {
        return Err(itemError.value);
      }
      if who !in store.bench.participants {
        return Err(CallerIsNotACourtParticipant);
      }
      if c !in store.courts {
        return Err(CourtNotFound);
      }
      var typeError := ItemTypeError(store.courts[c], item);
      if typeError.Some? {
        return Err(typeError.value);
      }
      var ends := store.courts[c].roundEnds;
      if !(ends.vote < store.now <= ends.aggregation) {
        return Err(NotInAggregationPeriod);
      }
      var draws := DrawsIn(store.draws, c);
      match FindDraw(draws, who) {
        case None => return Err(CallerNotInSelectedDraws);
        case Some(i) =>
          var commitment := HashedCommitment(cfg, draws[i].vote, who, item, salt);
          if commitment.Err? {
            return Err(commitment.error);
          }
          draws := draws[i := draws[i].(vote := Revealed(commitment.value, item, salt))];
      }
      store := store.(draws := store.draws[c := draws]);
      RevealPerformed(cfg, old(store), store, who, c, item, salt);
      return Ok(());
    }

    // ---- Selecting jurors ----

    /** Some delegate that can be drawn, if there is one. */
    method GetValidDelegatedJuror(delegations: seq<AccountId>) returns (juror: Option<AccountId>)
      requires PoolSorted(store.bench.pool) && StakesAgree(store.bench.pool, store.bench.participants)
      ensures juror.None? ==> ValidJurors(store.bench, delegations) == []
      ensures juror.Some? ==> juror.value in ValidJurors(store.bench, delegations)
      ensures juror.None? <==> forall i :: 0 <= i < |delegations| ==> !VotesInPerson(store.bench, delegations[i])
      ensures juror.Some? ==> juror.value in delegations && VotesInPerson(store.bench, juror.value)
    {
      hide PoolSorted, StakesAgree, IsActiveJuror, CanBeDelegate, VotesInPerson;
      var b := store.bench;
      DelegatesVote(b, delegations);
      var valid: seq<AccountId> := [];
      for i := 0 to |delegations|
        invariant forall j :: j in valid <==> j in delegations[..i] && CanBeDelegate(b, j)
      {
        ActiveJurorIff(b.pool, b.participants, b.locks, delegations[i]);
        assert delegations[..i + 1] == delegations[..i] + [delegations[i]];
        if IsActiveJuror(b.pool, b.participants, delegations[i]) {
          valid := valid + [delegations[i]];
        }
      }
      assert delegations[..|delegations|] == delegations;
      if valid == [] {
        SomeValidJuror(b, delegations);
        return None;
      }
      var k := GenRange(0, |valid|);
      return Some(valid[k]);
    }

    /** The selections with the hit on a participant, or nothing if there is nobody to vote. */
    method AddToSelections(sel: Selections, who: AccountId, lock: Balance) returns (r: Option<Selections>, ghost target: Target)
      requires PoolSorted(store.bench.pool) && StakesAgree(store.bench.pool, store.bench.participants)
      ensures who in store.bench.participants ==> TargetOk(store.bench, who, target)
      ensures who !in store.bench.participants ==> target.Own?
      ensures r == if target.Nobody? then None else Some(Place(cfg, sel, who, target, lock))
    {
      hide PoolSorted, StakesAgree, UpdateSelections;
      var info := InfoOf(store.bench.participants, who);
      if info.Some? && info.value.delegations.Some? {
        var juror := GetValidDelegatedJuror(info.value.delegations.value);
        if juror.None? {
          return None, Nobody;
        }
        var sel' := UpdateSelections(cfg, sel, juror.value, DelegationWeight);
        sel' := UpdateSelections(cfg, sel', who, DelegationStake(juror.value, lock));
        return Some(sel'), Via(juror.value);
      }
      return Some(UpdateSelections(cfg, sel, who, SelfStake(lock))), Own;
    }

    method AddActiveLock(who: AccountId, lock: Balance)
      modifies this
      ensures who !in old(store.bench.participants) ==> store == old(store)
      ensures who in old(store.bench.participants) ==>
                var p := old(store.bench.participants);
                store == old(store).(bench := old(store.bench).(participants :=
                  p[who := p[who].(activeLock := SatAdd(p[who].activeLock, lock))]))
    {
      var b := store.bench;
      if who in b.participants {
        var info := b.participants[who];
        store := store.(bench := b.(participants :=
          b.participants[who := info.(activeLock := SatAdd(info.activeLock, lock))]));
      }
    }

    /** One section end: the hit item locks and consumes one whole section. */
    method SelectOne(end: nat, totals: seq<(nat, bool)>, pool: seq<PoolItem>, sel: Selections, failed: seq<nat>,
                     ghost b: Bench, ghost log: Log, ghost ends: seq<nat>, ghost sections: seq<nat>)
      returns (pool': seq<PoolItem>, sel': Selections, failed': seq<nat>, ghost h: Hit)
      requires 0 < cfg.minJurorStake && PoolOk(cfg, b) && SelectionSoFar(cfg, b, log, sections, sel, failed, pool)
      requires var counts := SectionCounts(b.pool, cfg.minJurorStake);
               && RunningTotals(totals, counts, cfg.minJurorStake)
               && SectionsAre(ends, sections, cfg.minJurorStake, SumTo(counts, |counts|))
      requires |log| < |ends| && end == ends[|log|]
      requires store.bench == b.(participants := WithLocks(cfg, b.participants, log))
      modifies this
      ensures SelectionSoFar(cfg, b, log + [h], sections, sel', failed', pool')
      ensures store == old(store).(bench := b.(participants := WithLocks(cfg, b.participants, log + [h])))
    {
      hide SelectionSoFar, PoolOk, RunningTotals, SectionsAre, WithLocks, PoolSorted, StakesAgree, HitsOk, TargetOk;
      hide UniqueAccounts, SectionCounts, SumTo, UpdateSelections, Tally;
      var k := SearchTotals(totals, (end, false));
      SelectionReady(cfg, b, log, sections, sel, failed, pool, ends, totals);
      var item := pool[k];
      var lock := Min(SatSub(item.stake, item.consumedStake), cfg.minJurorStake);
      ghost var target;
      var placed;
      placed, target := AddToSelections(sel, item.account, lock);
      h := Hit(sections[|log|], k, item.account, target);
      SelectionAdds(cfg, b, log, sections, sel, failed, pool, h);
      WithLocksNext(cfg, b.participants, log, h);
      sel', failed' := sel, failed;
      if placed.Some? {
        sel' := placed.value;
        assert failed' == failed + [];
      } else {
        failed' := failed + [k];
      }
      AddActiveLock(item.account, lock);
      pool' := pool[k := item.(consumedStake := SatAdd(item.consumedStake, lock))];
    }

    /** The hits of the section ends, each of which locks one whole section: the participants get
        their locks, and the new pool has the consumed stake and is without the items that the
        removal takes away. */
    method GetSelections(ends: seq<nat>, totals: seq<(nat, bool)>, ghost sections: seq<nat>)
      returns (r: Result<Selections>, pool: seq<PoolItem>, ghost log: Log)
      requires 0 < cfg.minJurorStake && PoolOk(cfg, store.bench)
      requires var counts := SectionCounts(store.bench.pool, cfg.minJurorStake);
               && RunningTotals(totals, counts, cfg.minJurorStake)
               && SectionsAre(ends, sections, cfg.minJurorStake, SumTo(counts, |counts|))
      modifies this
      ensures |log| == |ends|
      ensures HitsOk(old(store.bench.pool), SectionCounts(old(store.bench.pool), cfg.minJurorStake), log)
      ensures TargetsOk(old(store.bench), log)
      ensures store == old(store).(bench := old(store.bench).(participants := WithLocks(cfg, old(store.bench.participants), log)))
      ensures r.Ok? ==>
                && r.value == Tally(cfg, log)
                && RemoveEach(AfterHits(cfg, old(store.bench.pool), log), FailedIndices(log)) == Some(pool)
      ensures r.Err? ==>
                && r.error == RemovalOutOfBounds
                && RemoveEach(AfterHits(cfg, old(store.bench.pool), log), FailedIndices(log)).None?
    {
      ghost var b := store.bench;
      pool := store.bench.pool;
      var sel: Selections := [];
      var failed: seq<nat> := [];
      log := [];
      SelectionStart(cfg, b);
      for i := 0 to |ends|
        invariant |log| == i && SelectionSoFar(cfg, b, log, sections, sel, failed, pool)
        invariant store == old(store).(bench := b.(participants := WithLocks(cfg, b.participants, log)))
      {
        hide SelectionSoFar, PoolOk, RunningTotals, SectionsAre, WithLocks, SectionCounts, SumTo;
        ghost var h;
        pool, sel, failed, h := SelectOne(ends[i], totals, pool, sel, failed, b, log, ends, sections);
        log := log + [h];
      }
      hide RemoveEach, AfterHits, FailedIndices, Tally, HitsOk, TargetsOk, WithLocks, PoolOk, RunningTotals, SectionsAre;
      var rest := RemoveIndices(pool, failed);
      if rest.None? {
        return Err(RemovalOutOfBounds), pool, log;
      }
      return Ok(sel), rest.value, log;
    }

    /** Draw `n` sections of the pool. */
    method ChooseMultipleWeighted(n: nat) returns (r: Result<seq<Draw>>, ghost log: Log)
      requires 0 < cfg.minJurorStake && PoolOk(cfg, store.bench)
      requires n * cfg.minJurorStake <= U128_MAX
      modifies this
      ensures r.Ok? ==> store == old(store).(bench := store.bench)
      ensures r.Ok? ==> Chosen(cfg, old(store.bench), store.bench, n, log, r.value)
      ensures r.Ok? ==> n <= SumTo(SectionCounts(old(store.bench.pool), cfg.minJurorStake), |old(store.bench.pool)|)
      ensures r.Err? ==> store == old(store)
      ensures r.Err? ==>
                var sections := SumTo(SectionCounts(store.bench.pool, cfg.minJurorStake), |store.bench.pool|);
                if sections < n then r.error == NotEnoughJurorsAndDelegatorsStake
                else r.error == RemovalOutOfBounds && RemovalPanicked(cfg, store.bench, n, log)
    {
      hide PoolOk, HitsOk, TargetsOk, RunningTotals, Increasing, Choices, EndsOf, SectionsAre, Times, SumTo;
      var totals, total := CumulativeSectionEnds(cfg, store.bench.pool);
      TotalSections(SumTo(SectionCounts(store.bench.pool, cfg.minJurorStake), |store.bench.pool|), cfg.minJurorStake, total, n);
      if total < n * cfg.minJurorStake {
        return Err(NotEnoughJurorsAndDelegatorsStake), [];
      }
      ghost var choices;
      var ends;
      ends, choices := GetNRandomSectionEnds(n, total, cfg.minJurorStake);
      EndsFit(ends, choices, total, cfg.minJurorStake);
      ghost var sections := SectionsOf(ends, total, cfg.minJurorStake,
                                       SumTo(SectionCounts(store.bench.pool, cfg.minJurorStake), |store.bench.pool|));
      var before := store;
      var sel, pool;
      sel, pool, log := GetSelections(ends, totals, sections);
      if sel.Err? {
        store := before;
        return Err(sel.error), log;
      }
      store := store.(bench := store.bench.(pool := pool));
      return Ok(DrawsOf(sel.value)), log;
    }

    method SelectParticipants(appeals: nat) returns (r: Result<seq<Draw>>, ghost log: Log)
      requires ConfigOk(cfg) && PoolOk(cfg, store.bench) && appeals < cfg.maxAppeals
      modifies this
      ensures r.Ok? ==> store == old(store).(bench := store.bench)
      ensures r.Ok? ==> Selected(cfg, old(store.bench), store.bench, appeals, log, r.value)
      ensures r.Ok? ==>
                NecessaryDrawsWeight(appeals) <= SumTo(SectionCounts(old(store.bench.pool), cfg.minJurorStake), |old(store.bench.pool)|)
      ensures r.Err? ==> store == old(store)
      ensures r.Err? ==>
                var sections := SumTo(SectionCounts(store.bench.pool, cfg.minJurorStake), |store.bench.pool|);
                if sections < NecessaryDrawsWeight(appeals) then r.error == NotEnoughJurorsAndDelegatorsStake
                else r.error == RemovalOutOfBounds && RemovalPanicked(cfg, store.bench, NecessaryDrawsWeight(appeals), log)
    {
      hide PoolOk, RemovalPanicked, SumTo, NecessaryDrawsWeight;
      WeightFits(cfg, appeals);
      r, log := ChooseMultipleWeighted(NecessaryDrawsWeight(appeals));
      if r.Ok? {
        r := Ok(Truncated(cfg, r.value));
      }
    }

    // ---- Rounds ----

    method UnlockParticipantsFromLastDraw(draws: seq<Draw>)
      modifies this
      ensures store == old(store).(bench := old(store.bench).(participants := Unlocked(old(store.bench.participants), draws)))
    {
      hide Unlocked;
      ghost var before := store.bench.participants;
      NothingUnlocked(before);
      for i := 0 to |draws|
        invariant store == old(store).(bench := old(store.bench).(participants := Unlocked(before, draws[..i])))
      {
        UnlockedNext(before, draws, i);
        var b, who := store.bench, draws[i].participant;
        if who in b.participants {
          var info := b.participants[who];
          info := info.(activeLock := SatSub(info.activeLock, draws[i].slashable));
          store := store.(bench := b.(participants := b.participants[who := info]));
        }
      }
      assert draws[..|draws|] == draws;
    }

    method GetLatestWinnerVoteItem(c: CourtId, draws: seq<Draw>) returns (r: Result<VoteItem>)
      ensures r.Err? ==> LatestWinnerError(store, c) == Some(r.error)
      ensures r.Ok? ==>
                && LatestWinnerError(store, c).None?
                && r.value == LatestWinner(store.courts[c], draws, store.markets[store.marketOf[c]].report.value)
    {
      if c !in store.courts {
        return Err(CourtNotFound);
      }
      var last := LastAppealed(store.courts[c]);
      if c !in store.marketOf {
        return Err(CourtIdToMarketIdNotFound);
      }
      var m := store.marketOf[c];
      if m !in store.markets {
        return Err(MarketDoesNotExist);
      }
      if store.markets[m].report.None? {
        return Err(MarketReportNotFound);
      }
      hide IsWinner, Winner;
      var winner := GetWinner(draws, last);
      WinnerIsWinner(draws, last, winner);
      return Ok(if winner.Some? then winner.value else Outcome(store.markets[m].report.value));
    }

    /** A court is opened for a market that never had one and that is not scheduled; the caller
        then marks the market as disputed. */
    method OnDispute(m: MarketId) returns (r: Result<()>, ghost log: Log)
      requires Valid()
      requires m in store.markets && m !in store.courtOf
      requires forall t: BlockNumber :: TimesScheduled(store.schedule, m, t) == 0
      modifies this
      ensures Valid()
      ensures r.Ok? ==> DisputeStep(cfg, old(store), store, m, log)
      ensures r.Err? ==> store == old(store)
      ensures r.Err? ==>
                if !store.markets[m].usesCourt then r.error == MarketDoesNotHaveCourtMechanism
                else if store.nextCourtId == U128_MAX then r.error == MaxCourtIdReached
                else DrawRefused(cfg, store, m, 0, log, r.error)
    {
      hide StoreOk, PoolOk, PoolSorted, StakesAgree, Selected, RemovalPanicked, SumTo, TimesScheduled, RoundFrom, NecessaryDrawsWeight;
      log := [];
      if !store.markets[m].usesCourt {
        return Err(MarketDoesNotHaveCourtMechanism), [];
      }
      var c := store.nextCourtId;
      if c == U128_MAX {
        return Err(MaxCourtIdReached), [];
      }
      StoreBench(cfg, store);
      var before := store;
      var draws;
      draws, log := SelectParticipants(0);
      if draws.Err? {
        return Err(draws.error), log;
      }
      var court := CourtInfo(Open, [], RoundFrom(cfg, store.requestBlock), OutcomeType);
      var added := AddResolve(cfg, store.schedule, m, court.roundEnds.appeal);
      if added.Err? {
        store := before;
        return Err(added.error), log;
      }
      store := store.(schedule := added.value,
                      draws := store.draws[c := draws.value],
                      courts := store.courts[c := court],
                      courtOf := store.courtOf[m := c],
                      marketOf := store.marketOf[c := m],
                      nextCourtId := c + 1,
                      disputed := store.disputed + {m});
      DisputePerformed(cfg, old(store), store, m, log);
      return Ok(()), log;
    }

    /** The part of an appeal that draws a new jury and releases the old one. */
    method NextRound(c: CourtId, m: MarketId, number: nat) returns (r: Result<()>, ghost log: Log)
      requires ConfigOk(cfg) && PoolOk(cfg, store.bench) && number < cfg.maxAppeals
      modifies this
      ensures r.Err? ==> store == old(store)
      ensures r.Err? ==> DrawRefused(cfg, store, m, number, log, r.error)
      ensures r.Ok? ==> RoundDrawn(cfg, old(store), store, c, m, number, log)
      ensures r.Ok? ==> store.balances == old(store.balances) && store.courts == old(store.courts)
    {
      hide PoolOk, Selected, RemovalPanicked, SumTo, RoundFrom, NecessaryDrawsWeight, Unlocked, Chosen;
      ghost var s := store;
      var before, oldDraws := store, DrawsIn(store.draws, c);
      var draws;
      draws, log := SelectParticipants(number);
      if draws.Err? {
        return Err(draws.error), log;
      }
      ghost var drawn := store.bench;
      DrawnBench(cfg, s.bench, drawn, number, log, draws.value);
      var added := AddResolve(cfg, store.schedule, m, RoundFrom(cfg, store.requestBlock).appeal);
      if added.Err? {
        store := before;
        return Err(added.error), log;
      }
      store := store.(schedule := added.value, draws := store.draws[c := draws.value]);
      UnlockParticipantsFromLastDraw(oldDraws);
      return Ok(()), log;
    }

    /** The checks of an appeal, and the item that it appeals. */
    method CheckAppeal(who: AccountId, c: CourtId) returns (r: Result<VoteItem>)
      ensures r.Err? ==> AppealError(cfg, store, who, c) == Some(r.error)
      ensures r.Ok? ==>
                && AppealError(cfg, store, who, c).None?
                && c in store.courts && |store.courts[c].appeals| < cfg.maxAppeals
                && c in store.marketOf && store.marketOf[c] in store.markets && store.markets[store.marketOf[c]].report.Some?
                && AppealBond(cfg, |store.courts[c].appeals| + 1) <= Free(store, who)
                && r.value == LatestWinner(store.courts[c], DrawsIn(store.draws, c), store.markets[store.marketOf[c]].report.value)
    {
      hide AppealBond, LatestWinner;
      if c !in store.courts {
        return Err(CourtNotFound);
      }
      var number := |store.courts[c].appeals| + 1;
      if number > cfg.maxAppeals {
        return Err(MaxAppealsReached);
      }
      if !CanReserve(store, who, AppealBond(cfg, number)) {
        return Err(AppealBondExceedsBalance);
      }
      var refused := AppealableMarketError(store, c);
      if refused.Some? {
        return Err(refused.value);
      }
      r := GetLatestWinnerVoteItem(c, DrawsIn(store.draws, c));
    }

    /** An appeal reserves the bond, records the item that would have won and starts the next
        round; the last possible appeal leaves the court without a next round. */
    method Appeal(who: AccountId, c: CourtId) returns (r: Result<()>, ghost log: Log)
      requires Valid()
      modifies this
      ensures Valid()
      ensures r.Ok? ==> AppealStep(cfg, old(store), store, who, c, log) && BondReserved(cfg, old(store), store, who, c)
      ensures r.Err? ==> store == old(store) && AppealRefused(cfg, store, who, c, log, r.error)
    {
      hide StoreOk, PoolOk, PoolSorted, StakesAgree, DrawRefused, RoundFrom, AppealBond, LatestWinner, AppealStep, RoundDrawn, AppealError, Appealable;
      ghost var s := store;
      log := [];
      var item := CheckAppeal(who, c);
      if item.Err? {
        return Err(item.error), [];
      }
      var court := store.courts[c];
      var number := |court.appeals| + 1;
      var bond := AppealBond(cfg, number);
      AppealPasses(cfg, s, who, c);
      StoreBench(cfg, s);
      court := court.(appeals := court.appeals + [AppealInfo(who, bond, item.value)]);
      var lastResolveAt, m := court.roundEnds.appeal, store.marketOf[c];
      if number < cfg.maxAppeals {
        court := court.(roundEnds := RoundFrom(cfg, store.requestBlock));
        r, log := NextRound(c, m, number);
        if r.Err? {
          return r, log;
        }
      }
      ghost var mid := store;
      assert court == AppealedCourt(cfg, s, who, c);
      store := store.(schedule := RemoveResolve(store.schedule, m, lastResolveAt));
      store := store.(balances := store.balances[who := Free(store, who) - bond]);
      store := store.(courts := store.courts[c := court]);
      AppealPerformed(cfg, s, mid, store, who, c, log);
      return Ok(()), log;
    }

    // ---- The end of a court ----

    /** The market is due, or an administrator resolves it. The court releases the jury and records
        the winner, which is always an outcome; the caller then takes the market off the schedule and
        out of the disputed ones. */
    method OnResolution(m: MarketId) returns (r: Result<OutcomeReport>)
      requires Valid() && m in store.markets && m in store.disputed
      modifies this
      ensures Valid()
      ensures r.Ok? ==> ResolveStep(old(store), store, m) && store.courts[store.courtOf[m]].status == Closed(Outcome(r.value))
      ensures r.Err? ==> store == old(store)
      ensures r.Err? ==>
                if !store.markets[m].usesCourt then r.error == MarketDoesNotHaveCourtMechanism
                else if m !in store.courtOf then r.error == MarketIdToCourtIdNotFound
                else Some(r.error) == LatestWinnerError(store, store.courtOf[m])
    {
      hide StoreOk, Unlocked, LatestWinner, RemoveResolve, OutcomesOnly;
      if !store.markets[m].usesCourt {
        return Err(MarketDoesNotHaveCourtMechanism);
      }
      if m !in store.courtOf {
        return Err(MarketIdToCourtIdNotFound);
      }
      var c := store.courtOf[m];
      var draws := DrawsIn(store.draws, c);
      var winner := GetLatestWinnerVoteItem(c, draws);
      if winner.Err? {
        return Err(winner.error);
      }
      CourtOfMarket(cfg, store, m);
      CourtItems(cfg, store, c);
      LatestIsOutcome(store.courts[c], draws, store.markets[m].report.value);
      DisputedHasOpenCourt(cfg, store, m);
      UnlockParticipantsFromLastDraw(draws);
      store := store.(courts := store.courts[c := store.courts[c].(status := Closed(winner.value))]);
      store := store.(disputed := store.disputed - {m}, schedule := RemoveResolve(store.schedule, m, store.courts[c].roundEnds.appeal));
      ResolveStore(cfg, old(store), store, m);
      return Ok(winner.value.report);
    }

    /** A global dispute takes over, and starts with the appealed outcomes that
        are not the oracle's. A market without a court is left alone. */
    method OnGlobalDispute(m: MarketId) returns (r: Result<seq<OutcomeReport>>)
      requires Valid() && m in store.markets
      modifies this
      ensures Valid()
      ensures r.Ok? ==>
                if m in old(store.courtOf) then
                  && old(store).courtOf[m] in old(store.courts)
                  && store == AfterAbandon(old(store), m) && store.markets[m].report.Some?
                  && (m in store.disputed ==> AbandonStep(old(store), store, m))
                  && r.value == AppealedOutcomes(old(store).courts[store.courtOf[m]].appeals, store.markets[m].report.value)
                else store == old(store) && r.value == []
      ensures r.Err? ==> store == old(store)
      ensures r.Err? ==>
                if !store.markets[m].usesCourt then r.error == MarketDoesNotHaveCourtMechanism
                else m in store.courtOf
                     && if store.courtOf[m] !in store.courts then r.error == CourtNotFound
                        else r.error == MarketReportNotFound && store.markets[m].report.None?
    {
      hide StoreOk, Unlocked;
      if !store.markets[m].usesCourt {
        return Err(MarketDoesNotHaveCourtMechanism);
      }
      if m !in store.courtOf {
        return Ok([]);
      }
      var c := store.courtOf[m];
      if c !in store.courts {
        return Err(CourtNotFound);
      }
      if store.markets[m].report.None? {
        return Err(MarketReportNotFound);
      }
      if m in store.disputed {
        DisputedHasOpenCourt(cfg, store, m);
      }
      var outcomes := AppealedOutcomes(store.courts[c].appeals, store.markets[m].report.value);
      UnlockParticipantsFromLastDraw(DrawsIn(store.draws, c));
      store := store.(draws := store.draws - {c}, courts := store.courts - {c});
      AfterAbandonOk(cfg, old(store), m);
      return Ok(outcomes);
    }

    /** The dispute of a market is cleared. Clearing again changes nothing. */
    method Clear(m: MarketId) returns (r: Result<()>)
      requires Valid() && m in store.markets
      modifies this
      ensures Valid()
      ensures r.Ok? ==> m in old(store.courtOf) && store == AfterAbandon(old(store), m)
      ensures r.Ok? ==>
                if old(store).courtOf[m] !in old(store.courts) then store == old(store)
                else m in store.disputed ==> AbandonStep(old(store), store, m)
      ensures r.Err? ==> store == old(store)
      ensures r.Err? ==>
                if !store.markets[m].usesCourt then r.error == MarketDoesNotHaveCourtMechanism
                else r.error == MarketIdToCourtIdNotFound && m !in store.courtOf
    {
      hide StoreOk, Unlocked;
      if !store.markets[m].usesCourt {
        return Err(MarketDoesNotHaveCourtMechanism);
      }
      if m !in store.courtOf {
        return Err(MarketIdToCourtIdNotFound);
      }
      var c := store.courtOf[m];
      ghost var s := store;
      UnlockParticipantsFromLastDraw(DrawsIn(store.draws, c));
      store := store.(draws := store.draws - {c}, courts := store.courts - {c});
      AfterAbandonOk(cfg, s, m);
      if c in s.courts {
        if m in s.disputed {
          DisputedHasOpenCourt(cfg, s, m);
        }
      } else {
        GoneCourtHasNoDraws(cfg, s, c);
        NothingUnlocked(s.bench.participants);
      }
      return Ok(());
    }

    // ---- Reassignment ----

    /** Every draw: unlock the stake, slash the tardy, record the rest by juror. */
    method HandleDraws(draws: seq<Draw>, pot: AccountId) returns (votes: Reassignment.JurorVotes)
      modifies this
      ensures votes == Reassignment.Collect(draws, |draws|)
      ensures store == old(store).(
                bench := old(store.bench).(participants := Unlocked(old(store.bench.participants), draws)),
                balances := Reassignment.SlashAllInto(old(store.balances), pot, Reassignment.TardyList(draws, |draws|)))
    {
      votes := [];
      ghost var before, l := store.bench.participants, store.balances;
      NothingUnlocked(before);
      for i := 0 to |draws|
        invariant votes == Reassignment.Collect(draws, i)
        invariant store == old(store).(
                    bench := old(store.bench).(participants := Unlocked(before, draws[..i])),
                    balances := Reassignment.SlashAllInto(l, pot, Reassignment.TardyList(draws, i)))
      {
        hide Unlocked, Reassignment.SlashAllInto, Reassignment.TardyList, Reassignment.AddDraw, Reassignment.SlashInto;
        UnlockedNext(before, draws, i);
        Reassignment.TardySlashed(l, pot, draws, i);
        var b, who := store.bench, draws[i].participant;
        if who in b.participants {
          var info := b.participants[who];
          b := b.(participants := b.participants[who := info.(activeLock := SatSub(info.activeLock, draws[i].slashable))]);
        }
        var balances;
        balances, votes := Reassignment.HandleVote(store.balances, votes, draws[i], pot);
        store := store.(bench := b, balances := balances);
      }
      assert draws[..|draws|] == draws;
    }

    /** The stakes of a closed court are reassigned, once. */
    method ReassignCourtStakes(c: CourtId) returns (r: Result<()>)
      requires Valid()
      modifies this
      ensures Valid()
      ensures r.Ok? ==>
                && ReassignStep(old(store), store, c)
                && store.balances == Reassignment.Reassigned(old(store.balances), DrawsIn(old(store.draws), c),
                                       old(store).courts[c].status.winner, rewardPot(c), treasury)
      ensures r.Err? ==> store == old(store)
      ensures r.Err? ==>
                if c !in store.courts then r.error == CourtNotFound
                else match store.courts[c].status
                  case Open => r.error == CourtNotClosed
                  case Reassigned => r.error == CourtAlreadyReassigned
                  case Closed(_) => false
    {
      hide StoreOk, Unlocked, Reassignment.SlashAllInto, Reassignment.TardyList, Reassignment.Collect, Reassignment.Awarded, Reassignment.Listed;
      if c !in store.courts {
        return Err(CourtNotFound);
      }
      var court := store.courts[c];
      match court.status {
        case Open => return Err(CourtNotClosed);
        case Reassigned => return Err(CourtAlreadyReassigned);
        case Closed(winner) =>
          var draws := DrawsIn(store.draws, c);
          var votes := HandleDraws(draws, rewardPot(c));
          var balances := Reassignment.SlashLosersToAwardWinners(store.balances, votes, winner, rewardPot(c), treasury);
          store := store.(balances := balances,
                          courts := store.courts[c := court.(status := Reassigned)],
                          draws := store.draws - {c});
          ReassignStore(cfg, old(store), store, c);
          return Ok(());
      }
    }

    // ---- Blocks ----

    /** The next block: inflation rewards, then the next start of vote periods. */
    method OnInitialize(rate: nat, supply: Balance, blocksPerYear: nat) returns (minted: nat, burned: nat)
      requires Valid() && 0 < cfg.inflationPeriod && store.now + 1 < U64_MAX
      modifies this
      ensures Valid()
      ensures NextBlockStep(cfg, old(store), store)
      ensures Inflation.Distributed(store.bench.pool, old(store.balances), store.now, cfg.inflationPeriod, rate, supply,
                                    blocksPerYear, store.balances, minted, burned)
    {
      hide StoreOk, Inflation.Distributed;
      store := store.(now := store.now + 1);
      var balances;
      balances, minted, burned := Inflation.HandleInflation(store.bench.pool, store.balances, store.now, cfg.inflationPeriod,
                                                            rate, supply, blocksPerYear);
      store := store.(balances := balances);
      if store.now >= store.requestBlock {
        store := store.(requestBlock := SatAddBlock(store.now, cfg.requestInterval));
      }
      BlockPerformed(cfg, old(store), store);
    }
  }
}
