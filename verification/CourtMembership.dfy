/** Who belongs to the court, told without the functions that compute it: who can be drawn, who
    leaves a full pool, and when a member can leave. */
module CourtMembership {
  import opened Numbers
  import opened Ordered
  import opened CourtTypes
  import opened CourtPool
  import opened JurySelection
  import opened JuryDraws
  import opened CourtStorage

  // ---- Who votes ----

  /** Somebody with a pool item who votes in person. */
  ghost predicate VotesInPerson(b: Bench, j: AccountId) {
    && (exists k :: 0 <= k < |b.pool| && b.pool[k].account == j)
    && j in b.participants && b.participants[j].delegations.None?
  }

  lemma {:induction false} DelegateIff(b: Bench, j: AccountId)
    ensures CanBeDelegate(b, j) <==> VotesInPerson(b, j)
  {
  }

  lemma {:induction false} DelegatesVote(b: Bench, delegations: seq<AccountId>)
    ensures forall j :: j in delegations ==> (CanBeDelegate(b, j) <==> VotesInPerson(b, j))
  {
    hide CanBeDelegate, VotesInPerson;
    forall j | j in delegations
      ensures CanBeDelegate(b, j) <==> VotesInPerson(b, j)
    {
      DelegateIff(b, j);
    }
  }

  lemma {:induction false} ValidJurorIff(b: Bench, delegations: seq<AccountId>, j: AccountId)
    ensures j in ValidJurors(b, delegations) <==> j in delegations && VotesInPerson(b, j)
  {
    DelegateIff(b, j);
  }

  /** Where the weight of a hit goes: to the participant without delegations, to one of the delegates
      who vote in person, and to nobody if and only if there is no such delegate. */
  lemma {:induction false} TargetIff(b: Bench, who: AccountId, target: Target)
    requires TargetOk(b, who, target)
    ensures who in b.participants
    ensures target.Own? <==> b.participants[who].delegations.None?
    ensures b.participants[who].delegations.Some? ==>
              var delegations := b.participants[who].delegations.value;
              && (target.Nobody? <==> forall i :: 0 <= i < |delegations| ==> !VotesInPerson(b, delegations[i]))
              && (target.Via? ==> target.juror in delegations && VotesInPerson(b, target.juror))
  {
    hide VotesInPerson;
    if b.participants[who].delegations.Some? {
      var delegations := b.participants[who].delegations.value;
      forall j: AccountId
        ensures j in ValidJurors(b, delegations) <==> j in delegations && VotesInPerson(b, j)
      {
        ValidJurorIff(b, delegations, j);
      }
      if i :| 0 <= i < |delegations| && VotesInPerson(b, delegations[i]) {
        assert delegations[i] in ValidJurors(b, delegations);
      }
      if ValidJurors(b, delegations) != [] {
        var j := ValidJurors(b, delegations)[0];
        assert j in ValidJurors(b, delegations);
      }
    }
  }

  lemma {:induction false} OwnerVotes(b: Bench, counts: seq<nat>, h: Hit)
    requires |counts| == |b.pool| && HitOk(b.pool, counts, h) && TargetOk(b, h.account, h.target)
    ensures exists k :: 0 <= k < |b.pool| && b.pool[k].account == h.account
    ensures h.target.Own? ==> VotesInPerson(b, h.account)
    ensures h.target.Via? ==> VotesInPerson(b, h.target.juror)
  {
    hide VotesInPerson;
    TargetIff(b, h.account, h.target);
    assert b.pool[h.index].account == h.account;
    if h.target.Own? {
      PersonInPool(b, h.account, h.index);
    }
  }

  lemma {:induction false} PersonInPool(b: Bench, j: AccountId, k: nat)
    requires k < |b.pool| && b.pool[k].account == j && j in b.participants && b.participants[j].delegations.None?
    ensures VotesInPerson(b, j)
  {
  }

  /** The draws of a jury, for every outcome of the random choices: a draw with a vote belongs to
      somebody in the pool without delegations; a delegated draw belongs to somebody in the pool, and
      each of its stakes stands behind one of the own delegates, who is in the pool without
      delegations. */
  lemma {:induction false} DrawnAreEligible(cfg: Config, b: Bench, b': Bench, n: nat, log: Log, draws: seq<Draw>, i: nat)
    requires 0 < cfg.minJurorStake && BenchOk(cfg, b) && Chosen(cfg, b, b', n, log, draws) && i < |draws|
    requires n <= U32_MAX && n * cfg.minJurorStake <= U128_MAX
    ensures !draws[i].vote.Delegated? ==> VotesInPerson(b, draws[i].participant)
    ensures draws[i].vote.Delegated? ==>
              var a := draws[i].participant;
              && (exists k :: 0 <= k < |b.pool| && b.pool[k].account == a)
              && a in b.participants && b.participants[a].delegations.Some?
              && forall t :: 0 <= t < |draws[i].vote.stakes| ==>
                   && draws[i].vote.stakes[t].0 in b.participants[a].delegations.value
                   && VotesInPerson(b, draws[i].vote.stakes[t].0)
  {
    ChosenFits(cfg, b, b', n, log, draws);
    SelectionTheorem(cfg, b, log);
    var sel := Tally(cfg, log);
    GetAt(sel, i);
    var a, v := sel[i].0, sel[i].1;
    assert EntryTallied(cfg, b, log, a, Some(v));
    EntryEligible(cfg, b, log, a, v);
  }

  lemma {:induction false} EntryEligible(cfg: Config, b: Bench, log: Log, a: AccountId, v: SelectionValue)
    requires Fits(cfg, b, log) && HitsOk(b.pool, SectionCounts(b.pool, cfg.minJurorStake), log)
    requires EntryTallied(cfg, b, log, a, Some(v))
    ensures v.stakes == [] ==> VotesInPerson(b, a)
    ensures v.stakes != [] ==>
              && (exists k :: 0 <= k < |b.pool| && b.pool[k].account == a)
              && a in b.participants && b.participants[a].delegations.Some?
              && forall t :: 0 <= t < |v.stakes| ==>
                   v.stakes[t].0 in b.participants[a].delegations.value && VotesInPerson(b, v.stakes[t].0)
  {
    hide VotesInPerson, HitOk;
    var counts := SectionCounts(b.pool, cfg.minJurorStake);
    if IsDelegator(b, a) {
      var t := SomeHit(log, Out(a));
      assert HitOk(b.pool, counts, log[t]);
      OwnerVotes(b, counts, log[t]);
      DelegatorHasStakes(cfg, log, a, v.stakes);
      forall s | 0 <= s < |v.stakes|
        ensures v.stakes[s].0 in b.participants[a].delegations.value && VotesInPerson(b, v.stakes[s].0)
      {
        GetAt(v.stakes, s);
        var u := SomeHit(log, Pair(a, v.stakes[s].0));
        assert HitOk(b.pool, counts, log[u]);
        TargetIff(b, log[u].account, log[u].target);
      }
    } else if Count(log, OwnOf(a)) > 0 {
      var t := SomeHit(log, OwnOf(a));
      assert HitOk(b.pool, counts, log[t]);
      OwnerVotes(b, counts, log[t]);
    } else {
      var t := SomeHit(log, Into(a));
      assert HitOk(b.pool, counts, log[t]);
      OwnerVotes(b, counts, log[t]);
    }
  }

  lemma {:induction false} DelegatorHasStakes(cfg: Config, log: Log, a: AccountId, stakes: Stakes)
    requires 0 < cfg.minJurorStake && 0 < Count(log, Out(a)) && StakesTallied(cfg, log, a, stakes)
    ensures stakes != []
  {
    TimesMono(1, Count(log, Out(a)), cfg.minJurorStake);
  }

  /** `delegate` accepts a list exactly if it is not empty, not too long, names different accounts
      other than the caller, and all of them vote in person. */
  lemma {:induction false} DelegateIffEligible(cfg: Config, b: Bench, who: AccountId, delegations: seq<AccountId>)
    ensures DelegateError(b, cfg, who, delegations).None? <==>
              && 0 < |delegations| <= cfg.maxDelegations
              && Distinct(delegations) && who !in delegations
              && forall i :: 0 <= i < |delegations| ==> VotesInPerson(b, delegations[i])
    ensures DelegateError(b, cfg, who, delegations) == Some(DelegatedToInvalidJuror) ==>
              exists i :: 0 <= i < |delegations| && !VotesInPerson(b, delegations[i])
  {
    hide VotesInPerson, CanBeDelegate;
    forall i | 0 <= i < |delegations|
      ensures CanBeDelegate(b, delegations[i]) <==> VotesInPerson(b, delegations[i])
    {
      DelegateIff(b, delegations[i]);
    }
  }

  // ---- Joining ----

  /** The weakest item: every other one has a larger stake, or the same stake and a larger account. */
  ghost predicate IsWeakest(pool: seq<PoolItem>, k: nat) {
    && k < |pool|
    && forall i :: 0 <= i < |pool| && i != k ==>
         pool[k].stake < pool[i].stake || (pool[k].stake == pool[i].stake && pool[k].account < pool[i].account)
  }

  /** The pool in every consistent state: stakes ascend, and equal stakes are in the order of the accounts. */
  lemma {:induction false} PoolOrder(cfg: Config, b: Bench, i: nat, j: nat)
    requires PoolOk(cfg, b) && i < j < |b.pool|
    ensures b.pool[i].stake <= b.pool[j].stake && (b.pool[i].stake == b.pool[j].stake ==> b.pool[i].account < b.pool[j].account)
  {
    assert Less(b.pool[i], b.pool[j]);
  }

  /** `pool'` has the items of `pool` without the one at `k` and with `item`. */
  ghost predicate Replaces(pool: seq<PoolItem>, k: nat, item: PoolItem, pool': seq<PoolItem>)
    requires k < |pool|
  {
    multiset(pool') + multiset{pool[k]} == multiset(pool) + multiset{item}
  }

  lemma {:induction false} RemovedOne<T>(s: seq<T>, k: nat)
    requires k < |s|
    ensures multiset(RemoveAt(s, k)) + multiset{s[k]} == multiset(s)
  {
    assert s == s[..k] + [s[k]] + s[k + 1..];
  }

  lemma {:induction false} InsertedOne<T>(s: seq<T>, k: nat, x: T)
    requires k <= |s|
    ensures multiset(InsertAt(s, k, x)) == multiset(s) + multiset{x}
  {
    assert s == s[..k] + s[k..];
  }

  lemma {:induction false} ItemInserted(pool: seq<PoolItem>, item: PoolItem)
    ensures multiset(InsertItem(pool, item)) == multiset(pool) + multiset{item}
  {
    InsertedOne(pool, PoolPosition(pool, item.stake, item.account), item);
  }

  /** What joining does to the pool. An own item is replaced and keeps its consumed stake and its date. */
  lemma {:induction false} RejoinTheorem(cfg: Config, b: Bench, who: AccountId, amount: Balance,
                                         delegations: Option<seq<AccountId>>, now: BlockNumber, k: nat)
    requires BenchOk(cfg, b) && k < |b.pool| && b.pool[k].account == who
    ensures Replaces(b.pool, k, PoolItem(amount, who, b.pool[k].consumedStake, b.pool[k].joinedAt),
                     Joined(cfg, b, who, amount, delegations, now).pool)
  {
    AllAccountsUnique(cfg, b);
    assert IndexOf(b.pool, who) == Some(k);
    hide BenchOk, InsertItem, UniqueAccounts, RemoveAt;
    RemovedOne(b.pool, k);
    ItemInserted(RemoveAt(b.pool, k), JoinedItem(b, who, amount, now));
  }

  /** Otherwise the newcomer's item starts with what courts still lock. It takes the place of the
      weakest item if and only if the pool is full, and the newcomer's stake is larger. */
  lemma {:induction false} JoinTheorem(cfg: Config, b: Bench, who: AccountId, amount: Balance,
                                       delegations: Option<seq<AccountId>>, free: Balance, now: BlockNumber)
    requires BenchOk(cfg, b) && 0 < cfg.maxCourtParticipants && JoinError(cfg, b, who, amount, free).None?
    requires forall k :: 0 <= k < |b.pool| ==> b.pool[k].account != who
    ensures var item := PoolItem(amount, who, if who in b.participants then b.participants[who].activeLock else 0, now);
            var pool' := Joined(cfg, b, who, amount, delegations, now).pool;
            if |b.pool| < cfg.maxCourtParticipants then multiset(pool') == multiset(b.pool) + multiset{item}
            else exists k :: 0 <= k < |b.pool| && IsWeakest(b.pool, k) && b.pool[k].stake < amount
                             && Replaces(b.pool, k, item, pool')
  {
    assert IndexOf(b.pool, who) == None;
    ItemInserted(PoolForJoin(cfg, b.pool, who), JoinedItem(b, who, amount, now));
    if |b.pool| >= cfg.maxCourtParticipants {
      WeakestFirst(b.pool);
      hide BenchOk, InsertItem, IsWeakest, IndexOf;
      assert Replaces(b.pool, 0, JoinedItem(b, who, amount, now), Joined(cfg, b, who, amount, delegations, now).pool);
    }
  }

  lemma {:induction false} WeakestFirst(pool: seq<PoolItem>)
    requires PoolSorted(pool) && pool != []
    ensures IsWeakest(pool, 0) && multiset(pool[1..]) + multiset{pool[0]} == multiset(pool)
  {
    RemovedOne(pool, 0);
    assert RemoveAt(pool, 0) == pool[1..];
  }

  /** What joining does to the participants: the caller has the new stake, the given delegations and no
      pending exit; what courts lock, and everybody else, stays. The currency lock is the stake. */
  lemma {:induction false} JoinedParticipants(cfg: Config, b: Bench, who: AccountId, amount: Balance,
                                              delegations: Option<seq<AccountId>>, now: BlockNumber, a: AccountId)
    ensures var b' := Joined(cfg, b, who, amount, delegations, now);
            && (a != who ==> (a in b'.participants <==> a in b.participants)
                             && (a in b.participants ==> b'.participants[a] == b.participants[a])
                             && (a in b'.locks <==> a in b.locks) && (a in b.locks ==> b'.locks[a] == b.locks[a]))
            && who in b'.participants && b'.participants[who].stake == amount && b'.participants[who].prepareExitAt.None?
            && b'.participants[who].delegations == delegations
            && b'.participants[who].activeLock == (if who in b.participants then b.participants[who].activeLock else 0)
            && who in b'.locks && b'.locks[who] == amount
  {
  }

  /** When joining is refused: the stake is too small in itself, exceeds the balance, is less than
      before, or does not exceed any stake of a full pool of others. */
  lemma {:induction false} JoinRefusedIff(cfg: Config, b: Bench, who: AccountId, amount: Balance, free: Balance)
    requires PoolOk(cfg, b) && 0 < cfg.maxCourtParticipants
    ensures JoinError(cfg, b, who, amount, free).None? <==>
              && cfg.minJurorStake <= amount <= free
              && (who in b.participants ==> b.participants[who].stake <= amount)
              && (|b.pool| < cfg.maxCourtParticipants
                  || exists k :: 0 <= k < |b.pool| && (b.pool[k].account == who || b.pool[k].stake < amount))
  {
    if |b.pool| >= cfg.maxCourtParticipants {
      assert forall k :: 0 < k < |b.pool| ==> Less(b.pool[0], b.pool[k]);
    }
    if k :| 0 <= k < |b.pool| && b.pool[k].account == who {
      assert IndexOf(b.pool, who).Some?;
    }
    if IndexOf(b.pool, who).Some? {
      assert b.pool[IndexOf(b.pool, who).value].account == who;
      assert ItemOk(b.pool[IndexOf(b.pool, who).value], b.participants);
    }
  }
}
