/** The global disputes pallet as the runtime holds it: one object whose calls update the storage
    items. Every call performs one step of `GdSteps`, or fails and leaves everything as it was. */
module GdPallet {
  import opened Numbers
  import opened Ordered
  import opened Ledger
  import opened GlobalDisputes
  import opened GdHistory
  import opened GdSteps
  import opened GdVoters
  import opened GdEscrow
  import opened GdRuns

  lemma {:induction false} Performed(cfg: Config, w: World, e: Event, s': Storage)
    requires WorldOk(cfg, w) && StoreStep(cfg, w.s, e, s')
    ensures Step(cfg, w, e, World(s', Recorded(cfg, w, e))) && WorldOk(cfg, World(s', Recorded(cfg, w, e)))
  {
    hide WorldOk, StoreStep, Recorded;
    WorldStep(cfg, w, e, World(s', Recorded(cfg, w, e)));
  }

  lemma {:induction false} VotePerformed(cfg: Config, w: World, who: AccountId, m: MarketId, o: OutcomeReport, amount: Balance)
    requires WorldOk(cfg, w) && VoteError(cfg, w.s, who, m, o, amount).None?
    ensures var e := Vote(who, m, o, amount);
            var w' := World(AfterVote(cfg, w.s, who, m, o, amount), Recorded(cfg, w, e));
            Step(cfg, w, e, w') && WorldOk(cfg, w')
  {
    hide WorldOk, AfterVote, VoteError, Recorded, Step;
    Performed(cfg, w, Vote(who, m, o, amount), AfterVote(cfg, w.s, who, m, o, amount));
  }

  lemma {:induction false} RefundPerformed(cfg: Config, w: World, m: MarketId, batch: seq<OutcomeReport>)
    requires WorldOk(cfg, w) && RefundError(w.s, m).None? && IsBatch(cfg, DisputeOf(w.s, m).outcomes, batch)
    ensures var w' := World(AfterRefund(cfg, w.s, m, batch), Recorded(cfg, w, Refund(m, batch)));
            Step(cfg, w, Refund(m, batch), w') && WorldOk(cfg, w')
  {
    hide WorldOk, AfterRefund, IsBatch, Recorded, DisputeOf, Step;
    Performed(cfg, w, Refund(m, batch), AfterRefund(cfg, w.s, m, batch));
  }

  lemma {:induction false} PurgePerformed(cfg: Config, w: World, m: MarketId, batch: seq<OutcomeReport>)
    requires WorldOk(cfg, w) && PurgeError(w.s, m).None? && IsBatch(cfg, WinnerTaken(DisputeOf(w.s, m)).outcomes, batch)
    ensures var w' := World(AfterPurge(cfg, w.s, m, batch), Recorded(cfg, w, Purge(m, batch)));
            Step(cfg, w, Purge(m, batch), w') && WorldOk(cfg, w')
  {
    hide WorldOk, AfterPurge, IsBatch, Recorded, DisputeOf, WinnerTaken, Step;
    Performed(cfg, w, Purge(m, batch), AfterPurge(cfg, w.s, m, batch));
  }

  /** The entries of unresolved disputes and the largest of them, in one pass. */
  method RetainUnresolved(infos: map<MarketId, DisputeInfo>, list: LockList) returns (kept: LockList, lockNeeded: Balance)
    ensures kept == Retained(infos, list) && lockNeeded == MaxEntry(kept)
    ensures forall x :: x in kept <==> x in list && x.0 in infos && infos[x.0].status.Active?
    ensures forall x :: x in kept ==> x.1 <= lockNeeded
    ensures lockNeeded == 0 || exists x :: x in kept && x.1 == lockNeeded
  {
    kept, lockNeeded := [], 0;
    for i := 0 to |list|
      invariant kept == Retained(infos, list[..i]) && lockNeeded == MaxEntry(kept)
    {
      assert list[..i + 1][..i] == list[..i];
      if list[i].0 in infos && infos[list[i].0].status.Active? {
        lockNeeded := Max(lockNeeded, list[i].1);
        MaxEntryConcat(kept, [list[i]]);
        OneEntry(list[i].0, list[i].1);
        kept := kept + [list[i]];
      } else {
        assert kept + [] == kept;
      }
    }
    assert list[..|list|] == list;
    KeptAre(infos, list);
    LargestKept(kept);
  }

  lemma {:induction false} KeptAre(infos: map<MarketId, DisputeInfo>, list: LockList)
    ensures forall x :: x in Retained(infos, list) <==> x in list && x.0 in infos && infos[x.0].status.Active?
  {
    hide Retained;
    forall x
      ensures x in Retained(infos, list) <==> x in list && x.0 in infos && infos[x.0].status.Active?
    {
      if x in Retained(infos, list) {
        RetainedIn(infos, list, x);
      }
      if x in list && Unresolved(infos, x.0) {
        RetainedHas(infos, list, x);
      }
    }
  }

  lemma {:induction false} LargestKept(list: LockList)
    ensures forall x :: x in list ==> x.1 <= MaxEntry(list)
    ensures MaxEntry(list) == 0 || exists x :: x in list && x.1 == MaxEntry(list)
  {
    MaxEntryBounds(list);
    if MaxEntry(list) != 0 {
      var i :| 0 <= i < |list| && list[i].1 == MaxEntry(list);
      assert list[i] in list;
    }
  }

  /** As many outcomes as the limit allows, in whatever order the storage yields them. */
  method Drain(cfg: Config, outcomes: Outcomes) returns (batch: seq<OutcomeReport>)
    ensures IsBatch(cfg, outcomes, batch)
  {
    batch := [];
    var rest := outcomes;
    while rest != map[] && |batch| < cfg.removeKeysLimit
      invariant |batch| <= cfg.removeKeysLimit && |rest| + |batch| == |outcomes|
      invariant forall o :: o in rest ==> o in outcomes && o !in batch
      invariant forall i :: 0 <= i < |batch| ==> batch[i] in outcomes
      invariant Distinct(batch)
      decreases |rest|
    {
      var o :| o in rest;
      KeysLeft(rest, {o});
      batch := batch + [o];
      rest := rest - {o};
    }
  }

  /** Pay every owner the whole part, as long as there is something left. */
  method PayShared(l: Ledger, reward: Balance, owners: seq<AccountId>) returns (l': Ledger, remainder: Balance)
    requires owners != []
    ensures l' == PayEach(l, owners, Part(reward, |owners|)) && remainder == Rest(reward, |owners|)
  {
    hide Part, Rest;
    var part := Part(reward, |owners|);
    WholeParts(reward, |owners|);
    l', remainder := l, reward;
    for i := 0 to |owners|
      invariant l' == PayEach(l, owners[..i], part) && remainder + Times(i, part) == reward
    {
      assert owners[..i + 1][..i] == owners[..i];
      TimesMono(i + 1, |owners|, part);
      var x := Min(remainder, part);
      remainder := remainder - x;
      l' := Deposit(l', owners[i], x);
    }
    assert owners[..|owners|] == owners;
  }

  class GlobalDisputesPallet {
    const cfg: Config
    var store: Storage
    /** The history of every market. */
    ghost var histories: map<MarketId, History>

    ghost function TheWorld(): World
      reads this
    {
      World(store, histories)
    }

    ghost predicate Valid()
      reads this
    {
      cfg.Valid() && WorldOk(cfg, TheWorld())
    }

    constructor (cfg: Config, balances: Ledger, markets: map<MarketId, Market>)
      requires cfg.Valid() && Total(balances) <= U128_MAX
      ensures this.cfg == cfg && InitialWorld(TheWorld()) && Valid()
    {
      this.cfg := cfg;
      store := Storage(map[], map[], map[], map[], balances, map[], 0, markets);
      histories := map[];
      new;
      InitialOk(cfg, TheWorld());
    }

    method AddVoteOutcome(who: AccountId, m: MarketId, o: OutcomeReport) returns (r: Result<()>)
      requires Valid()
      modifies this
      ensures Valid()
      ensures r.Ok? ==> Step(cfg, old(TheWorld()), AddOutcome(who, m, o), TheWorld())
      ensures r.Err? ==> TheWorld() == old(TheWorld()) && AddOutcomeError(cfg, store, who, m, o) == Some(r.error)
    {
      hide WorldOk, Step, Credit, Recorded;
      if m !in store.markets {
        return Err(MarketDoesNotExist);
      }
      if !store.markets[m].Matches(o) {
        return Err(OutcomeMismatch);
      }
      if m !in store.infos {
        return Err(GlobalDisputeNotFound);
      }
      match store.infos[m].status {
        case Active(addOutcomeEnd, _) =>
          if store.now > addOutcomeEnd {
            return Err(AddOutcomePeriodIsOver);
          }
        case _ => return Err(InvalidGlobalDisputeStatus);
      }
      var d := DisputeOf(store, m);
      if o in d.outcomes {
        return Err(OutcomeAlreadyExists);
      }
      if !CanTransfer(store, who, cfg.fee) {
        return Err(TransferFailed);
      }
      ghost var w := TheWorld();
      var balances := Slash(store.balances, who, cfg.fee);
      d := d.(pot := SatAdd(d.pot, cfg.fee));
      d := Credit(d, o, OutcomeInfo(cfg.fee, Paid(who, cfg.fee)));
      CreditKeepsPot(DisputeOf(store, m).(pot := SatAdd(DisputeOf(store, m).pot, cfg.fee)), o, OutcomeInfo(cfg.fee, Paid(who, cfg.fee)));
      store := WithDispute(store, m, d).(balances := balances);
      Performed(cfg, w, AddOutcome(who, m, o), store);
      histories := Recorded(cfg, w, AddOutcome(who, m, o));
      return Ok(());
    }

    method VoteOnOutcome(who: AccountId, m: MarketId, o: OutcomeReport, amount: Balance) returns (r: Result<()>)
      requires Valid()
      modifies this
      ensures Valid()
      ensures r.Ok? ==> Step(cfg, old(TheWorld()), Vote(who, m, o, amount), TheWorld())
      ensures r.Err? ==> TheWorld() == old(TheWorld()) && VoteError(cfg, store, who, m, o, amount) == Some(r.error)
    {
      hide WorldOk, Step, UpdateWinner, Recorded, Put;
      var free := BalanceOf(store.balances, who);
      if free < amount {
        return Err(InsufficientAmount);
      }
      if amount < cfg.minVote {
        return Err(AmountTooLow);
      }
      if m !in store.infos {
        return Err(GlobalDisputeNotFound);
      }
      match store.infos[m].status {
        case Active(addOutcomeEnd, voteEnd) =>
          if !(addOutcomeEnd < store.now <= voteEnd) {
            return Err(NotInGdVotingPeriod);
          }
        case _ => return Err(InvalidGlobalDisputeStatus);
      }
      var d := DisputeOf(store, m);
      if o !in d.outcomes {
        return Err(OutcomeDoesNotExist);
      }
      var list, entry := LocksOf(store, who), amount;
      match Get(list, m) {
        case Some(before) =>
          entry := SatAdd(amount, before);
          if free < entry {
            return Err(InsufficientAmount);
          }
        case None =>
          if |list| >= cfg.maxVotes {
            return Err(MaxVotesReached);
          }
      }
      ghost var w := TheWorld();
      var oi := d.outcomes[o];
      d := Credit(d, o, oi.(sum := SatAdd(oi.sum, amount)));
      store := WithDispute(store, m, d)
        .(locks := store.locks[who := Put(list, m, entry)],
          currencyLocks := store.currencyLocks[who := Max(CurrencyLockOf(store, who), entry)]);
      assert entry == SatAdd(amount, EntryFor(list, m));
      VotePerformed(cfg, w, who, m, o, amount);
      histories := Recorded(cfg, w, Vote(who, m, o, amount));
      return Ok(());
    }

    /** Release what is not needed for unresolved disputes. */
    method UnlockVoteBalance(voter: AccountId)
      requires Valid()
      modifies this
      ensures Valid()
      ensures Step(cfg, old(TheWorld()), Unlock(voter), TheWorld())
    {
      hide WorldOk, Step, Retained, MaxEntry;
      ghost var w := TheWorld();
      var list, lockNeeded := RetainUnresolved(store.infos, LocksOf(store, voter));
      store := store.(locks := store.locks[voter := list], currencyLocks := store.currencyLocks[voter := lockNeeded]);
      Performed(cfg, w, Unlock(voter), store);
      histories := Recorded(cfg, w, Unlock(voter));
    }

    /** Errors leave no dispute behind, and a start never meets an outcome that was paid for. */
    method StartGlobalDispute(m: MarketId, items: seq<InitialItem>, scheduled: bool) returns (r: Result<()>)
      requires Valid()
      modifies this
      ensures Valid()
      ensures r.Ok? ==> Step(cfg, old(TheWorld()), Start(m, items), TheWorld())
      ensures r.Err? ==> TheWorld() == old(TheWorld()) && r.error != SharedPossessionRequired
      ensures r.Err? ==> StartCall(cfg, store, m, items, scheduled) == Err(r.error)
    {
      ghost var w := TheWorld();
      assert DisputeOk(DisputeOf(w.s, m), HistoryOf(w, m));
      hide WorldOk, Step, DisputeOk, StartItems, StartItem, Recorded;
      if m !in store.markets {
        return Err(MarketDoesNotExist);
      }
      if m in store.infos {
        return Err(GlobalDisputeAlreadyExists);
      }
      NoHistory(DisputeOf(w.s, m), HistoryOf(w, m));
      StartItemsOk(cfg, store.markets[m], DisputeOf(store, m), items);
      var started := RunItems(store.markets[m], DisputeOf(store, m), items);
      if started.Err? {
        return Err(started.error);
      }
      if !scheduled {
        return Err(NotScheduled);
      }
      var d := started.value;
      if d.info.None? {
        return Err(GlobalDisputeNotFound);
      }
      var addOutcomeEnd := SatAddBlock(store.now, cfg.addOutcomePeriod);
      var voteEnd := SatAddBlock(addOutcomeEnd, cfg.votingPeriod);
      store := WithDispute(store, m, d.(info := Some(d.info.value.(status := Active(addOutcomeEnd, voteEnd)))));
      Performed(cfg, w, Start(m, items), store);
      histories := Recorded(cfg, w, Start(m, items));
      return Ok(());
    }

    /** The initial items one after the other; equal outcomes share their owners. */
    method RunItems(market: Market, d: Dispute, items: seq<InitialItem>) returns (r: Result<Dispute>)
      ensures r == StartItems(cfg, market, d, items)
    {
      hide Credit;
      var d' := d;
      for i := 0 to |items|
        invariant StartItems(cfg, market, d, items[..i]) == Ok(d')
      {
        assert items[..i + 1][..i] == items[..i];
        var item := items[i];
        var next := StartItem(cfg, market, d', item);
        if next.Err? {
          StartStops(cfg, market, d, items, i + 1);
          return next;
        }
        d' := next.value;
      }
      assert items[..|items|] == items;
      return Ok(d');
    }

    /** The caller resolves the market. Whatever the status was, the dispute is finished and the
        result is the leader of all contributions. */
    method DetermineVotingWinner(m: MarketId) returns (r: Option<OutcomeReport>)
      requires Valid()
      modifies this
      ensures Valid()
      ensures r.None? ==> TheWorld() == old(TheWorld()) && m !in store.infos
      ensures r.Some? ==> Step(cfg, old(TheWorld()), Finish(m), TheWorld())
      ensures r.Some? ==> Leads(HistoryOf(old(TheWorld()), m), r.value)
    {
      if m !in store.infos {
        return None;
      }
      ghost var w := TheWorld();
      assert DisputeOk(DisputeOf(w.s, m), HistoryOf(w, m));
      hide WorldOk, Step, Leads, Score;
      var info := store.infos[m].(status := Finished);
      store := store.(infos := store.infos[m := info]);
      Performed(cfg, w, Finish(m), store);
      histories := Recorded(cfg, w, Finish(m));
      return Some(info.winner);
    }

    method DestroyGlobalDispute(m: MarketId) returns (r: Result<()>)
      requires Valid()
      modifies this
      ensures Valid()
      ensures r.Ok? ==> Step(cfg, old(TheWorld()), Destroy(m), TheWorld())
      ensures r.Err? ==> TheWorld() == old(TheWorld()) && r.error == GlobalDisputeNotFound && m !in store.infos
    {
      hide WorldOk, Step;
      if m !in store.infos {
        return Err(GlobalDisputeNotFound);
      }
      ghost var w := TheWorld();
      if store.infos[m].status.Active? {
        store := store.(infos := store.infos[m := store.infos[m].(status := Destroyed)]);
      }
      Performed(cfg, w, Destroy(m), store);
      histories := Recorded(cfg, w, Destroy(m));
      return Ok(());
    }

    method RefundVoteFees(m: MarketId) returns (r: Result<()>, ghost batch: seq<OutcomeReport>)
      requires Valid()
      modifies this
      ensures Valid()
      ensures r.Ok? ==> Step(cfg, old(TheWorld()), Refund(m, batch), TheWorld())
      ensures r.Err? ==> TheWorld() == old(TheWorld()) && RefundError(store, m) == Some(r.error)
    {
      hide WorldOk, Step, RefundAll, Elements, IsBatch, Recorded;
      batch := [];
      if m !in store.infos {
        return Err(GlobalDisputeNotFound), [];
      }
      if !store.infos[m].status.Destroyed? {
        return Err(GlobalDisputeNotDestroyed), [];
      }
      ghost var w := TheWorld();
      var drained := Drain(cfg, DisputeOf(store, m).outcomes);
      var d, l := RefundBatch(DisputeOf(store, m), store.balances, drained);
      store := WithDispute(store, m, d).(balances := l);
      RefundPerformed(cfg, w, m, drained);
      histories := Recorded(cfg, w, Refund(m, drained));
      return Ok(()), drained;
    }

    /** Refund one drained outcome after the other. */
    method RefundBatch(d: Dispute, l: Ledger, batch: seq<OutcomeReport>) returns (d': Dispute, l': Ledger)
      requires IsBatch(cfg, d.outcomes, batch)
      ensures (d', l') == RefundAll(d, l, batch)
    {
      d', l' := d, l;
      for i := 0 to |batch|
        invariant (d', l') == RefundAll(d, l, batch[..i])
      {
        assert batch[..i + 1][..i] == batch[..i];
        var refunded := RefundOne(d', l', batch[i]);
        d', l' := refunded.0, refunded.1;
      }
      assert batch[..|batch|] == batch;
    }

    method PurgeOutcomes(m: MarketId) returns (r: Result<()>, ghost batch: seq<OutcomeReport>)
      requires Valid()
      modifies this
      ensures Valid()
      ensures r.Ok? ==> Step(cfg, old(TheWorld()), Purge(m, batch), TheWorld())
      ensures r.Err? ==> TheWorld() == old(TheWorld()) && PurgeError(store, m) == Some(r.error)
    {
      hide WorldOk, Step, Elements, IsBatch, Recorded;
      batch := [];
      if m !in store.infos {
        return Err(GlobalDisputeNotFound), [];
      }
      if !store.infos[m].status.Finished? {
        return Err(UnfinishedGlobalDispute), [];
      }
      ghost var w := TheWorld();
      var d := WinnerTaken(DisputeOf(store, m));
      var drained := Drain(cfg, d.outcomes);
      store := WithDispute(store, m, d.(outcomes := d.outcomes - Elements(drained)));
      PurgePerformed(cfg, w, m, drained);
      histories := Recorded(cfg, w, Purge(m, drained));
      return Ok(()), drained;
    }

    method RewardOutcomeOwner(m: MarketId) returns (r: Result<()>)
      requires Valid()
      modifies this
      ensures Valid()
      ensures r.Ok? ==> Step(cfg, old(TheWorld()), Reward(m), TheWorld())
      ensures r.Err? ==> TheWorld() == old(TheWorld()) && RewardError(store, m) == Some(r.error)
    {
      ghost var w := TheWorld();
      assert DisputeOk(DisputeOf(w.s, m), HistoryOf(w, m));
      hide WorldOk, Step, DisputeOk, PayEach, Part, Rest, Deposit;
      var d := DisputeOf(store, m);
      if d.outcomes != map[] {
        return Err(OutcomesNotFullyCleaned);
      }
      if m !in store.infos {
        return Err(GlobalDisputeNotFound);
      }
      if !store.infos[m].status.Finished? {
        return Err(UnfinishedGlobalDispute);
      }
      if d.pot == 0 {
        return Err(NoFundsToReward);
      }
      PossessionOwned(d, HistoryOf(w, m));
      match store.infos[m].outcomeInfo.possession {
        case Paid(owner, _) =>
          store := store.(pots := store.pots[m := 0], balances := Deposit(store.balances, owner, d.pot));
        case Shared(owners) =>
          var l, remainder := PayShared(store.balances, d.pot, owners);
          store := store.(pots := store.pots[m := remainder], balances := l);
      }
      Performed(cfg, w, Reward(m), store);
      histories := Recorded(cfg, w, Reward(m));
      return Ok(());
    }
  }

  lemma {:induction false} StartStops(cfg: Config, market: Market, d: Dispute, items: seq<InitialItem>, n: nat)
    requires n <= |items| && StartItems(cfg, market, d, items[..n]).Err?
    ensures StartItems(cfg, market, d, items) == StartItems(cfg, market, d, items[..n])
    decreases |items|
  {
    if n < |items| {
      var prefix := items[..|items| - 1];
      assert prefix[..n] == items[..n];
      StartStops(cfg, market, d, prefix, n);
    } else {
      assert items[..n] == items;
    }
  }
}
