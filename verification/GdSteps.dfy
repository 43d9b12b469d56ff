/** The calls on global disputes as steps, and what every step keeps of each dispute. */
module GdSteps {
  import opened Numbers
  import opened Ordered
  import opened Ledger
  import opened GlobalDisputes
  import opened GdHistory

  datatype Event =
    | Start(m: MarketId, items: seq<InitialItem>)
    | AddOutcome(who: AccountId, m: MarketId, o: OutcomeReport)
    | Vote(who: AccountId, m: MarketId, o: OutcomeReport, amount: Balance)
    | Unlock(voter: AccountId)
    | Finish(m: MarketId)
    | Destroy(m: MarketId)
    | Refund(m: MarketId, batch: seq<OutcomeReport>)
    | Purge(m: MarketId, batch: seq<OutcomeReport>)
    | Reward(m: MarketId)
    | Donate(who: AccountId, m: MarketId, amount: Balance)
    | NextBlock
    | Elsewhere(balances: Ledger)  // whatever other pallets do to the free balances

  /** The storage and the history of every market. */
  datatype World = World(s: Storage, histories: map<MarketId, History>)

  function HistoryOf(w: World, m: MarketId): History { if m in w.histories then w.histories[m] else [] }

  function InitialContributions(items: seq<InitialItem>): History {
    seq(|items|, i requires 0 <= i < |items| => Contribution(items[i].outcome, items[i].amount, Initial))
  }

  /** What an event adds to the history of its market. */
  function Added(cfg: Config, e: Event): History {
    match e
    case Start(_, items) => InitialContributions(items)
    case AddOutcome(_, _, o) => [Contribution(o, cfg.fee, Fee)]
    case Vote(who, _, o, amount) => [Contribution(o, amount, Ballot(who))]
    case _ => []
  }

  function Recorded(cfg: Config, w: World, e: Event): map<MarketId, History> {
    if e.Start? || e.AddOutcome? || e.Vote? then w.histories[e.m := HistoryOf(w, e.m) + Added(cfg, e)]
    else w.histories
  }

  /** All tokens: those of accounts and those of reward accounts. */
  ghost function Issued(s: Storage): nat { Total(s.balances) + Total(s.pots) }

  ghost predicate StoreStep(cfg: Config, s: Storage, e: Event, s': Storage) {
    match e
    case Start(m, items) => StartCall(cfg, s, m, items, true) == Ok(s')
    case AddOutcome(who, m, o) => AddOutcomeError(cfg, s, who, m, o).None? && s' == AfterAddOutcome(cfg, s, who, m, o)
    case Vote(who, m, o, amount) => VoteError(cfg, s, who, m, o, amount).None? && s' == AfterVote(cfg, s, who, m, o, amount)
    case Unlock(voter) => s' == AfterUnlock(s, voter)
    case Finish(m) => m in s.infos && s' == AfterFinish(s, m)
    case Destroy(m) => m in s.infos && s' == AfterDestroy(s, m)
    case Refund(m, batch) =>
      RefundError(s, m).None? && IsBatch(cfg, DisputeOf(s, m).outcomes, batch) && s' == AfterRefund(cfg, s, m, batch)
    case Purge(m, batch) =>
      && PurgeError(s, m).None? && IsBatch(cfg, WinnerTaken(DisputeOf(s, m)).outcomes, batch)
      && s' == AfterPurge(cfg, s, m, batch)
    case Reward(m) => RewardError(s, m).None? && s' == AfterReward(s, m)
    case Donate(who, m, amount) => CanTransfer(s, who, amount) && s' == AfterDonate(s, who, m, amount)
    case NextBlock => s' == s.(now := SatAddBlock(s.now, 1))
    case Elsewhere(balances) => Total(balances) + Total(s.pots) <= U128_MAX && s' == s.(balances := balances)
  }

  ghost predicate Step(cfg: Config, w: World, e: Event, w': World) {
    StoreStep(cfg, w.s, e, w'.s) && w'.histories == Recorded(cfg, w, e)
  }

  /** The market an event is about. */
  function Concerned(e: Event): Option<MarketId> {
    match e
    case Unlock(_) => None
    case NextBlock => None
    case Elsewhere(_) => None
    case _ => Some(e.m)
  }

  /** The dispute of `m` is stored as before. */
  ghost predicate SameDispute(s: Storage, s': Storage, m: MarketId) { DisputeOf(s', m) == DisputeOf(s, m) }

  lemma {:induction false} OthersInStore(cfg: Config, s: Storage, e: Event, s': Storage, m: MarketId)
    requires StoreStep(cfg, s, e, s') && Concerned(e) != Some(m)
    requires e.Start? || e.AddOutcome? || e.Vote? || e.Refund? || e.Purge?
    ensures SameDispute(s, s', m)
  {
    hide StartItems, Credit, RefundAll, PayEach, IsBatch, VoteError, AddOutcomeError, WinnerTaken;
    match e
    case Start(_, _) =>
    case AddOutcome(_, _, _) =>
    case Vote(_, _, _, _) =>
    case Refund(_, _) =>
    case Purge(_, _) =>
  }

  lemma {:induction false} OthersUntouched(cfg: Config, w: World, e: Event, w': World, m: MarketId)
    requires Step(cfg, w, e, w') && Concerned(e) != Some(m)
    ensures DisputeOf(w'.s, m) == DisputeOf(w.s, m) && HistoryOf(w', m) == HistoryOf(w, m)
  {
    hide Retained, MaxEntry, PayEach, IsBatch, Added, AfterVote, AfterAddOutcome, StartCall, AfterRefund, AfterPurge;
    if e.Start? || e.AddOutcome? || e.Vote? || e.Refund? || e.Purge? {
      hide StoreStep;
      OthersInStore(cfg, w.s, e, w'.s, m);
    }
  }

  // ---- Starting ----

  ghost predicate AllShared(d: Dispute) {
    forall o :: o in d.outcomes ==> d.outcomes[o].possession.Shared?
  }

  lemma {:induction false} StartItemOk(cfg: Config, market: Market, d: Dispute, h: History, item: InitialItem)
    requires DisputeOk(d, h) && (d.info.None? || IsActive(d)) && AllShared(d)
    ensures var r := StartItem(cfg, market, d, item);
            && r != Err(SharedPossessionRequired)
            && (r.Ok? ==>
                  && DisputeOk(r.value, h + [Contribution(item.outcome, item.amount, Initial)])
                  && IsActive(r.value) && AllShared(r.value) && r.value.pot == d.pot)
  {
    var r, c := StartItem(cfg, market, d, item), Contribution(item.outcome, item.amount, Initial);
    if r.Ok? {
      var oi := if item.outcome in d.outcomes
                then OutcomeInfo(SatAdd(d.outcomes[item.outcome].sum, item.amount),
                                 Shared(d.outcomes[item.outcome].possession.owners + [item.owner]))
                else OutcomeInfo(item.amount, Shared([item.owner]));
      assert r.value == Credit(d, item.outcome, oi);
      hide SumsOk, AllStored, CacheOk, FeeSum;
      FeeSumUpdate(d.outcomes, item.outcome, oi);
      assert d.(pot := d.pot) == d;
      CreditOk(d, h, oi, c, d.pot);
    }
  }

  /** Starting never finds a paid outcome, and builds the records of the initial items. */
  lemma {:induction false} StartItemsOk(cfg: Config, market: Market, d: Dispute, items: seq<InitialItem>)
    requires DisputeOk(d, []) && d.info.None?
    ensures var r := StartItems(cfg, market, d, items);
            && r != Err(SharedPossessionRequired)
            && (r.Ok? ==>
                  && DisputeOk(r.value, InitialContributions(items))
                  && (r.value.info.None? || IsActive(r.value)) && AllShared(r.value) && r.value.pot == d.pot)
  {
    hide DisputeOk, StartItem;
    if items == [] {
      NothingShared(d);
      assert InitialContributions(items) == [];
    } else {
      var prefix, item := items[..|items| - 1], items[|items| - 1];
      StartItemsOk(cfg, market, d, prefix);
      assert InitialContributions(items) == InitialContributions(prefix) + [Contribution(item.outcome, item.amount, Initial)];
      var before := StartItems(cfg, market, d, prefix);
      if before.Ok? {
        StartItemOk(cfg, market, before.value, InitialContributions(prefix), item);
      }
    }
  }

  lemma {:induction false} NothingShared(d: Dispute)
    requires DisputeOk(d, []) && d.info.None?
    ensures AllShared(d)
  {
  }

  /** The status is no concern of the records while it is active. */
  lemma {:induction false} StatusOk(d: Dispute, h: History, status: Status)
    requires DisputeOk(d, h) && IsActive(d)
    ensures DisputeOk(d.(info := Some(d.info.value.(status := status))), h)
  {
  }

  lemma {:induction false} WithDisputeOf(s: Storage, m: MarketId, d: Dispute)
    requires d.info.Some?
    ensures DisputeOf(WithDispute(s, m, d), m) == d
  {
  }

  lemma {:induction false} StartKeeps(cfg: Config, w: World, w': World, m: MarketId, items: seq<InitialItem>)
    requires DisputeOk(DisputeOf(w.s, m), HistoryOf(w, m)) && Step(cfg, w, Start(m, items), w')
    ensures DisputeOk(DisputeOf(w'.s, m), HistoryOf(w', m))
  {
    hide DisputeOk, StartItems;
    var d := DisputeOf(w.s, m);
    NoHistory(d, HistoryOf(w, m));
    StartItemsOk(cfg, w.s.markets[m], d, items);
    var started := StartItems(cfg, w.s.markets[m], d, items).value;
    assert [] + InitialContributions(items) == InitialContributions(items);
    var status := Active(SatAddBlock(w.s.now, cfg.addOutcomePeriod),
                         SatAddBlock(SatAddBlock(w.s.now, cfg.addOutcomePeriod), cfg.votingPeriod));
    StatusOk(started, InitialContributions(items), status);
    WithDisputeOf(w.s, m, started.(info := Some(started.info.value.(status := status))));
  }

  lemma {:induction false} NoHistory(d: Dispute, h: History)
    requires DisputeOk(d, h) && d.info.None?
    ensures h == []
  {
  }

  // ---- Adding and voting ----

  lemma {:induction false} PotWithin(s: Storage, m: MarketId, who: AccountId)
    ensures DisputeOf(s, m).pot + BalanceOf(s.balances, who) <= Issued(s)
  {
    if m in s.pots {
      BalanceWithin(s.pots, m);
    }
    if who in s.balances {
      BalanceWithin(s.balances, who);
    }
  }

  lemma {:induction false} AddKeeps(cfg: Config, w: World, w': World, who: AccountId, m: MarketId, o: OutcomeReport)
    requires DisputeOk(DisputeOf(w.s, m), HistoryOf(w, m)) && Issued(w.s) <= U128_MAX
    requires Step(cfg, w, AddOutcome(who, m, o), w')
    ensures DisputeOk(DisputeOf(w'.s, m), HistoryOf(w', m))
  {
    var d, oi := DisputeOf(w.s, m), OutcomeInfo(cfg.fee, Paid(who, cfg.fee));
    PotWithin(w.s, m, who);
    hide SumsOk, AllStored, CacheOk, FeeSum, AllOwned;
    FeeSumUpdate(d.outcomes, o, oi);
    CreditOk(d, HistoryOf(w, m), oi, Contribution(o, cfg.fee, Fee), d.pot + cfg.fee);
  }

  lemma {:induction false} VoteKeeps(cfg: Config, w: World, w': World, who: AccountId, m: MarketId, o: OutcomeReport, amount: Balance)
    requires DisputeOk(DisputeOf(w.s, m), HistoryOf(w, m)) && Step(cfg, w, Vote(who, m, o, amount), w')
    ensures DisputeOk(DisputeOf(w'.s, m), HistoryOf(w', m))
  {
    var d := DisputeOf(w.s, m);
    var oi := d.outcomes[o].(sum := SatAdd(d.outcomes[o].sum, amount));
    hide SumsOk, AllStored, CacheOk, FeeSum;
    FeeSumUpdate(d.outcomes, o, oi);
    CreditOk(d, HistoryOf(w, m), oi, Contribution(o, amount, Ballot(who)), d.pot);
    hide AllOwned, DisputeOk;
  }

  // ---- The end ----

  lemma {:induction false} RefundOneOk(d: Dispute, h: History, l: Ledger, o: OutcomeReport)
    requires DisputeOk(d, h) && d.info.Some? && d.info.value.status.Destroyed? && o in d.outcomes
    ensures DisputeOk(RefundOne(d, l, o).0, h)
    ensures d.outcomes[o].possession.Paid? ==> d.outcomes[o].possession.fee <= d.pot
  {
    hide FeeSum, CacheOk;
    FeeSumRemove(d.outcomes, o);
  }

  lemma {:induction false} RefundAllOk(d: Dispute, h: History, l: Ledger, batch: seq<OutcomeReport>)
    requires DisputeOk(d, h) && d.info.Some? && d.info.value.status.Destroyed?
    requires forall i :: 0 <= i < |batch| ==> batch[i] in d.outcomes
    requires Distinct(batch)
    ensures DisputeOk(RefundAll(d, l, batch).0, h)
  {
    hide DisputeOk;
    if batch != [] {
      RefundAllOk(d, h, l, batch[..|batch| - 1]);
      var before := RefundAll(d, l, batch[..|batch| - 1]);
      RefundOneOk(before.0, h, before.1, batch[|batch| - 1]);
    }
  }

  lemma {:induction false} PurgeKeeps(d: Dispute, h: History, gone: set<OutcomeReport>)
    requires DisputeOk(d, h) && d.info.Some? && d.info.value.status.Finished?
    ensures DisputeOk(WinnerTaken(d).(outcomes := WinnerTaken(d).outcomes - gone), h)
  {
    hide Leads, Score, LastTouched;
  }

  lemma {:induction false} StatusKeeps(cfg: Config, w: World, e: Event, w': World)
    requires e.Finish? || e.Destroy?
    requires DisputeOk(DisputeOf(w.s, e.m), HistoryOf(w, e.m)) && Step(cfg, w, e, w')
    ensures DisputeOk(DisputeOf(w'.s, e.m), HistoryOf(w', e.m))
  {
    hide SumsOk, AllStored, Leads, Score, FeeSum, Owned;
    if e.Destroy? && !IsActive(DisputeOf(w.s, e.m)) {
      assert DisputeOf(w'.s, e.m) == DisputeOf(w.s, e.m);
    }
  }

  lemma {:induction false} RefundKeeps(cfg: Config, w: World, w': World, m: MarketId, batch: seq<OutcomeReport>)
    requires DisputeOk(DisputeOf(w.s, m), HistoryOf(w, m)) && Step(cfg, w, Refund(m, batch), w')
    ensures DisputeOk(DisputeOf(w'.s, m), HistoryOf(w', m))
  {
    hide DisputeOk, RefundAll;
    RefundAllOk(DisputeOf(w.s, m), HistoryOf(w, m), w.s.balances, batch);
    WithDisputeOf(w.s, m, RefundAll(DisputeOf(w.s, m), w.s.balances, batch).0);
  }

  lemma {:induction false} PurgeStepKeeps(cfg: Config, w: World, w': World, m: MarketId, batch: seq<OutcomeReport>)
    requires DisputeOk(DisputeOf(w.s, m), HistoryOf(w, m)) && Step(cfg, w, Purge(m, batch), w')
    ensures DisputeOk(DisputeOf(w'.s, m), HistoryOf(w', m))
  {
    hide DisputeOk, WinnerTaken;
    PurgeKeeps(DisputeOf(w.s, m), HistoryOf(w, m), Elements(batch));
    var d := WinnerTaken(DisputeOf(w.s, m));
    WinnerTakenInfo(DisputeOf(w.s, m));
    WithDisputeOf(w.s, m, d.(outcomes := d.outcomes - Elements(batch)));
  }

  lemma {:induction false} WinnerTakenInfo(d: Dispute)
    requires d.info.Some?
    ensures WinnerTaken(d).info.Some?
  {
  }

  lemma {:induction false} RewardKeeps(cfg: Config, w: World, w': World, m: MarketId)
    requires DisputeOk(DisputeOf(w.s, m), HistoryOf(w, m)) && Step(cfg, w, Reward(m), w')
    ensures DisputeOk(DisputeOf(w'.s, m), HistoryOf(w', m))
  {
    hide SumsOk, AllStored, CacheOk, FeeSum, Owned, PayEach, Part, Rest;
    assert DisputeOf(w'.s, m) == DisputeOf(w.s, m).(pot := DisputeOf(w'.s, m).pot);
  }

  lemma {:induction false} DonatePot(s: Storage, who: AccountId, m: MarketId, amount: Balance)
    requires CanTransfer(s, who, amount) && Issued(s) <= U128_MAX
    ensures var d, d' := DisputeOf(s, m), DisputeOf(AfterDonate(s, who, m, amount), m);
            d'.info == d.info && d'.outcomes == d.outcomes && d'.pot == d.pot + amount
  {
    PotWithin(s, m, who);
  }

  lemma {:induction false} DonateKeeps(cfg: Config, w: World, w': World, who: AccountId, m: MarketId, amount: Balance)
    requires DisputeOk(DisputeOf(w.s, m), HistoryOf(w, m)) && Issued(w.s) <= U128_MAX
    requires Step(cfg, w, Donate(who, m, amount), w')
    ensures DisputeOk(DisputeOf(w'.s, m), HistoryOf(w', m))
  {
    hide SumsOk, AllStored, CacheOk, FeeSum, Owned;
    DonatePot(w.s, who, m, amount);
  }

  /** Every step keeps the records of every dispute in agreement with its history. */
  lemma {:induction false} DisputeKept(cfg: Config, w: World, e: Event, w': World, m: MarketId)
    requires DisputeOk(DisputeOf(w.s, m), HistoryOf(w, m)) && Issued(w.s) <= U128_MAX && Step(cfg, w, e, w')
    ensures DisputeOk(DisputeOf(w'.s, m), HistoryOf(w', m))
  {
    hide DisputeOk, Step;
    if Concerned(e) != Some(m) {
      OthersUntouched(cfg, w, e, w', m);
    } else {
      match e
      case Start(_, items) => StartKeeps(cfg, w, w', m, items);
      case AddOutcome(who, _, o) => AddKeeps(cfg, w, w', who, m, o);
      case Vote(who, _, o, amount) => VoteKeeps(cfg, w, w', who, m, o, amount);
      case Finish(_) => StatusKeeps(cfg, w, e, w');
      case Destroy(_) => StatusKeeps(cfg, w, e, w');
      case Refund(_, batch) => RefundKeeps(cfg, w, w', m, batch);
      case Purge(_, batch) => PurgeStepKeeps(cfg, w, w', m, batch);
      case Reward(_) => RewardKeeps(cfg, w, w', m);
      case Donate(who, _, amount) => DonateKeeps(cfg, w, w', who, m, amount);
    }
  }
}
