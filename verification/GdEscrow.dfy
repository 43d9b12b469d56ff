/** The fees in the reward accounts: where they go, and that no token is made or lost. */
module GdEscrow {
  import opened Numbers
  import opened Ordered
  import opened Ledger
  import opened GlobalDisputes
  import opened GdHistory
  import opened GdSteps

  // ---- Refunds ----

  function FeeTo(oi: OutcomeInfo, a: AccountId): nat {
    if oi.possession.Paid? && oi.possession.owner == a then oi.possession.fee else 0
  }

  function FeesOf(outcomes: Outcomes, a: AccountId): map<OutcomeReport, nat> { map o | o in outcomes :: FeeTo(outcomes[o], a) }

  /** The fees that an account has paid for the stored outcomes. */
  ghost function Claim(outcomes: Outcomes, a: AccountId): nat { Total(FeesOf(outcomes, a)) }

  lemma {:induction false} ClaimRemove(outcomes: Outcomes, o: OutcomeReport, a: AccountId)
    requires o in outcomes
    ensures Claim(outcomes, a) == FeeTo(outcomes[o], a) + Claim(outcomes - {o}, a)
  {
    assert FeesOf(outcomes - {o}, a) == FeesOf(outcomes, a) - {o};
    TotalRemove(FeesOf(outcomes, a), o);
  }

  /** One refund pays the fee of the removed outcome to whoever paid it, and to nobody else. */
  lemma {:induction false} RefundOnePays(d: Dispute, h: History, l: Ledger, o: OutcomeReport, a: AccountId)
    requires DisputeOk(d, h) && d.info.Some? && d.info.value.status.Destroyed? && o in d.outcomes
    requires Total(l) + d.pot <= U128_MAX
    ensures var r := RefundOne(d, l, o);
            && Total(r.1) + r.0.pot == Total(l) + d.pot
            && BalanceOf(r.1, a) + Claim(r.0.outcomes, a) == BalanceOf(l, a) + Claim(d.outcomes, a)
  {
    RefundOneOk(d, h, l, o);
    ClaimRemove(d.outcomes, o, a);
    hide DisputeOk, Claim;
    if d.outcomes[o].possession.Paid? {
      DepositTotal(l, d.outcomes[o].possession.owner, d.outcomes[o].possession.fee);
    }
  }

  /** So a batch moves every account's claim into its balance, exactly. */
  lemma {:induction false} RefundAllPays(d: Dispute, h: History, l: Ledger, batch: seq<OutcomeReport>, a: AccountId)
    requires DisputeOk(d, h) && d.info.Some? && d.info.value.status.Destroyed?
    requires Total(l) + d.pot <= U128_MAX
    requires forall i :: 0 <= i < |batch| ==> batch[i] in d.outcomes
    requires Distinct(batch)
    ensures var r := RefundAll(d, l, batch);
            && Total(r.1) + r.0.pot == Total(l) + d.pot
            && BalanceOf(r.1, a) + Claim(r.0.outcomes, a) == BalanceOf(l, a) + Claim(d.outcomes, a)
  {
    hide DisputeOk, Claim;
    if batch != [] {
      var prefix := batch[..|batch| - 1];
      RefundAllPays(d, h, l, prefix, a);
      RefundAllOk(d, h, l, prefix);
      var before := RefundAll(d, l, prefix);
      RefundOnePays(before.0, h, before.1, batch[|batch| - 1], a);
    }
  }

  /** How many outcomes are left after a batch. */
  lemma {:induction false} BatchSize(cfg: Config, outcomes: Outcomes, batch: seq<OutcomeReport>)
    requires IsBatch(cfg, outcomes, batch)
    ensures |outcomes - Elements(batch)| == SatSub(|outcomes|, cfg.removeKeysLimit)
  {
    ElementCount(batch);
    KeysLeft(outcomes, Elements(batch));
  }

  lemma {:induction false} KeysLeft(outcomes: Outcomes, gone: set<OutcomeReport>)
    requires gone <= outcomes.Keys
    ensures |outcomes - gone| == |outcomes| - |gone|
  {
    assert (outcomes - gone).Keys == outcomes.Keys - gone;
    assert |outcomes.Keys| == |outcomes|;
    assert |(outcomes - gone).Keys| == |outcomes - gone|;
  }

  // ---- Payouts ----

  lemma {:induction false} Listings(owners: seq<AccountId>, a: AccountId)
    requires owners != []
    ensures multiset(owners)[a] == multiset(owners[..|owners| - 1])[a] + if owners[|owners| - 1] == a then 1 else 0
  {
    assert owners == owners[..|owners| - 1] + [owners[|owners| - 1]];
  }

  /** Every listed owner gets the amount once per listing. */
  lemma {:induction false} PayEachPays(l: Ledger, owners: seq<AccountId>, amount: Balance, a: AccountId)
    requires Total(l) + Times(|owners|, amount) <= U128_MAX
    ensures Total(PayEach(l, owners, amount)) == Total(l) + Times(|owners|, amount)
    ensures BalanceOf(PayEach(l, owners, amount), a) == BalanceOf(l, a) + Times(multiset(owners)[a], amount)
  {
    if owners != [] {
      var prefix, last := owners[..|owners| - 1], owners[|owners| - 1];
      PayEachPays(l, prefix, amount, a);
      DepositTotal(PayEach(l, prefix, amount), last, amount);
      Listings(owners, a);
      hide Total, Deposit;
    }
  }

  lemma {:induction false} WholeParts(pot: Balance, k: nat)
    requires 0 < k
    ensures Times(k, Part(pot, k)) + Rest(pot, k) == pot && Rest(pot, k) < k
  {
    TimesIsProduct(k, pot / k);
  }

  /** The payout: everything to a paying owner; otherwise the same whole part to every owner, and
      the rest, less than one token per owner, stays. */
  lemma {:induction false} RewardPays(s: Storage, m: MarketId, a: AccountId)
    requires RewardError(s, m).None? && Issued(s) <= U128_MAX && Owned(s.infos[m].outcomeInfo.possession)
    ensures var s', pot := AfterReward(s, m), DisputeOf(s, m).pot;
            match s.infos[m].outcomeInfo.possession
            case Paid(owner, _) =>
              && DisputeOf(s', m).pot == 0
              && BalanceOf(s'.balances, a) == BalanceOf(s.balances, a) + (if a == owner then pot else 0)
            case Shared(owners) =>
              && DisputeOf(s', m).pot == Rest(pot, |owners|) < |owners|
              && BalanceOf(s'.balances, a) == BalanceOf(s.balances, a) + Times(multiset(owners)[a], Part(pot, |owners|))
    ensures Issued(AfterReward(s, m)) == Issued(s)
  {
    hide PayEach, Part, Rest, Times, Deposit, Total;
    match s.infos[m].outcomeInfo.possession
    case Paid(owner, _) => PaidReward(s, m, owner, a);
    case Shared(owners) => SharedReward(s, m, owners, a);
  }

  lemma {:induction false} PaidReward(s: Storage, m: MarketId, owner: AccountId, a: AccountId)
    requires m in s.pots && Issued(s) <= U128_MAX
    ensures var l := Deposit(s.balances, owner, s.pots[m]);
            && BalanceOf(l, a) == BalanceOf(s.balances, a) + (if a == owner then s.pots[m] else 0)
            && Total(l) + Total(s.pots[m := 0]) == Issued(s)
  {
    BalanceWithin(s.pots, m);
    DepositTotal(s.balances, owner, s.pots[m]);
    TotalUpdate(s.pots, m, 0);
  }

  lemma {:induction false} SharedReward(s: Storage, m: MarketId, owners: seq<AccountId>, a: AccountId)
    requires m in s.pots && Issued(s) <= U128_MAX && owners != []
    ensures var l, part, rest := PayEach(s.balances, owners, Part(s.pots[m], |owners|)), Part(s.pots[m], |owners|), Rest(s.pots[m], |owners|);
            && rest < |owners|
            && BalanceOf(l, a) == BalanceOf(s.balances, a) + Times(multiset(owners)[a], part)
            && Total(l) + Total(s.pots[m := rest]) == Issued(s)
  {
    hide PayEach, Part, Rest, Times;
    BalanceWithin(s.pots, m);
    WholeParts(s.pots[m], |owners|);
    PayEachPays(s.balances, owners, Part(s.pots[m], |owners|), a);
    TotalUpdate(s.pots, m, Rest(s.pots[m], |owners|));
  }

  /** Rewarding again fails or moves nothing. */
  lemma {:induction false} RewardOnce(s: Storage, m: MarketId)
    requires RewardError(s, m).None? && Owned(s.infos[m].outcomeInfo.possession)
    ensures var s' := AfterReward(s, m);
            || RewardError(s', m) == Some(NoFundsToReward)
            || (RewardError(s', m).None? && forall a: AccountId :: SameMoney(s', AfterReward(s', m), m, a))
  {
    var s' := AfterReward(s, m);
    match s.infos[m].outcomeInfo.possession {
      case Paid(_, _) =>
      case Shared(owners) =>
        hide PayEach, Part, Rest;
        WholeParts(DisputeOf(s, m).pot, |owners|);
        SmallParts(Rest(DisputeOf(s, m).pot, |owners|), |owners|);
        forall a: AccountId
          ensures RewardError(s', m).None? ==> SameMoney(s', AfterReward(s', m), m, a)
        {
          PayNothing(s'.balances, owners, a);
        }
    }
  }

  ghost predicate SameMoney(s: Storage, s': Storage, m: MarketId, a: AccountId) {
    BalanceOf(s'.balances, a) == BalanceOf(s.balances, a) && DisputeOf(s', m).pot == DisputeOf(s, m).pot
  }

  lemma {:induction false} SmallParts(left: Balance, k: nat)
    requires left < k
    ensures Part(left, k) == 0 && Rest(left, k) == left
  {
  }

  lemma {:induction false} PayNothing(l: Ledger, owners: seq<AccountId>, a: AccountId)
    ensures BalanceOf(PayEach(l, owners, 0), a) == BalanceOf(l, a)
  {
    if owners != [] {
      PayNothing(l, owners[..|owners| - 1], a);
    }
  }

  // ---- The possession of the winner ----

  /** Who the winning outcome belongs to: its record, or what was saved of it. */
  function WinnerPossession(d: Dispute): Possession
    requires d.info.Some?
  {
    var info := d.info.value;
    if info.winner in d.outcomes then d.outcomes[info.winner].possession else info.outcomeInfo.possession
  }

  lemma {:induction false} PurgeKeepsPossession(d: Dispute, gone: set<OutcomeReport>)
    requires d.info.Some?
    ensures var d' := WinnerTaken(d).(outcomes := WinnerTaken(d).outcomes - gone);
            && d'.info.Some? && d'.info.value.status == d.info.value.status
            && WinnerPossession(d') == WinnerPossession(d)
  {
  }

  /** A finished dispute stays finished, with the same winner and the same possession. */
  lemma {:induction false} FinishedStep(cfg: Config, s: Storage, e: Event, s': Storage, m: MarketId)
    requires StoreStep(cfg, s, e, s') && m in s.infos && s.infos[m].status.Finished? && Concerned(e) == Some(m)
    ensures m in s'.infos && s'.infos[m].status.Finished? && s'.infos[m].winner == s.infos[m].winner
    ensures WinnerPossession(DisputeOf(s', m)) == WinnerPossession(DisputeOf(s, m))
  {
    hide StartItems, Credit, RefundAll, IsBatch, PayEach, WinnerTaken, WinnerPossession;
    match e
    case Purge(_, batch) => FinishedPurge(cfg, s, s', m, batch);
    case Reward(_) => FinishedReward(s, m);
    case Donate(_, _, _) => SamePossession(DisputeOf(s, m), DisputeOf(s', m));
    case _ =>
  }

  lemma {:induction false} SamePossession(d: Dispute, d': Dispute)
    requires d.info.Some? && d'.info == d.info && d'.outcomes == d.outcomes
    ensures WinnerPossession(d') == WinnerPossession(d)
  {
  }

  lemma {:induction false} FinishedPurge(cfg: Config, s: Storage, s': Storage, m: MarketId, batch: seq<OutcomeReport>)
    requires StoreStep(cfg, s, Purge(m, batch), s')
    ensures m in s'.infos && s'.infos[m].status.Finished? && s'.infos[m].winner == s.infos[m].winner
    ensures WinnerPossession(DisputeOf(s', m)) == WinnerPossession(DisputeOf(s, m))
  {
    PurgeKeepsPossession(DisputeOf(s, m), Elements(batch));
    var d := WinnerTaken(DisputeOf(s, m));
    WithDisputeOf(s, m, d.(outcomes := d.outcomes - Elements(batch)));
    hide WinnerPossession, Elements;
  }

  lemma {:induction false} FinishedReward(s: Storage, m: MarketId)
    requires m in s.infos
    ensures AfterReward(s, m).infos == s.infos && AfterReward(s, m).outcomes == s.outcomes
    ensures WinnerPossession(DisputeOf(AfterReward(s, m), m)) == WinnerPossession(DisputeOf(s, m))
  {
    hide PayEach, Deposit, Part, Rest, WinnerPossession;
    SamePossession(DisputeOf(s, m), DisputeOf(AfterReward(s, m), m));
  }

  // ---- No token is made or lost ----

  lemma {:induction false} AddConserves(cfg: Config, s: Storage, who: AccountId, m: MarketId, o: OutcomeReport)
    requires AddOutcomeError(cfg, s, who, m, o).None? && Issued(s) <= U128_MAX
    ensures Issued(AfterAddOutcome(cfg, s, who, m, o)) == Issued(s)
  {
    var pot := DisputeOf(s, m).pot;
    PotWithin(s, m, who);
    hide Credit, UpdateWinner;
    SlashTotal(s.balances, who, cfg.fee);
    TotalUpdate(s.pots, m, pot + cfg.fee);
    var d := DisputeOf(s, m).(pot := pot + cfg.fee);
    CreditKeepsPot(d, o, OutcomeInfo(cfg.fee, Paid(who, cfg.fee)));
  }

  lemma {:induction false} DonateConserves(s: Storage, who: AccountId, m: MarketId, amount: Balance)
    requires CanTransfer(s, who, amount) && Issued(s) <= U128_MAX
    ensures Issued(AfterDonate(s, who, m, amount)) == Issued(s)
  {
    PotWithin(s, m, who);
    SlashTotal(s.balances, who, amount);
    TotalUpdate(s.pots, m, DisputeOf(s, m).pot + amount);
  }

  lemma {:induction false} CreditKeepsPot(d: Dispute, o: OutcomeReport, oi: OutcomeInfo)
    ensures Credit(d, o, oi).info.Some? && Credit(d, o, oi).pot == d.pot
  {
  }

  /** Putting a dispute back with the same pot keeps the pots. */
  lemma {:induction false} SamePot(s: Storage, m: MarketId, d: Dispute)
    requires d.info.Some? && d.pot == DisputeOf(s, m).pot
    ensures Total(WithDispute(s, m, d).pots) == Total(s.pots)
  {
    TotalUpdate(s.pots, m, d.pot);
  }

  lemma {:induction false} VoteConserves(cfg: Config, s: Storage, who: AccountId, m: MarketId, o: OutcomeReport, amount: Balance)
    requires VoteError(cfg, s, who, m, o, amount).None?
    ensures Issued(AfterVote(cfg, s, who, m, o, amount)) == Issued(s)
  {
    var d := DisputeOf(s, m);
    var oi := d.outcomes[o].(sum := SatAdd(d.outcomes[o].sum, amount));
    CreditKeepsPot(d, o, oi);
    SamePot(s, m, Credit(d, o, oi));
    hide Credit;
  }

  lemma {:induction false} StartConserves(cfg: Config, w: World, w': World, m: MarketId, items: seq<InitialItem>)
    requires DisputeOk(DisputeOf(w.s, m), HistoryOf(w, m)) && Step(cfg, w, Start(m, items), w')
    ensures Issued(w'.s) == Issued(w.s)
  {
    hide DisputeOk, StartItems;
    var d := DisputeOf(w.s, m);
    NoHistory(d, HistoryOf(w, m));
    StartItemsOk(cfg, w.s.markets[m], d, items);
    SamePot(w.s, m, StartItems(cfg, w.s.markets[m], d, items).value);
  }

  lemma {:induction false} RefundConserves(cfg: Config, w: World, w': World, m: MarketId, batch: seq<OutcomeReport>)
    requires DisputeOk(DisputeOf(w.s, m), HistoryOf(w, m)) && Issued(w.s) <= U128_MAX
    requires Step(cfg, w, Refund(m, batch), w')
    ensures Issued(w'.s) == Issued(w.s)
  {
    var d := DisputeOf(w.s, m);
    hide DisputeOk, RefundAll, Claim;
    PotFits(w.s, m);
    RefundAllPays(d, HistoryOf(w, m), w.s.balances, batch, 0);
    TotalUpdate(w.s.pots, m, RefundAll(d, w.s.balances, batch).0.pot);
  }

  lemma {:induction false} PotFits(s: Storage, m: MarketId)
    ensures Total(s.balances) + DisputeOf(s, m).pot <= Issued(s)
  {
    if m in s.pots {
      BalanceWithin(s.pots, m);
    }
  }

  lemma {:induction false} PurgeConserves(cfg: Config, s: Storage, m: MarketId, batch: seq<OutcomeReport>)
    requires m in s.infos && IsBatch(cfg, WinnerTaken(DisputeOf(s, m)).outcomes, batch)
    ensures Issued(AfterPurge(cfg, s, m, batch)) == Issued(s)
  {
    var d := WinnerTaken(DisputeOf(s, m));
    SamePot(s, m, d.(outcomes := d.outcomes - Elements(batch)));
  }

  /** Every call moves tokens between accounts and reward accounts, and makes or loses none. */
  lemma {:induction false} MoneyKept(cfg: Config, w: World, e: Event, w': World, m: MarketId)
    requires Step(cfg, w, e, w') && Issued(w.s) <= U128_MAX && !e.Elsewhere?
    requires Concerned(e).Some? ==> e.m == m && DisputeOk(DisputeOf(w.s, m), HistoryOf(w, m))
    ensures Issued(w'.s) == Issued(w.s)
  {
    hide DisputeOk, AfterVote, AfterAddOutcome, AfterRefund, AfterPurge, AfterReward, StartCall, IsBatch, VoteError, AddOutcomeError, Retained, MaxEntry;
    match e {
      case Start(_, items) => hide Issued; StartConserves(cfg, w, w', m, items);
      case AddOutcome(who, _, o) => hide Issued; AddConserves(cfg, w.s, who, m, o);
      case Vote(who, _, o, amount) => hide Issued; VoteConserves(cfg, w.s, who, m, o, amount);
      case Refund(_, batch) => hide Issued; RefundConserves(cfg, w, w', m, batch);
      case Purge(_, batch) => hide Issued; PurgeConserves(cfg, w.s, m, batch);
      case Reward(_) => hide Issued; PossessionOwned(DisputeOf(w.s, m), HistoryOf(w, m)); RewardPays(w.s, m, 0);
      case Donate(who, _, amount) => hide Issued; DonateConserves(w.s, who, m, amount);
      case _ =>
    }
  }

  lemma {:induction false} PossessionOwned(d: Dispute, h: History)
    requires DisputeOk(d, h) && d.info.Some?
    ensures Owned(d.info.value.outcomeInfo.possession)
  {
  }
}
