/** The reward accounts of global disputes over whole runs: what they hold, who gets it back and
    who gets it in the end. */
module GdFunds {
  import opened Numbers
  import opened Ordered
  import opened Ledger
  import opened GlobalDisputes
  import opened GdHistory
  import opened GdSteps
  import opened GdVoters
  import opened GdEscrow
  import opened GdRuns

  // ---- The end of a dispute ----

  ghost predicate IsFinished(s: Storage, m: MarketId) { m in s.infos && s.infos[m].status.Finished? }

  ghost predicate IsDestroyed(s: Storage, m: MarketId) { m in s.infos && s.infos[m].status.Destroyed? }

  predicate IsRefund(e: Event, m: MarketId) { e.Refund? && e.m == m }

  /** A finished dispute keeps its winner, and whoever the winning outcome belonged to gets the
      reward: any number of partial purges later, the saved possession is that of the winner. */
  lemma {:induction false} PossessionTheorem(cfg: Config, ws: seq<World>, es: seq<Event>, i: nat, j: nat, m: MarketId)
    requires Run(cfg, ws, es) && i <= j < |ws| && m in ws[i].s.infos && ws[i].s.infos[m].status.Finished?
    ensures m in ws[j].s.infos && ws[j].s.infos[m].status.Finished? && ws[j].s.infos[m].winner == ws[i].s.infos[m].winner
    ensures WinnerPossession(DisputeOf(ws[j].s, m)) == WinnerPossession(DisputeOf(ws[i].s, m))
    ensures DisputeOf(ws[j].s, m).outcomes == map[] ==>
              ws[j].s.infos[m].outcomeInfo.possession == WinnerPossession(DisputeOf(ws[i].s, m))
    decreases j
  {
    if i < j {
      hide StoreStep, WinnerPossession;
      PossessionTheorem(cfg, ws, es, i, j - 1, m);
      assert Step(cfg, ws[j - 1], es[j - 1], ws[j]);
      if Concerned(es[j - 1]) == Some(m) {
        FinishedStep(cfg, ws[j - 1].s, es[j - 1], ws[j].s, m);
      } else {
        OthersUntouched(cfg, ws[j - 1], es[j - 1], ws[j], m);
        assert DisputeOf(ws[j].s, m).info == DisputeOf(ws[j - 1].s, m).info;
      }
    }
    PossessionSaved(DisputeOf(ws[j].s, m));
  }

  lemma {:induction false} PossessionSaved(d: Dispute)
    requires d.info.Some?
    ensures d.outcomes == map[] ==> d.info.value.outcomeInfo.possession == WinnerPossession(d)
  {
  }

  lemma {:induction false} FinishedStays(cfg: Config, ws: seq<World>, es: seq<Event>, i: nat, j: nat, m: MarketId)
    requires Run(cfg, ws, es) && i <= j < |ws| && IsFinished(ws[i].s, m)
    ensures IsFinished(ws[j].s, m)
  {
    PossessionTheorem(cfg, ws, es, i, j, m);
  }

  /** Only finishing makes a dispute finished. */
  lemma {:induction false} OnlyFinishFinishes(cfg: Config, w: World, e: Event, w': World, m: MarketId)
    requires Step(cfg, w, e, w') && !IsFinished(w.s, m)
    ensures IsFinished(w'.s, m) <==> e == Finish(m) && m in w.s.infos
  {
    hide StartItems, RefundAll, IsBatch, Retained, MaxEntry, AfterPurge, AfterReward;
    if Concerned(e) != Some(m) {
      hide Step;
      OthersUntouched(cfg, w, e, w', m);
      OtherInfos(w.s, w'.s, m);
    }
  }

  /** A finished dispute was finished once, first, at some point. */
  lemma {:induction false} FinishedAt(cfg: Config, ws: seq<World>, es: seq<Event>, i: nat, m: MarketId) returns (f: nat)
    requires Run(cfg, ws, es) && i < |ws| && IsFinished(ws[i].s, m)
    ensures f < i && es[f] == Finish(m) && m in ws[f].s.infos && !IsFinished(ws[f].s, m)
  {
    hide Step;
    if i == 0 {
      assert false;
    }
    if IsFinished(ws[i - 1].s, m) {
      f := FinishedAt(cfg, ws, es, i - 1, m);
    } else {
      f := i - 1;
      assert Step(cfg, ws[f], es[f], ws[i]);
      OnlyFinishFinishes(cfg, ws[f], es[f], ws[i], m);
    }
  }

  lemma {:induction false} NoFeesInitially(h: History, items: seq<InitialItem>)
    ensures FeeAmount(h + InitialContributions(items)) == FeeAmount(h)
  {
    if items == [] {
      assert h + InitialContributions(items) == h;
    } else {
      var before := items[..|items| - 1];
      NoFeesInitially(h, before);
      assert (h + InitialContributions(items))[..|h| + |items| - 1] == h + InitialContributions(before);
    }
  }

  lemma {:induction false} FeesNext(h: History, c: Contribution)
    ensures FeeAmount(h + [c]) == FeeAmount(h) + if c.source.Fee? then c.amount else 0
  {
    assert (h + [c])[..|h|] == h;
  }

  lemma {:induction false} AddFunds(cfg: Config, w: World, w': World, who: AccountId, m: MarketId, o: OutcomeReport)
    requires WorldOk(cfg, w) && Step(cfg, w, AddOutcome(who, m, o), w')
    ensures DisputeOf(w'.s, m).pot == DisputeOf(w.s, m).pot + cfg.fee
    ensures FeeAmount(HistoryOf(w', m)) == FeeAmount(HistoryOf(w, m)) + cfg.fee
  {
    hide DisputeOk, VoterOk, EntryOk, UpdateWinner, FeeAmount;
    PotWithin(w.s, m, who);
    FeesNext(HistoryOf(w, m), Contribution(o, cfg.fee, Fee));
  }

  lemma {:induction false} VoteFunds(cfg: Config, w: World, w': World, who: AccountId, m: MarketId, o: OutcomeReport, amount: Balance)
    requires Step(cfg, w, Vote(who, m, o, amount), w')
    ensures DisputeOf(w'.s, m).pot == DisputeOf(w.s, m).pot
    ensures FeeAmount(HistoryOf(w', m)) == FeeAmount(HistoryOf(w, m))
  {
    hide UpdateWinner, FeeAmount;
    FeesNext(HistoryOf(w, m), Contribution(o, amount, Ballot(who)));
  }

  lemma {:induction false} StartFunds(cfg: Config, w: World, w': World, m: MarketId, items: seq<InitialItem>)
    requires WorldOk(cfg, w) && Step(cfg, w, Start(m, items), w')
    ensures DisputeOf(w'.s, m).pot == DisputeOf(w.s, m).pot
    ensures FeeAmount(HistoryOf(w', m)) == FeeAmount(HistoryOf(w, m))
  {
    assert DisputeOk(DisputeOf(w.s, m), HistoryOf(w, m));
    hide DisputeOk, VoterOk, EntryOk, StartItems, FeeAmount;
    var d := DisputeOf(w.s, m);
    NoHistory(d, HistoryOf(w, m));
    StartItemsOk(cfg, w.s.markets[m], d, items);
    NoFeesInitially(HistoryOf(w, m), items);
  }

  lemma {:induction false} NothingYet(w: World, m: MarketId)
    requires InitialWorld(w)
    ensures DisputeOf(w.s, m).pot == 0 && FeeAmount(HistoryOf(w, m)) == 0
  {
  }

  lemma {:induction false} NoClaim(a: AccountId)
    ensures Claim(map[], a) == 0
  {
    assert FeesOf(map[], a) == map[];
  }

  // ---- What goes in and out ----

  function DonationIn(e: Event, m: MarketId): nat { if e.Donate? && e.m == m then e.amount else 0 }

  /** What was sent to the reward account of `m`, beside fees, by the first `i` events. */
  function Donated(es: seq<Event>, i: nat, m: MarketId): nat
    requires i <= |es|
  {
    if i == 0 then 0 else Donated(es, i - 1, m) + DonationIn(es[i - 1], m)
  }

  /** What an event pays back to all accounts, if it is a refund of `m`. */
  ghost function PaidBackBy(w: World, e: Event, w': World, m: MarketId): int {
    if IsRefund(e, m) then Total(w'.s.balances) - Total(w.s.balances) else 0
  }

  /** What the refunds of `m` among the first `i` events have paid back to all accounts. */
  ghost function PaidBack(ws: seq<World>, es: seq<Event>, i: nat, m: MarketId): int
    requires i <= |es| && |ws| == |es| + 1
  {
    if i == 0 then 0 else PaidBack(ws, es, i - 1, m) + PaidBackBy(ws[i - 1], es[i - 1], ws[i], m)
  }

  lemma {:induction false} RefundFunds(cfg: Config, w: World, w': World, m: MarketId, batch: seq<OutcomeReport>)
    requires WorldOk(cfg, w) && Step(cfg, w, Refund(m, batch), w')
    ensures DisputeOf(w'.s, m).pot + Total(w'.s.balances) == DisputeOf(w.s, m).pot + Total(w.s.balances)
    ensures HistoryOf(w', m) == HistoryOf(w, m)
  {
    var d := DisputeOf(w.s, m);
    assert DisputeOk(d, HistoryOf(w, m));
    hide DisputeOk, VoterOk, EntryOk, RefundAll, Claim;
    PotFits(w.s, m);
    RefundAllPays(d, HistoryOf(w, m), w.s.balances, batch, 0);
    WithDisputeOf(w.s, m, RefundAll(d, w.s.balances, batch).0);
  }

  lemma {:induction false} PurgeFunds(cfg: Config, w: World, w': World, m: MarketId, batch: seq<OutcomeReport>)
    requires Step(cfg, w, Purge(m, batch), w')
    ensures DisputeOf(w'.s, m).pot == DisputeOf(w.s, m).pot && HistoryOf(w', m) == HistoryOf(w, m)
  {
  }

  lemma {:induction false} DonateFunds(cfg: Config, w: World, w': World, who: AccountId, m: MarketId, amount: Balance)
    requires WorldOk(cfg, w) && Step(cfg, w, Donate(who, m, amount), w')
    ensures DisputeOf(w'.s, m).pot == DisputeOf(w.s, m).pot + amount && HistoryOf(w', m) == HistoryOf(w, m)
    ensures DisputeOf(w'.s, m).outcomes == DisputeOf(w.s, m).outcomes
  {
    hide DisputeOk, VoterOk, EntryOk;
    DonatePot(w.s, who, m, amount);
  }

  /** A step that is no payout: the reward account grows by fees and donations, shrinks by
      refunds, and changes by nothing else. */
  lemma {:induction false} FundsFollow(cfg: Config, w: World, e: Event, w': World, m: MarketId)
    requires WorldOk(cfg, w) && Step(cfg, w, e, w') && e != Reward(m)
    ensures DisputeOf(w'.s, m).pot + PaidBackBy(w, e, w', m) - FeeAmount(HistoryOf(w', m))
         == DisputeOf(w.s, m).pot + DonationIn(e, m) - FeeAmount(HistoryOf(w, m))
  {
    hide WorldOk, FeeAmount;
    if Concerned(e) != Some(m) {
      hide Step;
      OthersUntouched(cfg, w, e, w', m);
    } else {
      hide AfterVote, AfterAddOutcome, StartCall, AfterRefund, AfterPurge, AfterReward, AfterDonate, IsBatch, VoteError, AddOutcomeError, WinnerTaken;
      match e
      case Start(_, items) => StartFunds(cfg, w, w', m, items);
      case AddOutcome(who, _, o) => AddFunds(cfg, w, w', who, m, o);
      case Vote(who, _, o, amount) => VoteFunds(cfg, w, w', who, m, o, amount);
      case Refund(_, batch) => RefundFunds(cfg, w, w', m, batch);
      case Purge(_, batch) => PurgeFunds(cfg, w, w', m, batch);
      case Donate(who, _, amount) => DonateFunds(cfg, w, w', who, m, amount);
      case _ =>
    }
  }

  /** Up to the first payout, whatever happens: what the reward account holds and what refunds have
      paid back are together all fees ever paid for outcomes and all donations. */
  lemma {:induction false} FundTheorem(cfg: Config, ws: seq<World>, es: seq<Event>, i: nat, m: MarketId)
    requires Run(cfg, ws, es) && i < |ws| && forall k :: 0 <= k < i ==> es[k] != Reward(m)
    ensures DisputeOf(ws[i].s, m).pot + PaidBack(ws, es, i, m) == FeeAmount(HistoryOf(ws[i], m)) + Donated(es, i, m)
  {
    hide Step, WorldOk, DisputeOf, PaidBackBy, DonationIn, FeeAmount;
    if i == 0 {
      NothingYet(ws[0], m);
    } else {
      FundTheorem(cfg, ws, es, i - 1, m);
      RunTheorem(cfg, ws, es, i - 1);
      assert Step(cfg, ws[i - 1], es[i - 1], ws[i]);
      FundsFollow(cfg, ws[i - 1], es[i - 1], ws[i], m);
    }
  }

  // ---- Until the dispute is finished ----

  /** What the reward account holds beside the fees of the stored outcomes. */
  ghost function Surplus(d: Dispute): int { d.pot - FeeSum(d.outcomes) }

  lemma {:induction false} RefundSurplus(d: Dispute, h: History, l: Ledger, batch: seq<OutcomeReport>)
    requires DisputeOk(d, h) && d.info.Some? && d.info.value.status.Destroyed?
    requires forall i :: 0 <= i < |batch| ==> batch[i] in d.outcomes
    requires Distinct(batch)
    ensures Surplus(RefundAll(d, l, batch).0) == Surplus(d)
  {
    hide DisputeOk, FeeSum;
    if batch != [] {
      var prefix, o := batch[..|batch| - 1], batch[|batch| - 1];
      RefundSurplus(d, h, l, prefix);
      RefundAllOk(d, h, l, prefix);
      var before := RefundAll(d, l, prefix);
      RefundOneOk(before.0, h, before.1, o);
      FeeSumRemove(before.0.outcomes, o);
    }
  }

  lemma {:induction false} RefundStepSurplus(cfg: Config, w: World, w': World, m: MarketId, batch: seq<OutcomeReport>)
    requires WorldOk(cfg, w) && Step(cfg, w, Refund(m, batch), w')
    ensures Surplus(DisputeOf(w'.s, m)) == Surplus(DisputeOf(w.s, m))
  {
    var d := DisputeOf(w.s, m);
    assert DisputeOk(d, HistoryOf(w, m));
    hide DisputeOk, VoterOk, EntryOk, RefundAll, Surplus, Issued;
    RefundSurplus(d, HistoryOf(w, m), w.s.balances, batch);
    WithDisputeOf(w.s, m, RefundAll(d, w.s.balances, batch).0);
  }

  lemma {:induction false} AddSurplus(cfg: Config, w: World, w': World, who: AccountId, m: MarketId, o: OutcomeReport)
    requires WorldOk(cfg, w) && Step(cfg, w, AddOutcome(who, m, o), w')
    ensures Surplus(DisputeOf(w'.s, m)) == Surplus(DisputeOf(w.s, m))
  {
    AddFunds(cfg, w, w', who, m, o);
    hide WorldOk, FeeSum, UpdateWinner;
    FeeSumUpdate(DisputeOf(w.s, m).outcomes, o, OutcomeInfo(cfg.fee, Paid(who, cfg.fee)));
  }

  lemma {:induction false} VoteSurplus(cfg: Config, w: World, w': World, who: AccountId, m: MarketId, o: OutcomeReport, amount: Balance)
    requires Step(cfg, w, Vote(who, m, o, amount), w')
    ensures Surplus(DisputeOf(w'.s, m)) == Surplus(DisputeOf(w.s, m))
  {
    hide FeeSum, UpdateWinner;
    var d := DisputeOf(w.s, m);
    FeeSumUpdate(d.outcomes, o, d.outcomes[o].(sum := SatAdd(d.outcomes[o].sum, amount)));
  }

  lemma {:induction false} SharedFees(d: Dispute)
    requires AllShared(d)
    ensures FeeSum(d.outcomes) == 0
  {
    AllZero(Fees(d.outcomes));
  }

  lemma {:induction false} StartSurplus(cfg: Config, w: World, w': World, m: MarketId, items: seq<InitialItem>)
    requires WorldOk(cfg, w) && Step(cfg, w, Start(m, items), w')
    ensures Surplus(DisputeOf(w'.s, m)) == Surplus(DisputeOf(w.s, m))
  {
    assert DisputeOk(DisputeOf(w.s, m), HistoryOf(w, m));
    hide DisputeOk, VoterOk, EntryOk, StartItems, FeeSum;
    var d := DisputeOf(w.s, m);
    NoHistory(d, HistoryOf(w, m));
    NothingShared(d);
    StartItemsOk(cfg, w.s.markets[m], d, items);
    SharedFees(d);
    SharedFees(DisputeOf(w'.s, m));
  }

  lemma {:induction false} SurplusStep(cfg: Config, w: World, e: Event, w': World, m: MarketId)
    requires WorldOk(cfg, w) && Step(cfg, w, e, w') && !IsFinished(w.s, m)
    ensures Surplus(DisputeOf(w'.s, m)) == Surplus(DisputeOf(w.s, m)) + DonationIn(e, m)
  {
    hide WorldOk, FeeSum;
    if Concerned(e) != Some(m) {
      hide Step;
      OthersUntouched(cfg, w, e, w', m);
    } else {
      hide AfterVote, AfterAddOutcome, StartCall, AfterRefund, AfterPurge, AfterReward, AfterDonate, IsBatch, VoteError, AddOutcomeError, WinnerTaken;
      match e
      case Start(_, items) => StartSurplus(cfg, w, w', m, items);
      case AddOutcome(who, _, o) => AddSurplus(cfg, w, w', who, m, o);
      case Vote(who, _, o, amount) => VoteSurplus(cfg, w, w', who, m, o, amount);
      case Refund(_, batch) => RefundStepSurplus(cfg, w, w', m, batch);
      case Donate(who, _, amount) => DonateFunds(cfg, w, w', who, m, amount);
      case _ =>
    }
  }

  /** Until a dispute is finished, its reward account holds exactly the fees of the stored outcomes
      and all donations. */
  lemma {:induction false} EscrowTheorem(cfg: Config, ws: seq<World>, es: seq<Event>, i: nat, m: MarketId)
    requires Run(cfg, ws, es) && i < |ws| && !IsFinished(ws[i].s, m)
    ensures DisputeOf(ws[i].s, m).pot == FeeSum(DisputeOf(ws[i].s, m).outcomes) + Donated(es, i, m)
  {
    hide Step, WorldOk, DisputeOf, DonationIn, FeeSum, IsFinished;
    if i == 0 {
      NoFundsYet(ws[0], m);
    } else {
      if IsFinished(ws[i - 1].s, m) {
        FinishedStays(cfg, ws, es, i - 1, i, m);
      }
      EscrowTheorem(cfg, ws, es, i - 1, m);
      RunTheorem(cfg, ws, es, i - 1);
      assert Step(cfg, ws[i - 1], es[i - 1], ws[i]);
      SurplusStep(cfg, ws[i - 1], es[i - 1], ws[i], m);
    }
  }

  lemma {:induction false} NoFundsYet(w: World, m: MarketId)
    requires InitialWorld(w)
    ensures DisputeOf(w.s, m).pot == FeeSum(DisputeOf(w.s, m).outcomes) == 0
  {
    assert Fees(map[]) == map[];
  }

  // ---- Refunds ----

  /** A refund turns claims into balances, account by account. */
  lemma {:induction false} RefundStep(cfg: Config, w: World, w': World, m: MarketId, batch: seq<OutcomeReport>, a: AccountId)
    requires WorldOk(cfg, w) && Step(cfg, w, Refund(m, batch), w')
    ensures BalanceOf(w'.s.balances, a) + Claim(DisputeOf(w'.s, m).outcomes, a)
         == BalanceOf(w.s.balances, a) + Claim(DisputeOf(w.s, m).outcomes, a)
    ensures |DisputeOf(w'.s, m).outcomes| == SatSub(|DisputeOf(w.s, m).outcomes|, cfg.removeKeysLimit)
    ensures m in w'.s.infos && w'.s.infos[m].status.Destroyed?
  {
    var d := DisputeOf(w.s, m);
    assert DisputeOk(d, HistoryOf(w, m));
    hide DisputeOk, VoterOk, EntryOk, RefundAll, Claim;
    PotFits(w.s, m);
    RefundAllPays(d, HistoryOf(w, m), w.s.balances, batch, a);
    BatchSize(cfg, d.outcomes, batch);
    WithDisputeOf(w.s, m, RefundAll(d, w.s.balances, batch).0);
  }

  /** Nothing but a refund or finishing it touches what a destroyed dispute stores. */
  lemma {:induction false} DestroyedStays(cfg: Config, w: World, e: Event, w': World, m: MarketId)
    requires Step(cfg, w, e, w') && IsDestroyed(w.s, m) && !IsRefund(e, m) && e != Finish(m)
    ensures IsDestroyed(w'.s, m) && DisputeOf(w'.s, m).outcomes == DisputeOf(w.s, m).outcomes
    ensures DisputeOf(w'.s, m).info == DisputeOf(w.s, m).info && HistoryOf(w', m) == HistoryOf(w, m)
  {
    hide AfterVote, AfterAddOutcome, StartItems, AfterRefund, AfterPurge, AfterReward, IsBatch, Retained, MaxEntry;
    if Concerned(e) != Some(m) {
      hide Step;
      OthersUntouched(cfg, w, e, w', m);
      assert DisputeOf(w'.s, m).info == DisputeOf(w.s, m).info;
    }
  }

  lemma {:induction false} DrainStep(cfg: Config, w: World, e: Event, w': World, m: MarketId, a: AccountId)
    requires WorldOk(cfg, w) && Step(cfg, w, e, w') && IsDestroyed(w.s, m) && e != Finish(m)
    ensures IsDestroyed(w'.s, m)
    ensures var left, left' := DisputeOf(w.s, m).outcomes, DisputeOf(w'.s, m).outcomes;
            if IsRefund(e, m) then
              && BalanceOf(w'.s.balances, a) - BalanceOf(w.s.balances, a) + Claim(left', a) == Claim(left, a)
              && |left'| == SatSub(|left|, cfg.removeKeysLimit)
            else left' == left
  {
    hide Step, WorldOk, Claim;
    if IsRefund(e, m) {
      RefundStep(cfg, w, w', m, e.batch, a);
    } else {
      DestroyedStays(cfg, w, e, w', m);
    }
  }

  /** The refunds of `m` among the events from `i` to `j`. */
  function Refunds(es: seq<Event>, i: nat, j: nat, m: MarketId): nat
    requires i <= j <= |es|
    decreases j
  {
    if i == j then 0 else Refunds(es, i, j - 1, m) + if IsRefund(es[j - 1], m) then 1 else 0
  }

  /** What they pay to an account. */
  function Refunded(ws: seq<World>, es: seq<Event>, i: nat, j: nat, m: MarketId, a: AccountId): int
    requires i <= j <= |es| && |ws| == |es| + 1
    decreases j
  {
    if i == j then 0
    else Refunded(ws, es, i, j - 1, m, a)
         + if IsRefund(es[j - 1], m)
           then BalanceOf(ws[j].s.balances, a) - BalanceOf(ws[j - 1].s.balances, a) else 0
  }

  ghost predicate NeverFinished(es: seq<Event>, i: nat, j: nat, m: MarketId)
    requires j <= |es|
  {
    forall k :: i <= k < j ==> es[k] != Finish(m)
  }

  /** A destroyed dispute stays destroyed, and can be refunded, exactly as long as nobody finishes
      it. */
  lemma {:induction false} DestroyedIff(cfg: Config, ws: seq<World>, es: seq<Event>, i: nat, j: nat, m: MarketId)
    requires Run(cfg, ws, es) && i <= j < |ws| && IsDestroyed(ws[i].s, m)
    ensures IsDestroyed(ws[j].s, m) <==> NeverFinished(es, i, j, m)
    ensures RefundError(ws[j].s, m) == if NeverFinished(es, i, j, m) then None else Some(GlobalDisputeNotDestroyed)
    decreases j
  {
    hide Step, WorldOk;
    if i < j {
      var k := j - 1;
      DestroyedIff(cfg, ws, es, i, k, m);
      assert Step(cfg, ws[k], es[k], ws[j]);
      RunTheorem(cfg, ws, es, k);
      if IsDestroyed(ws[k].s, m) {
        OnlyFinishFinishes(cfg, ws[k], es[k], ws[j], m);
        if es[k] != Finish(m) {
          hide Claim;
          DrainStep(cfg, ws[k], es[k], ws[j], m, 0);
        }
      } else {
        FinishedEarlier(cfg, ws, es, i, k, m);
        FinishedStays(cfg, ws, es, k, j, m);
      }
    }
  }

  /** What was destroyed and is not any more, is finished. */
  lemma {:induction false} FinishedEarlier(cfg: Config, ws: seq<World>, es: seq<Event>, i: nat, j: nat, m: MarketId)
    requires Run(cfg, ws, es) && i <= j < |ws| && IsDestroyed(ws[i].s, m) && !IsDestroyed(ws[j].s, m)
    ensures IsFinished(ws[j].s, m)
    decreases j
  {
    hide Step, WorldOk, Claim;
    var k := j - 1;
    assert Step(cfg, ws[k], es[k], ws[j]);
    if IsDestroyed(ws[k].s, m) {
      RunTheorem(cfg, ws, es, k);
      if es[k] != Finish(m) {
        DrainStep(cfg, ws[k], es[k], ws[j], m, 0);
      }
      OnlyFinishFinishes(cfg, ws[k], es[k], ws[j], m);
    } else {
      FinishedEarlier(cfg, ws, es, i, k, m);
      FinishedStays(cfg, ws, es, k, j, m);
    }
  }

  ghost predicate Drained(cfg: Config, ws: seq<World>, es: seq<Event>, i: nat, j: nat, m: MarketId, a: AccountId)
    requires i <= j <= |es| && |ws| == |es| + 1
  {
    var before, left := DisputeOf(ws[i].s, m).outcomes, DisputeOf(ws[j].s, m).outcomes;
    && Refunded(ws, es, i, j, m, a) + Claim(left, a) == Claim(before, a)
    && |left| == SatSub(|before|, Times(Refunds(es, i, j, m), cfg.removeKeysLimit))
  }

  lemma {:induction false} RefundsDrain(cfg: Config, ws: seq<World>, es: seq<Event>, i: nat, j: nat, m: MarketId, a: AccountId)
    requires Run(cfg, ws, es) && i <= j < |ws| && IsDestroyed(ws[i].s, m) && NeverFinished(es, i, j, m)
    ensures IsDestroyed(ws[j].s, m) && Drained(cfg, ws, es, i, j, m, a)
    decreases j
  {
    hide Step, WorldOk, Claim, DisputeOf, IsRefund, IsDestroyed;
    if i < j {
      RefundsDrain(cfg, ws, es, i, j - 1, m, a);
      RunTheorem(cfg, ws, es, j - 1);
      assert Step(cfg, ws[j - 1], es[j - 1], ws[j]);
      DrainStep(cfg, ws[j - 1], es[j - 1], ws[j], m, a);
    }
  }

  /** A destroyed dispute stays destroyed, and can be refunded, exactly as long as nobody finishes
      it. Until then, and whatever else happens in between, its refunds pay everybody back exactly
      the fees they had paid for the removed outcomes. After enough of them no outcome is left:
      everybody has got back all of their fees, and only donations remain. */
  lemma {:induction false} RefundTheorem(cfg: Config, ws: seq<World>, es: seq<Event>, i: nat, j: nat, m: MarketId, a: AccountId)
    requires Run(cfg, ws, es) && i <= j < |ws| && IsDestroyed(ws[i].s, m)
    ensures IsDestroyed(ws[j].s, m) <==> NeverFinished(es, i, j, m)
    ensures RefundError(ws[j].s, m) == if NeverFinished(es, i, j, m) then None else Some(GlobalDisputeNotDestroyed)
    ensures NeverFinished(es, i, j, m) ==> Drained(cfg, ws, es, i, j, m, a)
    ensures NeverFinished(es, i, j, m) && DisputeOf(ws[j].s, m).outcomes == map[] ==>
              && DisputeOf(ws[j].s, m).pot == Donated(es, j, m)
              && Refunded(ws, es, i, j, m, a) == Claim(DisputeOf(ws[i].s, m).outcomes, a)
  {
    hide Step, Claim, DisputeOf, Donated, Refunded, Refunds;
    DestroyedIff(cfg, ws, es, i, j, m);
    if NeverFinished(es, i, j, m) {
      RefundsDrain(cfg, ws, es, i, j, m, a);
      EscrowTheorem(cfg, ws, es, j, m);
      NoClaim(a);
      assert Fees(map[]) == map[];
    }
  }

  // ---- The payout ----

  lemma {:induction false} NothingPaidBack(ws: seq<World>, es: seq<Event>, i: nat, m: MarketId)
    requires i <= |es| && |ws| == |es| + 1 && Refunds(es, 0, i, m) == 0
    ensures PaidBack(ws, es, i, m) == 0
  {
    if 0 < i {
      NothingPaidBack(ws, es, i - 1, m);
    }
  }

  /** A dispute that is neither finished nor active was active just before, or was destroyed then. */
  lemma {:induction false} DestroyedBefore(cfg: Config, w: World, e: Event, w': World, m: MarketId)
    requires Step(cfg, w, e, w') && IsDestroyed(w'.s, m) && !IsDestroyed(w.s, m)
    ensures IsActive(DisputeOf(w.s, m)) && DisputeOf(w'.s, m).outcomes == DisputeOf(w.s, m).outcomes
    ensures HistoryOf(w', m) == HistoryOf(w, m)
  {
    hide StartItems, RefundAll, IsBatch, Retained, MaxEntry, AfterPurge, AfterReward;
    if Concerned(e) != Some(m) {
      hide Step;
      OthersUntouched(cfg, w, e, w', m);
      OtherInfos(w.s, w'.s, m);
    } else if IsFinished(w.s, m) {
      FinishedStep(cfg, w.s, e, w'.s, m);
    }
  }

  /** Until it is refunded or finished, a dispute stores all outcomes of its history. */
  lemma {:induction false} StoredUntilRefund(cfg: Config, ws: seq<World>, es: seq<Event>, i: nat, m: MarketId)
    requires Run(cfg, ws, es) && i < |ws| && m in ws[i].s.infos && !IsFinished(ws[i].s, m) && Refunds(es, 0, i, m) == 0
    ensures AllStored(DisputeOf(ws[i].s, m).outcomes, HistoryOf(ws[i], m))
  {
    hide Step, CacheOk, SumsOk, AllStored, AllOwned, PotOk, VoterOk, EntryOk, Issued;
    if IsDestroyed(ws[i].s, m) {
      if i == 0 {
        assert false;
      }
      assert Step(cfg, ws[i - 1], es[i - 1], ws[i]);
      if IsDestroyed(ws[i - 1].s, m) {
        StoredUntilRefund(cfg, ws, es, i - 1, m);
        OnlyFinishFinishes(cfg, ws[i - 1], es[i - 1], ws[i], m);
        DestroyedStays(cfg, ws[i - 1], es[i - 1], ws[i], m);
      } else {
        DestroyedBefore(cfg, ws[i - 1], es[i - 1], ws[i], m);
        RunTheorem(cfg, ws, es, i - 1);
        assert DisputeOk(DisputeOf(ws[i - 1].s, m), HistoryOf(ws[i - 1], m));
      }
    } else {
      RunTheorem(cfg, ws, es, i);
      assert DisputeOk(DisputeOf(ws[i].s, m), HistoryOf(ws[i], m));
    }
  }

  /** After it is finished, only donations change the reward account, up to the payout. */
  lemma {:induction false} FinishedFunds(cfg: Config, w: World, e: Event, w': World, m: MarketId)
    requires WorldOk(cfg, w) && Step(cfg, w, e, w') && e != Reward(m) && (IsFinished(w.s, m) || e == Finish(m))
    ensures DisputeOf(w'.s, m).pot == DisputeOf(w.s, m).pot + DonationIn(e, m)
    ensures HistoryOf(w', m) == HistoryOf(w, m)
  {
    hide WorldOk;
    if Concerned(e) != Some(m) {
      hide Step;
      OthersUntouched(cfg, w, e, w', m);
    } else {
      hide AfterVote, AfterAddOutcome, StartItems, AfterRefund, AfterPurge, AfterReward, AfterDonate, IsBatch, WinnerTaken;
      match e
      case Purge(_, batch) => PurgeFunds(cfg, w, w', m, batch);
      case Donate(who, _, amount) => DonateFunds(cfg, w, w', who, m, amount);
      case _ =>
    }
  }

  lemma {:induction false} FundsAfterFinish(cfg: Config, ws: seq<World>, es: seq<Event>, f: nat, i: nat, m: MarketId)
    requires Run(cfg, ws, es) && f < i < |ws| && es[f] == Finish(m) && IsFinished(ws[f + 1].s, m)
    requires forall k :: 0 <= k < i ==> es[k] != Reward(m)
    ensures DisputeOf(ws[i].s, m).pot - Donated(es, i, m) == DisputeOf(ws[f].s, m).pot - Donated(es, f, m)
    ensures HistoryOf(ws[i], m) == HistoryOf(ws[f], m)
    decreases i
  {
    hide Step, WorldOk, DisputeOf, HistoryOf, DonationIn;
    if f + 1 < i {
      FundsAfterFinish(cfg, ws, es, f, i - 1, m);
      FinishedStays(cfg, ws, es, f + 1, i - 1, m);
    }
    RunTheorem(cfg, ws, es, i - 1);
    assert Step(cfg, ws[i - 1], es[i - 1], ws[i]);
    FinishedFunds(cfg, ws[i - 1], es[i - 1], ws[i], m);
  }

  /** `gain` is what an account gets when `fees` go to whoever `p` names. */
  ghost predicate PaysOut(p: Possession, fees: nat, a: AccountId, gain: int) {
    match p
    case Paid(owner, _) => gain == if a == owner then fees else 0
    case Shared(owners) => owners != [] && gain == multiset(owners)[a] * (fees / |owners|)
  }

  /** The payout in the state in which it happens: the whole reward account goes to the saved
      possession. */
  lemma {:induction false} RewardGains(cfg: Config, w: World, w': World, m: MarketId, a: AccountId)
    requires WorldOk(cfg, w) && Step(cfg, w, Reward(m), w')
    ensures IsFinished(w.s, m)
    ensures PaysOut(WinnerPossession(DisputeOf(w.s, m)), DisputeOf(w.s, m).pot, a, BalanceOf(w'.s.balances, a) - BalanceOf(w.s.balances, a))
  {
    assert DisputeOk(DisputeOf(w.s, m), HistoryOf(w, m));
    PossessionOwned(DisputeOf(w.s, m), HistoryOf(w, m));
    PossessionSaved(DisputeOf(w.s, m));
    hide DisputeOk, VoterOk, EntryOk, AfterReward, Issued, WinnerPossession;
    RewardPays(w.s, m, a);
    if w.s.infos[m].outcomeInfo.possession.Shared? {
      var owners := w.s.infos[m].outcomeInfo.possession.owners;
      var listed: multiset<AccountId> := multiset(owners);
      TimesIsProduct(listed[a], Part(DisputeOf(w.s, m).pot, |owners|));
    }
  }

  lemma {:induction false} FinishKeepsPossession(cfg: Config, w: World, w': World, m: MarketId)
    requires Step(cfg, w, Finish(m), w')
    ensures m in w.s.infos && IsFinished(w'.s, m) && WinnerPossession(DisputeOf(w'.s, m)) == WinnerPossession(DisputeOf(w.s, m))
  {
  }

  /** The first payout, told from the state `ws[f]` in which the dispute was finished: the fees of the
      outcomes stored then, and all donations, go to whoever the leader of all contributions belonged
      to then. These are all fees ever paid but for what refunds have paid back; without refunds
      they are all fees, and the leader was stored. */
  lemma {:induction false} RewardTheorem(cfg: Config, ws: seq<World>, es: seq<Event>, i: nat, m: MarketId, a: AccountId) returns (f: nat)
    requires Run(cfg, ws, es) && i < |es| && es[i] == Reward(m) && forall k :: 0 <= k < i ==> es[k] != Reward(m)
    ensures f < i && es[f] == Finish(m) && m in ws[f].s.infos && !IsFinished(ws[f].s, m)
    ensures HistoryOf(ws[i], m) == HistoryOf(ws[f], m) && Leads(HistoryOf(ws[f], m), ws[f].s.infos[m].winner)
    ensures var d := DisputeOf(ws[f].s, m);
            && PaysOut(WinnerPossession(d), FeeSum(d.outcomes) + Donated(es, i, m), a,
                       BalanceOf(ws[i + 1].s.balances, a) - BalanceOf(ws[i].s.balances, a))
            && FeeSum(d.outcomes) + PaidBack(ws, es, f, m) == FeeAmount(HistoryOf(ws[f], m))
            && (Refunds(es, 0, f, m) == 0 ==> ws[f].s.infos[m].winner in d.outcomes && PaidBack(ws, es, f, m) == 0)
  {
    hide Step, WorldOk, Leads, FeeSum, FeeAmount, PaysOut, WinnerPossession, Donated, PaidBack, DisputeOf;
    assert Step(cfg, ws[i], es[i], ws[i + 1]);
    RunTheorem(cfg, ws, es, i);
    RewardGains(cfg, ws[i], ws[i + 1], m, a);
    f := FinishedAt(cfg, ws, es, i, m);
    assert Step(cfg, ws[f], es[f], ws[f + 1]);
    FinishKeepsPossession(cfg, ws[f], ws[f + 1], m);
    PossessionTheorem(cfg, ws, es, f + 1, i, m);
    FundsAfterFinish(cfg, ws, es, f, i, m);
    EscrowTheorem(cfg, ws, es, f, m);
    FundTheorem(cfg, ws, es, f, m);
    LeaderAt(cfg, ws, es, f, m);
    if Refunds(es, 0, f, m) == 0 {
      NothingPaidBack(ws, es, f, m);
      StoredUntilRefund(cfg, ws, es, f, m);
    }
  }

  lemma {:induction false} LeaderAt(cfg: Config, ws: seq<World>, es: seq<Event>, i: nat, m: MarketId)
    requires Run(cfg, ws, es) && i < |ws| && m in ws[i].s.infos
    ensures Leads(HistoryOf(ws[i], m), ws[i].s.infos[m].winner)
    ensures AllStored(DisputeOf(ws[i].s, m).outcomes, HistoryOf(ws[i], m)) ==>
              ws[i].s.infos[m].winner in DisputeOf(ws[i].s, m).outcomes
  {
    hide Step, Score;
    WinnerTheorem(cfg, ws, es, i, m);
  }

  // ---- What is saved of the first item ----

  /** Until a dispute is finished, the possession in its info is that of the very first item. */
  lemma {:induction false} StartSaves(cfg: Config, market: Market, d: Dispute, items: seq<InitialItem>)
    requires d.info.None? && d.outcomes == map[] && StartItems(cfg, market, d, items).Ok?
    ensures var r := StartItems(cfg, market, d, items).value;
            if items == [] then r == d
            else r.info.Some? && r.info.value.outcomeInfo.possession == Shared([items[0].owner])
  {
    if items != [] {
      StartSaves(cfg, market, d, items[..|items| - 1]);
    }
  }

  lemma {:induction false} SavedStays(cfg: Config, w: World, e: Event, w': World, m: MarketId)
    requires Step(cfg, w, e, w') && m in w.s.infos && !IsFinished(w.s, m)
    ensures m in w'.s.infos && w'.s.infos[m].outcomeInfo.possession == w.s.infos[m].outcomeInfo.possession
  {
    hide StartItems, RefundAll, IsBatch, Retained, MaxEntry, AfterPurge, AfterReward;
    if Concerned(e) != Some(m) {
      hide Step;
      OthersUntouched(cfg, w, e, w', m);
      assert DisputeOf(w'.s, m).info == DisputeOf(w.s, m).info;
    }
  }

  /** So if the leader is no longer stored when a destroyed dispute is finished, the owner of the
      first initial item is paid. */
  lemma {:induction false} FirstItemTheorem(cfg: Config, ws: seq<World>, es: seq<Event>, k: nat, i: nat, m: MarketId)
    requires Run(cfg, ws, es) && k < i < |ws| && es[k].Start? && es[k].m == m && !IsFinished(ws[i].s, m)
    ensures m in ws[i].s.infos && es[k].items != []
    ensures ws[i].s.infos[m].outcomeInfo.possession == Shared([es[k].items[0].owner])
    ensures ws[i].s.infos[m].winner !in DisputeOf(ws[i].s, m).outcomes ==>
              WinnerPossession(DisputeOf(ws[i].s, m)) == Shared([es[k].items[0].owner])
    decreases i
  {
    hide Step, WorldOk;
    assert Step(cfg, ws[i - 1], es[i - 1], ws[i]);
    if k + 1 < i {
      if IsFinished(ws[i - 1].s, m) {
        FinishedStays(cfg, ws, es, i - 1, i, m);
      }
      FirstItemTheorem(cfg, ws, es, k, i - 1, m);
      SavedStays(cfg, ws[i - 1], es[i - 1], ws[i], m);
    } else {
      RunTheorem(cfg, ws, es, k);
      StartSavesFirst(cfg, ws[k], ws[i], m, es[k].items);
    }
  }

  lemma {:induction false} StartSavesFirst(cfg: Config, w: World, w': World, m: MarketId, items: seq<InitialItem>)
    requires WorldOk(cfg, w) && Step(cfg, w, Start(m, items), w')
    ensures m in w'.s.infos && items != [] && w'.s.infos[m].outcomeInfo.possession == Shared([items[0].owner])
  {
    assert DisputeOk(DisputeOf(w.s, m), HistoryOf(w, m));
    hide StartItems, VoterOk, EntryOk, CacheOk, SumsOk, AllStored, AllOwned, PotOk, Issued;
    StartSaves(cfg, w.s.markets[m], DisputeOf(w.s, m), items);
  }
}
