/** Global disputes over whole runs: when outcomes can be added and votes cast, what the status and the
    possessions go back to, and what unlocking and purging leave. */
module GdTimeline {
  import opened Numbers
  import opened Ordered
  import opened Ledger
  import opened GlobalDisputes
  import opened GdHistory
  import opened GdSteps
  import opened GdVoters
  import opened GdEscrow
  import opened GdRuns
  import opened GdFunds

  // ---- Unlocking ----

  lemma {:induction false} ActiveIff(s: Storage, m: MarketId)
    ensures Unresolved(s.infos, m) <==> IsActive(DisputeOf(s, m))
  {
  }

  lemma {:induction false} UnlockedEntry(s: Storage, a: AccountId, m: MarketId)
    requires Ascending(LocksOf(s, a))
    ensures EntryFor(LocksOf(AfterUnlock(s, a), a), m) == if IsActive(DisputeOf(s, m)) then EntryFor(LocksOf(s, a), m) else 0
    ensures !IsActive(DisputeOf(s, m)) ==> Get(LocksOf(AfterUnlock(s, a), a), m) == None
  {
    hide Retained, MaxEntry, DisputeOf;
    ActiveIff(s, m);
    var list := LocksOf(s, a);
    if Unresolved(s.infos, m) {
      RetainedEntry(s.infos, list, m);
    } else {
      RetainedFrom(s.infos, list);
      var kept := Retained(s.infos, list);
      if Get(kept, m).Some? {
        GetIn(kept, m);
        RetainedIn(s.infos, list, (m, Get(kept, m).value));
      }
    }
  }

  /** After unlocking, every vote on an active dispute is still locked, nothing else is, and the currency lock is
      the largest of these votes: a voter without a vote on an active dispute has no lock. */
  lemma {:induction false} UnlockTheorem(cfg: Config, ws: seq<World>, es: seq<Event>, i: nat, a: AccountId, m: MarketId)
    requires Run(cfg, ws, es) && i < |es| && es[i] == Unlock(a)
    ensures EntryFor(LocksOf(ws[i + 1].s, a), m)
         == if IsActive(DisputeOf(ws[i].s, m)) then Min(Voted(HistoryOf(ws[i], m), a), U128_MAX) else 0
    ensures IsActive(DisputeOf(ws[i].s, m)) ==> EntryFor(LocksOf(ws[i].s, a), m) == EntryFor(LocksOf(ws[i + 1].s, a), m)
    ensures IsActive(DisputeOf(ws[i].s, m)) ==> Min(Voted(HistoryOf(ws[i], m), a), U128_MAX) <= CurrencyLockOf(ws[i + 1].s, a)
    ensures CurrencyLockOf(ws[i + 1].s, a) == 0
            || exists k :: VotedOn(ws[i], a, k) && CurrencyLockOf(ws[i + 1].s, a) == Min(Voted(HistoryOf(ws[i], k), a), U128_MAX)
  {
    assert ws[i + 1].s == AfterUnlock(ws[i].s, a) by {
      assert Step(cfg, ws[i], es[i], ws[i + 1]);
    }
    hide Step, AfterUnlock, Voted;
    LockTheorem(cfg, ws, es, i, a, m);
    LockTheorem(cfg, ws, es, i + 1, a, m);
    UnlockedEntry(ws[i].s, a, m);
    var list := LocksOf(ws[i + 1].s, a);
    EntryWithin(list, m);
    MaxEntryBounds(list);
    if CurrencyLockOf(ws[i + 1].s, a) != 0 {
      var t :| 0 <= t < |list| && list[t].1 == MaxEntry(list);
      GetAt(list, t);
      UnlockedEntry(ws[i].s, a, list[t].0);
      LockTheorem(cfg, ws, es, i, a, list[t].0);
      assert VotedOn(ws[i], a, list[t].0);
    }
  }

  /** The account has put something on the active dispute. */
  ghost predicate VotedOn(w: World, a: AccountId, m: MarketId) {
    IsActive(DisputeOf(w.s, m)) && 0 < Voted(HistoryOf(w, m), a)
  }

  // ---- The status ----

  predicate IsStart(e: Event, m: MarketId) { e.Start? && e.m == m }

  lemma {:induction false} StartSets(cfg: Config, w: World, e: Event, w': World, m: MarketId)
    requires Step(cfg, w, e, w') && IsStart(e, m)
    ensures m !in w.s.infos && m in w'.s.infos && w'.s.now == w.s.now
    ensures w'.s.infos[m].status
         == Active(SatAddBlock(w.s.now, cfg.addOutcomePeriod),
                   SatAddBlock(SatAddBlock(w.s.now, cfg.addOutcomePeriod), cfg.votingPeriod))
  {
    hide StartItems;
  }

  lemma {:induction false} NotStarted(cfg: Config, w: World, e: Event, w': World, m: MarketId)
    requires Step(cfg, w, e, w') && !IsStart(e, m) && m !in w.s.infos
    ensures m !in w'.s.infos
  {
    hide StartItems, UpdateWinner, RefundAll, IsBatch, Retained, MaxEntry, AfterPurge, AfterReward;
    if Concerned(e) != Some(m) {
      hide Step;
      OthersUntouched(cfg, w, e, w', m);
      OtherInfos(w.s, w'.s, m);
    }
  }

  /** The status changes only by finishing, whatever it was, and by destroying while it is active. */
  lemma {:induction false} StatusStep(cfg: Config, w: World, e: Event, w': World, m: MarketId)
    requires Step(cfg, w, e, w') && m in w.s.infos
    ensures m in w'.s.infos && !IsStart(e, m)
    ensures w'.s.infos[m].status
         == if e == Finish(m) then Finished
            else if e == Destroy(m) && w.s.infos[m].status.Active? then Destroyed
            else w.s.infos[m].status
  {
    hide StartItems, RefundAll, IsBatch, Retained, MaxEntry, AfterReward, AfterPurge;
    if Concerned(e) != Some(m) {
      hide Step;
      OthersUntouched(cfg, w, e, w', m);
      assert DisputeOf(w'.s, m).info == DisputeOf(w.s, m).info;
    } else if e.Purge? {
      PurgeStatus(cfg, w.s, m, e.batch);
    } else if e.Reward? {
      RewardStatus(w.s, m);
    }
  }

  lemma {:induction false} PurgeStatus(cfg: Config, s: Storage, m: MarketId, batch: seq<OutcomeReport>)
    requires m in s.infos && IsBatch(cfg, WinnerTaken(DisputeOf(s, m)).outcomes, batch)
    ensures m in AfterPurge(cfg, s, m, batch).infos && AfterPurge(cfg, s, m, batch).infos[m].status == s.infos[m].status
  {
    hide IsBatch;
  }

  lemma {:induction false} RewardStatus(s: Storage, m: MarketId)
    requires m in s.infos
    ensures AfterReward(s, m).infos == s.infos
  {
    hide PayEach, Part, Rest, Deposit;
  }

  /** A dispute was started once. Its status says what has happened since: it is active until it is finished or
      destroyed; finished if it ever was; destroyed if that came first. While it is active, outcomes can be added
      until the end of the first period after the start, and votes cast in the second. */
  lemma {:induction false} StatusTheorem(cfg: Config, ws: seq<World>, es: seq<Event>, i: nat, m: MarketId) returns (k: nat)
    requires Run(cfg, ws, es) && i < |ws| && m in ws[i].s.infos
    ensures k < i && IsStart(es[k], m) && (forall u :: k < u < i ==> !IsStart(es[u], m)) && ws[k].s.now <= ws[i].s.now
    ensures match ws[i].s.infos[m].status
            case Active(addOutcomeEnd, voteEnd) =>
              && (forall u :: k < u < i ==> es[u] != Finish(m) && es[u] != Destroy(m))
              && addOutcomeEnd == SatAddBlock(ws[k].s.now, cfg.addOutcomePeriod)
              && voteEnd == SatAddBlock(addOutcomeEnd, cfg.votingPeriod)
            case Finished => exists u :: k < u < i && es[u] == Finish(m)
            case Destroyed =>
              (forall u :: k < u < i ==> es[u] != Finish(m)) && exists u :: k < u < i && es[u] == Destroy(m)
  {
    hide Step;
    if i == 0 {
      assert false;
    }
    var w, e := ws[i - 1], es[i - 1];
    assert Step(cfg, w, e, ws[i]);
    TimePasses(cfg, w, e, ws[i]);
    if m in w.s.infos {
      StatusStep(cfg, w, e, ws[i], m);
      k := StatusTheorem(cfg, ws, es, i - 1, m);
    } else if IsStart(e, m) {
      StartSets(cfg, w, e, ws[i], m);
      k := i - 1;
    } else {
      NotStarted(cfg, w, e, ws[i], m);
    }
  }

  lemma {:induction false} TimePasses(cfg: Config, w: World, e: Event, w': World)
    requires Step(cfg, w, e, w')
    ensures w.s.now <= w'.s.now
  {
    hide StartItems, UpdateWinner, RefundAll, IsBatch, Retained, MaxEntry, WinnerTaken, PayEach;
  }

  /** When an outcome is added: not later than the first period after the start of the dispute. */
  lemma {:induction false} AddWindow(cfg: Config, ws: seq<World>, es: seq<Event>, i: nat, m: MarketId) returns (k: nat)
    requires Run(cfg, ws, es) && i < |es| && es[i].AddOutcome? && es[i].m == m
    ensures k < i && IsStart(es[k], m) && ws[k].s.now <= ws[i].s.now <= SatAddBlock(ws[k].s.now, cfg.addOutcomePeriod)
    ensures m in ws[i].s.markets && ws[i].s.markets[m].Matches(es[i].o) && es[i].o !in DisputeOf(ws[i].s, m).outcomes
    ensures cfg.fee + CurrencyLockOf(ws[i].s, es[i].who) <= BalanceOf(ws[i].s.balances, es[i].who)
    ensures BalanceOf(ws[i + 1].s.balances, es[i].who) + cfg.fee == BalanceOf(ws[i].s.balances, es[i].who)
  {
    hide AfterVote, UpdateWinner, StartItems;
    assert Step(cfg, ws[i], es[i], ws[i + 1]);
    k := StatusTheorem(cfg, ws, es, i, m);
  }

  /** When a vote is cast: in the second period after the start, on a stored outcome, with at least the smallest
      amount, and backed by the balance together with the earlier votes on the dispute. */
  lemma {:induction false} VoteWindow(cfg: Config, ws: seq<World>, es: seq<Event>, i: nat, m: MarketId) returns (k: nat)
    requires Run(cfg, ws, es) && i < |es| && es[i].Vote? && es[i].m == m
    ensures k < i && IsStart(es[k], m)
    ensures InVotePeriod(cfg, ws[k].s.now, ws[i].s.now)
    ensures es[i].o in DisputeOf(ws[i].s, m).outcomes && cfg.minVote <= es[i].amount
    ensures EntryFor(LocksOf(ws[i + 1].s, es[i].who), m)
         == SatAdd(es[i].amount, EntryFor(LocksOf(ws[i].s, es[i].who), m)) <= BalanceOf(ws[i].s.balances, es[i].who)
  {
    hide AfterAddOutcome, UpdateWinner, StartItems, Put;
    assert Step(cfg, ws[i], es[i], ws[i + 1]);
    k := StatusTheorem(cfg, ws, es, i, m);
    LockTheorem(cfg, ws, es, i, es[i].who, m);
    PutGet(LocksOf(ws[i].s, es[i].who), m, SatAdd(es[i].amount, EntryFor(LocksOf(ws[i].s, es[i].who), m)), m);
  }

  /** Conversely, an outcome can be added exactly then. */
  lemma {:induction false} AddIff(cfg: Config, ws: seq<World>, es: seq<Event>, i: nat, m: MarketId, who: AccountId, o: OutcomeReport)
    requires Run(cfg, ws, es) && i < |ws| && m in ws[i].s.infos
    ensures AddOutcomeError(cfg, ws[i].s, who, m, o).None? <==>
              && IsActive(DisputeOf(ws[i].s, m))
              && (exists k :: 0 <= k < i && IsStart(es[k], m) && ws[i].s.now <= SatAddBlock(ws[k].s.now, cfg.addOutcomePeriod))
              && m in ws[i].s.markets && ws[i].s.markets[m].Matches(o) && o !in DisputeOf(ws[i].s, m).outcomes
              && cfg.fee + CurrencyLockOf(ws[i].s, who) <= BalanceOf(ws[i].s.balances, who)
  {
    hide Step;
    var k := StatusTheorem(cfg, ws, es, i, m);
    forall u | 0 <= u < i && IsStart(es[u], m)
      ensures u == k
    {
      StartedOnce(cfg, ws, es, u, k, i, m);
    }
  }

  /** And a vote can be cast exactly then, unless the voter has too many votes on other disputes. */
  lemma {:induction false} VoteIff(cfg: Config, ws: seq<World>, es: seq<Event>, i: nat, m: MarketId, who: AccountId, o: OutcomeReport, amount: Balance)
    requires Run(cfg, ws, es) && i < |ws| && m in ws[i].s.infos
    ensures var list := LocksOf(ws[i].s, who);
            VoteError(cfg, ws[i].s, who, m, o, amount).None? <==>
              && IsActive(DisputeOf(ws[i].s, m))
              && (exists k :: 0 <= k < i && IsStart(es[k], m) && InVotePeriod(cfg, ws[k].s.now, ws[i].s.now))
              && o in DisputeOf(ws[i].s, m).outcomes && cfg.minVote <= amount
              && SatAdd(amount, EntryFor(list, m)) <= BalanceOf(ws[i].s.balances, who)
              && ((exists t :: 0 <= t < |list| && list[t].0 == m) || |list| < cfg.maxVotes)
  {
    hide Step;
    var k := StatusTheorem(cfg, ws, es, i, m);
    forall u | 0 <= u < i && IsStart(es[u], m)
      ensures u == k
    {
      StartedOnce(cfg, ws, es, u, k, i, m);
    }
    LockTheorem(cfg, ws, es, i, who, m);
    var list := LocksOf(ws[i].s, who);
    if t :| 0 <= t < |list| && list[t].0 == m {
      GetAt(list, t);
    }
    if Get(list, m).Some? {
      assert list[Position(list, m)].0 == m;
    }
  }

  /** The second period after a start. */
  predicate InVotePeriod(cfg: Config, start: BlockNumber, now: BlockNumber) {
    var addOutcomeEnd := SatAddBlock(start, cfg.addOutcomePeriod);
    addOutcomeEnd < now <= SatAddBlock(addOutcomeEnd, cfg.votingPeriod)
  }

  lemma {:induction false} StartedOnce(cfg: Config, ws: seq<World>, es: seq<Event>, u: nat, k: nat, i: nat, m: MarketId)
    requires Run(cfg, ws, es) && u < i < |ws| && k < i && IsStart(es[u], m) && IsStart(es[k], m)
    requires forall t :: k < t < i ==> !IsStart(es[t], m)
    ensures u == k
  {
    hide Step;
    if u < k {
      assert Step(cfg, ws[u], es[u], ws[u + 1]) && Step(cfg, ws[k], es[k], ws[k + 1]);
      StartSets(cfg, ws[u], es[u], ws[u + 1], m);
      StartSets(cfg, ws[k], es[k], ws[k + 1], m);
      InfoStays(cfg, ws, es, u + 1, k, m);
    }
  }

  lemma {:induction false} InfoStays(cfg: Config, ws: seq<World>, es: seq<Event>, t: nat, i: nat, m: MarketId)
    requires Run(cfg, ws, es) && t <= i < |ws| && m in ws[t].s.infos
    ensures m in ws[i].s.infos
    decreases i
  {
    hide Step;
    if t < i {
      InfoStays(cfg, ws, es, t, i - 1, m);
      assert Step(cfg, ws[i - 1], es[i - 1], ws[i]);
      StatusStep(cfg, ws[i - 1], es[i - 1], ws[i], m);
    }
  }

  // ---- Possessions ----

  /** The owners of the initial items for an outcome, in the order of the items. */
  function OwnersOf(items: seq<InitialItem>, o: OutcomeReport): seq<AccountId> {
    if items == [] then []
    else
      var last := items[|items| - 1];
      OwnersOf(items[..|items| - 1], o) + if last.outcome == o then [last.owner] else []
  }

  lemma {:induction false} StartOwners(cfg: Config, market: Market, d: Dispute, items: seq<InitialItem>, o: OutcomeReport)
    requires d.outcomes == map[] && StartItems(cfg, market, d, items).Ok?
    ensures var outcomes := StartItems(cfg, market, d, items).value.outcomes;
            if OwnersOf(items, o) == [] then o !in outcomes
            else o in outcomes && outcomes[o].possession == Shared(OwnersOf(items, o))
  {
    hide UpdateWinner;
    if items != [] {
      StartOwners(cfg, market, d, items[..|items| - 1], o);
      StartOwners(cfg, market, d, items[..|items| - 1], items[|items| - 1].outcome);
    }
  }

  /** What a possession goes back to. */
  ghost predicate PossessedBy(cfg: Config, es: seq<Event>, i: nat, m: MarketId, o: OutcomeReport, p: Possession)
    requires i <= |es|
  {
    match p
    case Paid(owner, fee) => fee == cfg.fee && exists t :: 0 <= t < i && es[t] == AddOutcome(owner, m, o)
    case Shared(owners) => exists t :: 0 <= t < i && IsStart(es[t], m) && owners == OwnersOf(es[t].items, o)
  }

  /** How the records of outcomes move in a step. */
  ghost predicate RecordMoves(cfg: Config, w: World, e: Event, w': World, m: MarketId, o: OutcomeReport)
    requires o in DisputeOf(w'.s, m).outcomes
  {
    var p := DisputeOf(w'.s, m).outcomes[o].possession;
    || (o in DisputeOf(w.s, m).outcomes && p == DisputeOf(w.s, m).outcomes[o].possession)
    || (p.Paid? && p.fee == cfg.fee && e == AddOutcome(p.owner, m, o))
    || (p.Shared? && IsStart(e, m) && p.owners == OwnersOf(e.items, o))
  }

  lemma {:induction false} StartRecords(cfg: Config, w: World, e: Event, w': World, m: MarketId, o: OutcomeReport)
    requires WorldOk(cfg, w) && Step(cfg, w, e, w') && IsStart(e, m) && o in DisputeOf(w'.s, m).outcomes
    ensures RecordMoves(cfg, w, e, w', m, o)
  {
    assert DisputeOk(DisputeOf(w.s, m), HistoryOf(w, m));
    hide StartItems, VoterOk, EntryOk, CacheOk, SumsOk, AllStored, AllOwned, PotOk, Issued, OwnersOf;
    StartOwners(cfg, w.s.markets[m], DisputeOf(w.s, m), e.items, o);
  }

  lemma {:induction false} CallRecords(cfg: Config, w: World, e: Event, w': World, m: MarketId, o: OutcomeReport)
    requires Step(cfg, w, e, w') && (e.AddOutcome? || e.Vote?) && e.m == m && o in DisputeOf(w'.s, m).outcomes
    ensures RecordMoves(cfg, w, e, w', m, o)
  {
    hide UpdateWinner, OwnersOf, Put;
  }

  lemma {:induction false} EndRecords(cfg: Config, w: World, e: Event, w': World, m: MarketId, o: OutcomeReport)
    requires Step(cfg, w, e, w') && Concerned(e) == Some(m) && !e.Start? && !e.AddOutcome? && !e.Vote? && o in DisputeOf(w'.s, m).outcomes
    ensures RecordMoves(cfg, w, e, w', m, o)
  {
    hide OwnersOf, IsBatch, PayEach, Deposit, Elements;
  }

  lemma {:induction false} RecordStep(cfg: Config, w: World, e: Event, w': World, m: MarketId, o: OutcomeReport)
    requires WorldOk(cfg, w) && Step(cfg, w, e, w') && o in DisputeOf(w'.s, m).outcomes
    ensures RecordMoves(cfg, w, e, w', m, o)
  {
    hide Step, WorldOk;
    if Concerned(e) != Some(m) {
      OthersUntouched(cfg, w, e, w', m);
    } else if e.Start? {
      StartRecords(cfg, w, e, w', m, o);
    } else if e.AddOutcome? || e.Vote? {
      CallRecords(cfg, w, e, w', m, o);
    } else {
      EndRecords(cfg, w, e, w', m, o);
    }
  }

  /** Every stored outcome belongs to whoever added it, for the fee, or to the owners of the initial items for it,
      all of them and in the order of the items. */
  lemma {:induction false} OwnerTheorem(cfg: Config, ws: seq<World>, es: seq<Event>, i: nat, m: MarketId, o: OutcomeReport)
    requires Run(cfg, ws, es) && i < |ws| && o in DisputeOf(ws[i].s, m).outcomes
    ensures PossessedBy(cfg, es, i, m, o, DisputeOf(ws[i].s, m).outcomes[o].possession)
  {
    hide Step, WorldOk, OwnersOf;
    if i > 0 {
      var w, e := ws[i - 1], es[i - 1];
      assert Step(cfg, w, e, ws[i]);
      RunTheorem(cfg, ws, es, i - 1);
      RecordStep(cfg, w, e, ws[i], m, o);
      var p := DisputeOf(ws[i].s, m).outcomes[o].possession;
      if o in DisputeOf(w.s, m).outcomes && p == DisputeOf(w.s, m).outcomes[o].possession {
        OwnerTheorem(cfg, ws, es, i - 1, m, o);
      }
    }
  }

  // ---- Purging ----

  predicate IsPurge(e: Event, m: MarketId) { e.Purge? && e.m == m }

  /** The purges of `m` among the events from `i` to `j`. */
  function Purges(es: seq<Event>, i: nat, j: nat, m: MarketId): nat
    requires i <= j <= |es|
    decreases j
  {
    if i == j then 0 else Purges(es, i, j - 1, m) + if IsPurge(es[j - 1], m) then 1 else 0
  }

  /** The stored outcomes other than the winner. */
  ghost function Losers(d: Dispute): Outcomes
    requires d.info.Some?
  {
    d.outcomes - {d.info.value.winner}
  }

  ghost function LosersLeft(s: Storage, m: MarketId): nat {
    if m in s.infos then |Losers(DisputeOf(s, m))| else 0
  }

  lemma {:induction false} LosersTaken(d: Dispute, gone: set<OutcomeReport>)
    requires d.info.Some?
    ensures var d' := WinnerTaken(d).(outcomes := WinnerTaken(d).outcomes - gone);
            && WinnerTaken(d).outcomes == Losers(d)
            && d'.info.Some? && d'.info.value.winner == d.info.value.winner && d'.info.value.winner !in d'.outcomes
            && Losers(d') == Losers(d) - gone
  {
  }

  lemma {:induction false} PurgeTakes(cfg: Config, w: World, w': World, m: MarketId, batch: seq<OutcomeReport>)
    requires Step(cfg, w, Purge(m, batch), w')
    ensures m in w.s.infos && m in w'.s.infos && w'.s.infos[m].winner == w.s.infos[m].winner
    ensures LosersLeft(w'.s, m) == SatSub(LosersLeft(w.s, m), cfg.removeKeysLimit)
    ensures w'.s.infos[m].winner !in DisputeOf(w'.s, m).outcomes
  {
    hide IsBatch, Elements, WinnerTaken, WithDispute, Losers;
    var d := DisputeOf(w.s, m);
    LosersTaken(d, Elements(batch));
    BatchSize(cfg, WinnerTaken(d).outcomes, batch);
    WithDisputeOf(w.s, m, WinnerTaken(d).(outcomes := WinnerTaken(d).outcomes - Elements(batch)));
  }

  lemma {:induction false} FinishedQuiet(cfg: Config, w: World, e: Event, w': World, m: MarketId)
    requires Step(cfg, w, e, w') && IsFinished(w.s, m) && !IsPurge(e, m)
    ensures IsFinished(w'.s, m) && w'.s.infos[m].winner == w.s.infos[m].winner
    ensures DisputeOf(w'.s, m).outcomes == DisputeOf(w.s, m).outcomes
  {
    hide AfterVote, AfterAddOutcome, StartItems, AfterRefund, AfterPurge, IsBatch, Retained, MaxEntry, PayEach, Deposit, Part, Rest;
    if Concerned(e) != Some(m) {
      hide Step;
      OthersUntouched(cfg, w, e, w', m);
      assert DisputeOf(w'.s, m).info == DisputeOf(w.s, m).info;
    }
  }

  /** Every purge of a finished dispute removes the winner and as many other outcomes as the limit allows, and
      nothing else removes any; so after enough purges none is left, and the reward can be paid. */
  lemma {:induction false} PurgeTheorem(cfg: Config, ws: seq<World>, es: seq<Event>, i: nat, j: nat, m: MarketId)
    requires Run(cfg, ws, es) && i <= j < |ws| && IsFinished(ws[i].s, m)
    ensures IsFinished(ws[j].s, m) && ws[j].s.infos[m].winner == ws[i].s.infos[m].winner
    ensures LosersLeft(ws[j].s, m) == SatSub(LosersLeft(ws[i].s, m), Times(Purges(es, i, j, m), cfg.removeKeysLimit))
    ensures 0 < Purges(es, i, j, m) ==> ws[j].s.infos[m].winner !in DisputeOf(ws[j].s, m).outcomes
    ensures Purges(es, i, j, m) == 0 ==> DisputeOf(ws[j].s, m).outcomes == DisputeOf(ws[i].s, m).outcomes
    decreases j
  {
    hide Step, IsPurge, DisputeOf, LosersLeft, IsFinished;
    if i < j {
      PurgeTheorem(cfg, ws, es, i, j - 1, m);
      assert Step(cfg, ws[j - 1], es[j - 1], ws[j]);
      PurgeOrQuiet(cfg, ws[j - 1], es[j - 1], ws[j], m);
    }
  }

  lemma {:induction false} PurgeOrQuiet(cfg: Config, w: World, e: Event, w': World, m: MarketId)
    requires Step(cfg, w, e, w') && IsFinished(w.s, m)
    ensures IsFinished(w'.s, m) && w'.s.infos[m].winner == w.s.infos[m].winner
    ensures if IsPurge(e, m) then
              && LosersLeft(w'.s, m) == SatSub(LosersLeft(w.s, m), cfg.removeKeysLimit)
              && w'.s.infos[m].winner !in DisputeOf(w'.s, m).outcomes
            else DisputeOf(w'.s, m).outcomes == DisputeOf(w.s, m).outcomes && LosersLeft(w'.s, m) == LosersLeft(w.s, m)
  {
    hide Step;
    if IsPurge(e, m) {
      PurgeTakes(cfg, w, w', m, e.batch);
      StatusStep(cfg, w, e, w', m);
    } else {
      FinishedQuiet(cfg, w, e, w', m);
    }
  }

  /** So the payout goes through exactly when enough has been purged and there is something to pay. */
  lemma {:induction false} PayableIff(cfg: Config, ws: seq<World>, es: seq<Event>, i: nat, j: nat, m: MarketId)
    requires Run(cfg, ws, es) && i <= j < |ws| && IsFinished(ws[i].s, m) && 0 < Purges(es, i, j, m)
    ensures RewardError(ws[j].s, m).None? <==>
              LosersLeft(ws[i].s, m) <= Times(Purges(es, i, j, m), cfg.removeKeysLimit) && 0 < DisputeOf(ws[j].s, m).pot
  {
    hide Step, Times;
    PurgeTheorem(cfg, ws, es, i, j, m);
    var d := DisputeOf(ws[j].s, m);
    assert Losers(d) == d.outcomes;
  }
}
