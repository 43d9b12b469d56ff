/** Whether the losers of a court can pay when its stakes are reassigned: the stake of a juror stays
    behind a resolved court until the juror exits. */
module CourtSolvency {
  import opened Numbers
  import opened CourtTypes
  import opened CourtPool
  import opened JurySelection
  import opened JuryDraws
  import opened CourtVotes
  import opened CourtStorage
  import opened CourtSteps
  import opened CourtInvariants
  import opened CourtLocks
  import opened CourtRuns
  import opened Ledger
  import Reassignment

  /** Nothing but an exit lowers a stake. */
  lemma {:induction false} StakeStays(cfg: Config, s: Storage, e: Event, s': Storage, a: AccountId)
    requires cfg.Valid() && Step(cfg, s, e, s') && a in s.bench.participants && e != ExitCourt(a)
    ensures a in s'.bench.participants && s.bench.participants[a].stake <= s'.bench.participants[a].stake
  {
    hide Selected, AddResolve, RemoveResolve, RoundFrom, LatestWinner, VoteCall, DenounceCall, RevealCall, TimesScheduled, InsertItem, PoolForJoin, PoolWithout, AppealStep, DisputeStep;
    match e
    case Dispute(m, log) => DisputeKeepsStakes(cfg, s, s', m, log, a);
    case Appeal(who, c, log) => AppealKeepsStakes(cfg, s, s', who, c, log, a);
    case _ =>
  }

  lemma {:induction false} DisputeKeepsStakes(cfg: Config, s: Storage, s': Storage, m: MarketId, log: Log, a: AccountId)
    requires cfg.Valid() && DisputeStep(cfg, s, s', m, log) && a in s.bench.participants
    ensures a in s'.bench.participants && s'.bench.participants[a].stake == s.bench.participants[a].stake
  {
    hide Selected, AddResolve, RoundFrom, TimesScheduled;
    DrawKeepsStakes(cfg, s.bench, s'.bench, 0, log, DrawsIn(s'.draws, s.nextCourtId), a);
  }

  lemma {:induction false} AppealKeepsStakes(cfg: Config, s: Storage, s': Storage, who: AccountId, c: CourtId, log: Log, a: AccountId)
    requires cfg.Valid() && AppealStep(cfg, s, s', who, c, log) && a in s.bench.participants
    ensures a in s'.bench.participants && s'.bench.participants[a].stake == s.bench.participants[a].stake
  {
    hide Selected, AddResolve, RemoveResolve, RoundFrom, AppealedCourt;
  }

  lemma {:induction false} DrawKeepsStakes(cfg: Config, b: Bench, b': Bench, appeals: nat, log: Log, draws: seq<Draw>, a: AccountId)
    requires cfg.Valid() && Selected(cfg, b, b', appeals, log, draws) && a in b.participants
    ensures a in b'.participants && b'.participants[a].stake == b.participants[a].stake
  {
    hide HitsOk, TargetsOk, RemoveEach, Tally, NecessaryDrawsWeight;
  }

  /** What an account has at risk in a court only shrinks, unless the court is appealed. */
  lemma {:induction false} RiskShrinks(cfg: Config, s: Storage, e: Event, s': Storage, c: CourtId, a: AccountId)
    requires ConfigOk(cfg) && StoreOk(cfg, s) && Step(cfg, s, e, s') && c < s.nextCourtId && !(e.Appeal? && e.c == c)
    ensures SlashFor(DrawsIn(s'.draws, c), a) <= SlashFor(DrawsIn(s.draws, c), a) && c < s'.nextCourtId
  {
    CourtsGrow(cfg, s, e, s');
    if Touched(s, e) != Some(c) {
      OthersLeftAlone(cfg, s, e, s', c);
    } else {
      hide BenchOk, IdsOk, JuriesOk, CourtsOk, ScheduleOk, DisputedOk, ItemsOk, OpenedOk;
      hide JoinStep, PrepareExitStep, ExitStep, VoteStep, DisputeStep, AppealStep, Unlocked, LatestWinner, RemoveResolve, DrawsMove;
      match e {
        case CastSecret(who, _, commitment) =>
          CastStore(cfg, s, s', who, c, commitment);
          MovesKeepSums(DrawsIn(s.draws, c), DrawsIn(s'.draws, c), a);
        case Denounce(who, _, juror, item, salt) =>
          DenounceStore(cfg, s, s', who, c, juror, item, salt);
          MovesKeepSums(DrawsIn(s.draws, c), DrawsIn(s'.draws, c), a);
        case Reveal(who, _, item, salt) =>
          RevealStore(cfg, s, s', who, c, item, salt);
          MovesKeepSums(DrawsIn(s.draws, c), DrawsIn(s'.draws, c), a);
        case _ =>
      }
    }
  }

  /** The account does not exit, and the court is not appealed, from `r` to `j`. */
  ghost predicate Stays(es: seq<Event>, r: nat, j: nat, c: CourtId, a: AccountId)
    requires j <= |es|
  {
    forall t :: r <= t < j ==> es[t] != ExitCourt(a) && !(es[t].Appeal? && es[t].c == c)
  }

  /** What an account has at risk in a court that was open at `r` is covered by its stake, which is
      its currency lock, for as long as the account does not exit; whether the court has been
      resolved since or not. */
  lemma {:induction false} StakeCovers(cfg: Config, ws: seq<World>, es: seq<Event>, r: nat, j: nat, c: CourtId, a: AccountId)
    requires ConfigOk(cfg) && Run(cfg, ws, es) && r <= j < |ws| && c in ws[r].s.courts && ws[r].s.courts[c].status.Open?
    requires ReassignedStake(ws, es, r, a) == 0 && Stays(es, r, j, c, a)
    ensures c < ws[j].s.nextCourtId
    ensures SlashFor(DrawsIn(ws[j].s.draws, c), a) <= LockOf(ws[j].s.bench, a)
    decreases j
  {
    hide Step;
    RunTheorem(cfg, ws, es, j);
    if r == j {
      ReleaseNeverSaturates(cfg, ws, es, r, c, a);
      CoveredByStake(cfg, ws[r].s, c, a);
    } else {
      var k := j - 1;
      StakeCovers(cfg, ws, es, r, k, c, a);
      RunTheorem(cfg, ws, es, k);
      assert Step(cfg, ws[k].s, es[k], ws[j].s);
      hide StoreOk, CommitmentsOk, WinnersOk;
      RiskShrinks(cfg, ws[k].s, es[k], ws[j].s, c, a);
      LockStays(cfg, ws[k].s, es[k], ws[j].s, a);
    }
  }

  lemma {:induction false} CoveredByStake(cfg: Config, s: Storage, c: CourtId, a: AccountId)
    requires StoreOk(cfg, s) && c in s.courts && SlashFor(DrawsIn(s.draws, c), a) <= ActiveLock(s.bench, a)
    ensures c < s.nextCourtId && SlashFor(DrawsIn(s.draws, c), a) <= LockOf(s.bench, a)
  {
    hide JuriesOk, CourtsOk, ScheduleOk, DisputedOk, ItemsOk, PoolOk, SlashFor;
    if a in s.bench.participants {
      assert ParticipantOk(cfg, a, s.bench.participants[a]);
    }
  }

  lemma {:induction false} LockStays(cfg: Config, s: Storage, e: Event, s': Storage, a: AccountId)
    requires cfg.Valid() && StoreOk(cfg, s) && StoreOk(cfg, s') && Step(cfg, s, e, s') && e != ExitCourt(a)
    ensures LockOf(s.bench, a) <= LockOf(s'.bench, a)
  {
    hide JuriesOk, CourtsOk, ScheduleOk, DisputedOk, ItemsOk, IdsOk, PoolOk, Step;
    if a in s.bench.participants {
      StakeStays(cfg, s, e, s', a);
    }
  }

  /** So if nobody at risk exits between the resolution of a court and the reassignment of its
      stakes, and nobody has less than the currency lock, the winners share the reward pot and all
      losing stakes. */
  lemma {:induction false} LossesCovered(cfg: Config, ws: seq<World>, es: seq<Event>, r: nat, j: nat, c: CourtId,
                                         l: Ledger, w: VoteItem, pot: AccountId)
    requires ConfigOk(cfg) && Run(cfg, ws, es) && r <= j < |ws| && c in ws[r].s.courts && ws[r].s.courts[c].status.Open?
    requires forall a: AccountId :: 0 < SlashFor(DrawsIn(ws[j].s.draws, c), a) ==>
               && ReassignedStake(ws, es, r, a) == 0 && Stays(es, r, j, c, a)
               && LockOf(ws[j].s.bench, a) <= BalanceOf(l, a)
    requires Total(l) <= U128_MAX && SlashFor(DrawsIn(ws[j].s.draws, c), pot) == 0
    ensures Reassignment.Incentives(l, DrawsIn(ws[j].s.draws, c), w, pot)
         == BalanceOf(l, pot) + Reassignment.TotalLoss(DrawsIn(ws[j].s.draws, c), w)
  {
    hide Step, CommitmentsOk, WinnersOk, DrawsOk, OpenedOk, SlashFor, DrawsIn, LockOf, ReassignedStake, Stays, Reassignment.Incentives, Reassignment.TotalLoss, Reassignment.LossFor, Reassignment.WinFor;
    RunTheorem(cfg, ws, es, j);
    var draws := DrawsIn(ws[j].s.draws, c);
    JuryOf(cfg, ws[j].s.draws, c);
    forall a: AccountId
      ensures Reassignment.LossFor(draws, w, a) <= BalanceOf(l, a)
    {
      Reassignment.ClassifiedOnce(cfg, draws, w, a);
      if 0 < SlashFor(draws, a) {
        StakeCovers(cfg, ws, es, r, j, c, a);
      }
    }
    Reassignment.IncentivesExactIff(cfg, l, draws, w, pot);
  }
}
