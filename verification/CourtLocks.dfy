/** The active locks of the participants: what open courts put at risk, and what hits on
    delegators without a valid juror leave behind. */
module CourtLocks {
  import opened Numbers
  import opened Ordered
  import opened CourtTypes
  import opened CourtPool
  import opened JurySelection
  import opened JuryDraws
  import opened CourtVotes
  import opened CourtWinner
  import opened CourtStorage
  import opened CourtSteps
  import opened CourtInvariants

  // ---- Active locks ----

  /** What an account has at risk in a court that is still open. */
  function AtRiskIn(courts: map<CourtId, CourtInfo>, draws: map<CourtId, seq<Draw>>, a: AccountId, c: CourtId): nat {
    if c in courts && courts[c].status.Open? then SlashFor(DrawsIn(draws, c), a) else 0
  }

  /** What an account has at risk in the open courts below `n`. */
  function OpenRisk(courts: map<CourtId, CourtInfo>, draws: map<CourtId, seq<Draw>>, a: AccountId, n: nat): nat {
    if n == 0 then 0 else OpenRisk(courts, draws, a, n - 1) + AtRiskIn(courts, draws, a, n - 1)
  }

  /** A change of one court changes the total by the change of that court. */
  lemma {:induction false} OpenRiskChange(courts: map<CourtId, CourtInfo>, draws: map<CourtId, seq<Draw>>,
                                          courts': map<CourtId, CourtInfo>, draws': map<CourtId, seq<Draw>>,
                                          a: AccountId, n: nat, c: CourtId)
    requires forall k: CourtId :: k != c ==> AtRiskIn(courts', draws', a, k) == AtRiskIn(courts, draws, a, k)
    ensures c < n ==>
      OpenRisk(courts', draws', a, n) + AtRiskIn(courts, draws, a, c)
      == OpenRisk(courts, draws, a, n) + AtRiskIn(courts', draws', a, c)
    ensures n <= c ==> OpenRisk(courts', draws', a, n) == OpenRisk(courts, draws, a, n)
  {
    if n > 0 {
      OpenRiskChange(courts, draws, courts', draws', a, n - 1, c);
    }
  }

  function ActiveLock(b: Bench, a: AccountId): nat {
    if a in b.participants then b.participants[a].activeLock else 0
  }

  /** The currency lock of the court on an account. */
  function LockOf(b: Bench, a: AccountId): nat { if a in b.locks then b.locks[a] else 0 }

  function RiskOf(s: Storage, a: AccountId): nat { OpenRisk(s.courts, s.draws, a, s.nextCourtId) }

  /** What hits on a delegator without a valid juror have locked: no draw remembers it. */
  function Leaked(cfg: Config, hits: Log, a: AccountId): nat { Times(Count(hits, FailedOf(a)), cfg.minJurorStake) }

  /** The account has no more locked than open courts and failed hits account for. */
  ghost predicate AccountBounded(cfg: Config, s: Storage, hits: Log, a: AccountId) {
    ActiveLock(s.bench, a) <= RiskOf(s, a) + Leaked(cfg, hits, a)
  }

  /** Together with `debt` the account has that much locked. */
  ghost predicate AccountCovered(cfg: Config, s: Storage, hits: Log, debt: nat, a: AccountId) {
    RiskOf(s, a) + Leaked(cfg, hits, a) <= ActiveLock(s.bench, a) + debt
  }

  lemma {:induction false} CountConcat(log: Log, more: Log, q: Query)
    ensures Count(log + more, q) == Count(log, q) + Count(more, q)
  {
    if more == [] {
      assert log + more == log;
    } else {
      CountConcat(log, more[..|more| - 1], q);
      assert (log + more)[..|log + more| - 1] == log + more[..|more| - 1];
    }
  }

  lemma {:induction false} LeakedConcat(cfg: Config, hits: Log, log: Log, a: AccountId)
    ensures Leaked(cfg, hits + log, a) == Leaked(cfg, hits, a) + Leaked(cfg, log, a)
  {
    CountConcat(hits, log, FailedOf(a));
    TimesAdds(Count(hits, FailedOf(a)), Count(log, FailedOf(a)), cfg.minJurorStake);
  }

  /** A draw locks one section for every hit. */
  lemma {:induction false} HitLocks(cfg: Config, b: Bench, b': Bench, log: Log, a: AccountId)
    requires cfg.Valid() && BenchOk(cfg, b) && HitsOk(b.pool, SectionCounts(b.pool, cfg.minJurorStake), log)
    requires b'.participants == WithLocks(cfg, b.participants, log)
    ensures ActiveLock(b', a) == ActiveLock(b, a) + Times(Count(log, Of(a)), cfg.minJurorStake)
  {
    if a in b.participants {
      LocksCovered(cfg, b, log, a);
    } else {
      forall i | 0 <= i < |b.pool|
        ensures b.pool[i].account != a
      {
        assert ItemOk(b.pool[i], b.participants);
      }
      NotHitOutsidePool(b.pool, SectionCounts(b.pool, cfg.minJurorStake), log, a);
    }
  }

  /** A new jury locks what it has at risk, and what its failed hits leak. */
  lemma {:induction false} SelectedLocks(cfg: Config, b: Bench, b': Bench, appeals: nat, log: Log, draws: seq<Draw>, a: AccountId)
    requires ConfigOk(cfg) && BenchOk(cfg, b) && appeals < cfg.maxAppeals
    requires Selected(cfg, b, b', appeals, log, draws)
    ensures ActiveLock(b', a) == ActiveLock(b, a) + SlashFor(draws, a) + Leaked(cfg, log, a)
  {
    hide BenchOk, Chosen, HitsOk, TargetsOk, RemoveEach, Tally;
    SelectedIsWhole(cfg, b, b', appeals, log, draws);
    LockAccounting(cfg, b, b', NecessaryDrawsWeight(appeals), log, draws, a);
    HitLocks(cfg, b, b', log, a);
  }

  /** Releasing the jury of an open court. */
  lemma {:induction false} ReleaseLocks(cfg: Config, s: Storage, s': Storage, c: CourtId, hits: Log, debt: nat, a: AccountId)
    requires c in s.courts && s.courts[c].status.Open? && c < s.nextCourtId == s'.nextCourtId
    requires s'.bench.participants == Unlocked(s.bench.participants, DrawsIn(s.draws, c))
    requires c in s'.courts ==> !s'.courts[c].status.Open?
    requires forall k: CourtId :: k != c ==> AtRiskIn(s'.courts, s'.draws, a, k) == AtRiskIn(s.courts, s.draws, a, k)
    ensures AccountBounded(cfg, s, hits, a) ==> AccountBounded(cfg, s', hits, a)
    ensures AccountCovered(cfg, s, hits, debt, a) ==> AccountCovered(cfg, s', hits, debt, a)
  {
    OpenRiskChange(s.courts, s.draws, s'.courts, s'.draws, a, s.nextCourtId, c);
  }

  /** Opening a court with a jury. */
  lemma {:induction false} OpenedLocks(cfg: Config, s: Storage, s': Storage, log: Log, hits: Log, a: AccountId)
    requires ConfigOk(cfg) && BenchOk(cfg, s.bench)
    requires var c := s.nextCourtId;
             && Selected(cfg, s.bench, s'.bench, 0, log, DrawsIn(s'.draws, c))
             && c in s'.courts && s'.courts[c].status.Open? && s'.nextCourtId == c + 1
             && s'.courts == s.courts[c := s'.courts[c]] && s'.draws == s.draws[c := DrawsIn(s'.draws, c)]
    ensures ActiveLock(s'.bench, a) + RiskOf(s, a) + Leaked(cfg, hits, a)
         == ActiveLock(s.bench, a) + RiskOf(s', a) + Leaked(cfg, hits + log, a)
  {
    hide BenchOk, Selected, SlashFor, Leaked;
    var c := s.nextCourtId;
    SelectedLocks(cfg, s.bench, s'.bench, 0, log, DrawsIn(s'.draws, c), a);
    LeakedConcat(cfg, hits, log, a);
    RiskOpened(s.courts, s.draws, c, s'.courts[c], DrawsIn(s'.draws, c), a);
  }

  lemma {:induction false} RiskOpened(courts: map<CourtId, CourtInfo>, draws: map<CourtId, seq<Draw>>, c: CourtId,
                                      court: CourtInfo, jury: seq<Draw>, a: AccountId)
    requires court.status.Open?
    ensures OpenRisk(courts[c := court], draws[c := jury], a, c + 1) == OpenRisk(courts, draws, a, c) + SlashFor(jury, a)
  {
    OpenRiskChange(courts, draws, courts[c := court], draws[c := jury], a, c, c);
  }

  /** Replacing the jury of an open court: it draws before it releases, so it never runs short. */
  lemma {:induction false} ReplacedLocks(cfg: Config, s: Storage, s': Storage, drawn: Bench, appeals: nat, c: CourtId,
                                         log: Log, hits: Log, debt: nat, a: AccountId)
    requires ConfigOk(cfg) && BenchOk(cfg, s.bench) && appeals < cfg.maxAppeals
    requires c < s.nextCourtId == s'.nextCourtId && c in s.courts && s.courts[c].status.Open?
    requires Selected(cfg, s.bench, drawn, appeals, log, DrawsIn(s'.draws, c))
    requires s'.bench.participants == Unlocked(drawn.participants, DrawsIn(s.draws, c))
    requires c in s'.courts && s'.courts[c].status.Open?
    requires s'.courts == s.courts[c := s'.courts[c]] && s'.draws == s.draws[c := DrawsIn(s'.draws, c)]
    ensures AccountBounded(cfg, s, hits, a) ==> AccountBounded(cfg, s', hits + log, a)
    ensures AccountCovered(cfg, s, hits, debt, a) ==> AccountCovered(cfg, s', hits + log, debt, a)
  {
    hide BenchOk, Selected, SlashFor, Leaked;
    SelectedLocks(cfg, s.bench, drawn, appeals, log, DrawsIn(s'.draws, c), a);
    LeakedConcat(cfg, hits, log, a);
    OpenRiskChange(s.courts, s.draws, s'.courts, s'.draws, a, s.nextCourtId, c);
    assert ActiveLock(s'.bench, a) == SatSub(ActiveLock(drawn, a), SlashFor(DrawsIn(s.draws, c), a));
    RiskWithin(s.courts, s.draws, a, s.nextCourtId, c);
  }

  lemma {:induction false} RiskWithin(courts: map<CourtId, CourtInfo>, draws: map<CourtId, seq<Draw>>, a: AccountId, n: nat, c: CourtId)
    requires c < n
    ensures AtRiskIn(courts, draws, a, c) <= OpenRisk(courts, draws, a, n)
  {
    if c < n - 1 {
      RiskWithin(courts, draws, a, n - 1, c);
    }
  }

  lemma {:induction false} SameRisk(s: Storage, s': Storage, a: AccountId)
    requires s'.nextCourtId == s.nextCourtId
    requires forall k: CourtId :: AtRiskIn(s'.courts, s'.draws, a, k) == AtRiskIn(s.courts, s.draws, a, k)
    ensures RiskOf(s', a) == RiskOf(s, a)
  {
    OpenRiskChange(s.courts, s.draws, s'.courts, s'.draws, a, s.nextCourtId, s.nextCourtId);
  }

  /** Joining and leaving move no lock: who leaves for good has none. */
  lemma {:induction false} BenchLocks(cfg: Config, s: Storage, e: Event, s': Storage, a: AccountId)
    requires cfg.Valid() && BenchOk(cfg, s.bench) && Step(cfg, s, e, s')
    requires e.Join? || e.PrepareExit? || e.ExitCourt? || e.NextBlock?
    ensures ActiveLock(s'.bench, a) == ActiveLock(s.bench, a) && RiskOf(s', a) == RiskOf(s, a)
  {
  }

  lemma {:induction false} VoteLocks(s: Storage, s': Storage, c: CourtId, a: AccountId)
    requires MovesVotes(s, s', c)
    ensures ActiveLock(s'.bench, a) == ActiveLock(s.bench, a) && RiskOf(s', a) == RiskOf(s, a)
  {
    MovesKeepSums(DrawsIn(s.draws, c), DrawsIn(s'.draws, c), a);
    SameRisk(s, s', a);
  }

  lemma {:induction false} LastAppealLocks(cfg: Config, s: Storage, s': Storage, who: AccountId, c: CourtId, log: Log, a: AccountId)
    requires cfg.Valid() && AppealStep(cfg, s, s', who, c, log) && |s.courts[c].appeals| + 1 == cfg.maxAppeals
    ensures ActiveLock(s'.bench, a) == ActiveLock(s.bench, a) && RiskOf(s', a) == RiskOf(s, a) && log == []
  {
    SameRisk(s, s', a);
  }

  /** Reassignment lowers locks a second time and touches no open court. */
  lemma {:induction false} ReassignLocks(s: Storage, s': Storage, c: CourtId, a: AccountId)
    requires ReassignStep(s, s', c)
    ensures ActiveLock(s'.bench, a) == SatSub(ActiveLock(s.bench, a), SlashFor(DrawsIn(s.draws, c), a))
    ensures RiskOf(s', a) == RiskOf(s, a)
  {
    SameRisk(s, s', a);
  }

  /** The hits of an event. */
  function HitsOf(e: Event): Log {
    match e
    case Dispute(_, log) => log
    case Appeal(_, _, log) => log
    case _ => []
  }

  lemma {:induction false} VoteStepLocks(cfg: Config, s: Storage, e: Event, s': Storage, a: AccountId)
    requires cfg.Valid() && JuriesOk(cfg, s.draws) && Step(cfg, s, e, s')
    requires e.CastSecret? || e.Denounce? || e.Reveal?
    ensures ActiveLock(s'.bench, a) == ActiveLock(s.bench, a) && RiskOf(s', a) == RiskOf(s, a)
  {
    match e
    case CastSecret(who, c, commitment) => CastStore(cfg, s, s', who, c, commitment); VoteLocks(s, s', c, a);
    case Denounce(who, c, juror, item, salt) =>
      DenounceStore(cfg, s, s', who, c, juror, item, salt);
      VoteLocks(s, s', c, a);
    case Reveal(who, c, item, salt) => RevealStore(cfg, s, s', who, c, item, salt); VoteLocks(s, s', c, a);
  }

  /** A drawing step, for one account. */
  lemma {:induction false} DrawingLocks(cfg: Config, s: Storage, e: Event, s': Storage, hits: Log, debt: nat, a: AccountId)
    requires ConfigOk(cfg) && BenchOk(cfg, s.bench) && IdsOk(s) && Step(cfg, s, e, s') && (e.Dispute? || e.Appeal?)
    ensures AccountBounded(cfg, s, hits, a) ==> AccountBounded(cfg, s', hits + HitsOf(e), a)
    ensures AccountCovered(cfg, s, hits, debt, a) ==> AccountCovered(cfg, s', hits + HitsOf(e), debt, a)
  {
    hide BenchOk, Selected, SlashFor, Leaked, AddResolve, RemoveResolve, RoundFrom, LatestWinner, RiskOf;
    match e
    case Dispute(m, log) => OpenedLocks(cfg, s, s', log, hits, a);
    case Appeal(who, c, log) =>
      if |s.courts[c].appeals| + 1 < cfg.maxAppeals {
        var drawn := Bench(s'.bench.pool, WithLocks(cfg, s.bench.participants, log), s.bench.locks);
        ReplacedLocks(cfg, s, s', drawn, |s.courts[c].appeals| + 1, c, log, hits, debt, a);
      } else {
        LastAppealLocks(cfg, s, s', who, c, log, a);
        assert hits + log == hits;
      }
  }

  /** A step that releases the jury of an open court, for one account. */
  lemma {:induction false} ReleasingLocks(cfg: Config, s: Storage, e: Event, s': Storage, hits: Log, debt: nat, a: AccountId)
    requires cfg.Valid() && IdsOk(s) && Step(cfg, s, e, s') && (e.Resolve? || e.Abandon?)
    ensures AccountBounded(cfg, s, hits, a) ==> AccountBounded(cfg, s', hits, a)
    ensures AccountCovered(cfg, s, hits, debt, a) ==> AccountCovered(cfg, s', hits, debt, a)
  {
    ReleaseLocks(cfg, s, s', s.courtOf[e.m], hits, debt, a);
  }

  /** What a reassignment subtracts a second time. */
  function SubtractedAgain(s: Storage, e: Event, a: AccountId): nat {
    if e.Reassign? then SlashFor(DrawsIn(s.draws, e.c), a) else 0
  }

  /** One step of the accounting, for one account. */
  lemma {:induction false} LockStep(cfg: Config, s: Storage, e: Event, s': Storage, hits: Log, debt: nat, a: AccountId)
    requires ConfigOk(cfg) && StoreOk(cfg, s) && Step(cfg, s, e, s')
    ensures AccountBounded(cfg, s, hits, a) ==> AccountBounded(cfg, s', hits + HitsOf(e), a)
    ensures AccountCovered(cfg, s, hits, debt, a) ==>
              AccountCovered(cfg, s', hits + HitsOf(e), debt + SubtractedAgain(s, e, a), a)
  {
    hide BenchOk, IdsOk, JuriesOk, CourtsOk, ScheduleOk, Leaked, RiskOf, ActiveLock;
    hide JoinStep, PrepareExitStep, ExitStep, VoteStep, DisputeStep, AppealStep, ResolveStep, AbandonStep;
    if e.Dispute? || e.Appeal? {
      DrawingLocks(cfg, s, e, s', hits, debt, a);
    } else {
      assert hits + HitsOf(e) == hits;
      if e.Resolve? || e.Abandon? {
        ReleasingLocks(cfg, s, e, s', hits, debt, a);
      } else if e.Reassign? {
        ReassignLocks(s, s', e.c, a);
      } else if e.CastSecret? || e.Denounce? || e.Reveal? {
        VoteStepLocks(cfg, s, e, s', a);
      } else {
        BenchLocks(cfg, s, e, s', a);
      }
    }
  }
}
