/** The calls of the court pallet as steps from one storage to the next. */
module CourtSteps {
  import opened Numbers
  import opened Ordered
  import opened CourtTypes
  import opened CourtPool
  import opened JurySelection
  import opened JuryDraws
  import opened CourtVotes
  import opened CourtWinner
  import opened CourtStorage

  /** The configuration, with room for the draws of the last round that is drawn, and for the
      stake behind them. */
  ghost predicate ConfigOk(cfg: Config) {
    && cfg.Valid()
    && 0 < cfg.maxAppeals
    && 2 * NecessaryDrawsWeight(cfg.maxAppeals - 1) <= cfg.maxSelectedDraws
    && NecessaryDrawsWeight(cfg.maxAppeals - 1) * cfg.minJurorStake <= U128_MAX
  }

  datatype Event =
    | Join(who: AccountId, amount: Balance, delegations: Option<seq<AccountId>>)
    | PrepareExit(who: AccountId)
    | ExitCourt(who: AccountId)
    | CastSecret(who: AccountId, c: CourtId, commitment: Hash)
    | Denounce(who: AccountId, c: CourtId, juror: AccountId, item: VoteItem, salt: Hash)
    | Reveal(who: AccountId, c: CourtId, item: VoteItem, salt: Hash)
    | Dispute(m: MarketId, log: Log)
    | Appeal(who: AccountId, c: CourtId, log: Log)
    | Resolve(m: MarketId)
    | Abandon(m: MarketId)
    | Reassign(c: CourtId)
    | NextBlock

  /** The draws that fit the bounded vector. */
  function Truncated(cfg: Config, draws: seq<Draw>): seq<Draw> {
    if |draws| <= cfg.maxSelectedDraws then draws else draws[..cfg.maxSelectedDraws]
  }

  /** A jury for the round after `appeals` appeals is drawn through the hits `log`. */
  ghost predicate Selected(cfg: Config, b: Bench, b': Bench, appeals: nat, log: Log, draws: seq<Draw>)
    requires cfg.Valid()
  {
    && Chosen(cfg, b, b', NecessaryDrawsWeight(appeals), log, DrawsOf(Tally(cfg, log)))
    && NecessaryDrawsWeight(appeals) * cfg.minJurorStake <= U128_MAX
    && draws == Truncated(cfg, DrawsOf(Tally(cfg, log)))
  }

  /** A round that starts at `preVote` ends before block numbers saturate. */
  ghost predicate RoundFits(cfg: Config, preVote: BlockNumber) {
    preVote + cfg.votePeriod + cfg.aggregationPeriod + cfg.appealPeriod <= U64_MAX
  }

  ghost predicate JoinStep(cfg: Config, s: Storage, s': Storage, who: AccountId, amount: Balance,
                           delegations: Option<seq<AccountId>>)
  {
    && JoinError(cfg, s.bench, who, amount, Free(s, who)).None?
    && DelegationsOk(cfg, who, delegations)
    && s' == s.(bench := Joined(cfg, s.bench, who, amount, delegations, s.now))
  }

  ghost predicate PrepareExitStep(s: Storage, s': Storage, who: AccountId) {
    && PrepareExitError(s.bench, who).None?
    && s' == s.(bench := Leaving(s.bench, who, s.now))
  }

  ghost predicate ExitStep(cfg: Config, s: Storage, s': Storage, who: AccountId) {
    && ExitError(cfg, s.bench, who, s.now).None?
    && s' == s.(bench := Exited(s.bench, who))
  }

  /** One of the three vote calls, with the new draws it results in. */
  ghost predicate VoteStep(s: Storage, s': Storage, c: CourtId, result: Result<seq<Draw>>) {
    result.Ok? && s' == s.(draws := s.draws[c := result.value])
  }

  /** A court is opened for a market that never had one and that is not scheduled. */
  ghost predicate DisputeStep(cfg: Config, s: Storage, s': Storage, m: MarketId, log: Log)
    requires cfg.Valid()
  {
    var c, round := s.nextCourtId, RoundFrom(cfg, s.requestBlock);
    && m in s.markets && s.markets[m].usesCourt
    && m !in s.courtOf && (forall t: BlockNumber :: TimesScheduled(s.schedule, m, t) == 0)
    && c < U128_MAX
    && Selected(cfg, s.bench, s'.bench, 0, log, DrawsIn(s'.draws, c))
    && AddResolve(cfg, s.schedule, m, round.appeal).Ok?
    && s' == s.(bench := s'.bench,
                courts := s.courts[c := CourtInfo(Open, [], round, OutcomeType)],
                draws := s.draws[c := DrawsIn(s'.draws, c)],
                nextCourtId := c + 1,
                marketOf := s.marketOf[c := m],
                courtOf := s.courtOf[m := c],
                disputed := s.disputed + {m},
                schedule := AddResolve(cfg, s.schedule, m, round.appeal).value)
  }

  function AppealBond(cfg: Config, number: nat): Balance {
    Min(cfg.appealBond * Min(Pow2(number), U32_MAX), U128_MAX)
  }

  /** What allows the appeal of a court that is not resolved. */
  ghost predicate Appealable(cfg: Config, s: Storage, c: CourtId) {
    && c in s.courts && c in s.marketOf && s.marketOf[c] in s.markets
    && s.courts[c].status.Open?
    && |s.courts[c].appeals| < cfg.maxAppeals
    && s.marketOf[c] in s.disputed
    && s.markets[s.marketOf[c]].usesCourt
    && s.markets[s.marketOf[c]].report.Some?
    && s.courts[c].roundEnds.aggregation < s.now < s.courts[c].roundEnds.appeal
  }

  ghost function AppealedCourt(cfg: Config, s: Storage, who: AccountId, c: CourtId): CourtInfo
    requires Appealable(cfg, s, c)
  {
    var court := s.courts[c];
    var item := LatestWinner(court, DrawsIn(s.draws, c), s.markets[s.marketOf[c]].report.value);
    var number := |court.appeals| + 1;
    court.(appeals := court.appeals + [AppealInfo(who, AppealBond(cfg, number), item)],
           roundEnds := if number < cfg.maxAppeals then RoundFrom(cfg, s.requestBlock) else court.roundEnds)
  }

  /** A new jury is drawn, the old one is released and the resolution moves to the end of the new
      round; the last possible appeal draws nobody and leaves no resolution. The bond is reserved
      from the backer's balance. */
  ghost predicate AppealStep(cfg: Config, s: Storage, s': Storage, who: AccountId, c: CourtId, log: Log)
    requires cfg.Valid()
  {
    && Appealable(cfg, s, c)
    && var m, due, number := s.marketOf[c], s.courts[c].roundEnds.appeal, |s.courts[c].appeals| + 1;
       if number < cfg.maxAppeals then
         var at := RoundFrom(cfg, s.requestBlock).appeal;
         var drawn := Bench(s'.bench.pool, WithLocks(cfg, s.bench.participants, log), s.bench.locks);
         && Selected(cfg, s.bench, drawn, number, log, DrawsIn(s'.draws, c))
         && AddResolve(cfg, s.schedule, m, at).Ok?
         && s' == s.(bench := drawn.(participants := Unlocked(drawn.participants, DrawsIn(s.draws, c))),
                     courts := s.courts[c := AppealedCourt(cfg, s, who, c)],
                     draws := s.draws[c := DrawsIn(s'.draws, c)],
                     schedule := RemoveResolve(AddResolve(cfg, s.schedule, m, at).value, m, due),
                     balances := s'.balances)
       else
         && log == []
         && s' == s.(courts := s.courts[c := AppealedCourt(cfg, s, who, c)],
                     schedule := RemoveResolve(s.schedule, m, due),
                     balances := s'.balances)
  }

  /** An open court of a market. */
  ghost predicate HasOpenCourt(s: Storage, m: MarketId) {
    m in s.courtOf && s.courtOf[m] in s.courts && s.courts[s.courtOf[m]].status.Open?
  }

  /** The court releases the jury and records the winner, and the resolution is taken off the
      schedule: the market is due, or an administrator resolves it earlier. */
  ghost predicate ResolveStep(s: Storage, s': Storage, m: MarketId) {
    && HasOpenCourt(s, m) && m in s.markets && s.markets[m].usesCourt && s.markets[m].report.Some?
    && var c := s.courtOf[m];
       var winner := LatestWinner(s.courts[c], DrawsIn(s.draws, c), s.markets[m].report.value);
       && winner.Outcome?
       && s' == s.(bench := s.bench.(participants := Unlocked(s.bench.participants, DrawsIn(s.draws, c))),
                   courts := s.courts[c := s.courts[c].(status := Closed(winner))],
                   disputed := s.disputed - {m},
                   schedule := RemoveResolve(s.schedule, m, s.courts[c].roundEnds.appeal))
  }

  /** The jury of the court of a market is released and the court is gone. */
  function AfterAbandon(s: Storage, m: MarketId): Storage
    requires m in s.courtOf
  {
    var c := s.courtOf[m];
    s.(bench := s.bench.(participants := Unlocked(s.bench.participants, DrawsIn(s.draws, c))),
       courts := s.courts - {c},
       draws := s.draws - {c})
  }

  /** A global dispute takes over, or the dispute is cleared. */
  ghost predicate AbandonStep(s: Storage, s': Storage, m: MarketId) {
    HasOpenCourt(s, m) && s' == AfterAbandon(s, m)
  }

  /** The stakes of a closed court are reassigned. What that does to the balances is the subject
      of the reassignment itself. */
  ghost predicate ReassignStep(s: Storage, s': Storage, c: CourtId) {
    && c in s.courts && s.courts[c].status.Closed?
    && s' == s.(bench := s.bench.(participants := Unlocked(s.bench.participants, DrawsIn(s.draws, c))),
                courts := s.courts[c := s.courts[c].(status := Reassigned)],
                draws := s.draws - {c},
                balances := s'.balances)
  }

  /** `on_initialize` of the next block; inflation may change balances. */
  ghost predicate NextBlockStep(cfg: Config, s: Storage, s': Storage) {
    && s.now + 1 < U64_MAX
    && s' == s.(now := s.now + 1,
                requestBlock := if s.now + 1 >= s.requestBlock then SatAddBlock(s.now + 1, cfg.requestInterval)
                                else s.requestBlock,
                balances := s'.balances)
  }

  ghost predicate Step(cfg: Config, s: Storage, e: Event, s': Storage)
    requires cfg.Valid()
  {
    match e
    case Join(who, amount, delegations) => JoinStep(cfg, s, s', who, amount, delegations)
    case PrepareExit(who) => PrepareExitStep(s, s', who)
    case ExitCourt(who) => ExitStep(cfg, s, s', who)
    case CastSecret(who, c, commitment) => VoteStep(s, s', c, VoteCall(s, who, c, commitment))
    case Denounce(who, c, juror, item, salt) => VoteStep(s, s', c, DenounceCall(cfg, s, who, c, juror, item, salt))
    case Reveal(who, c, item, salt) => VoteStep(s, s', c, RevealCall(cfg, s, who, c, item, salt))
    case Dispute(m, log) => DisputeStep(cfg, s, s', m, log)
    case Appeal(who, c, log) => AppealStep(cfg, s, s', who, c, log)
    case Resolve(m) => ResolveStep(s, s', m)
    case Abandon(m) => AbandonStep(s, s', m)
    case Reassign(c) => ReassignStep(s, s', c)
    case NextBlock => NextBlockStep(cfg, s, s')
  }

  /** The config has room for the draws, so nothing is truncated. */
  lemma {:induction false} SelectedIsWhole(cfg: Config, b: Bench, b': Bench, appeals: nat, log: Log, draws: seq<Draw>)
    requires ConfigOk(cfg) && BenchOk(cfg, b) && appeals < cfg.maxAppeals
    requires Selected(cfg, b, b', appeals, log, draws)
    ensures draws == DrawsOf(Tally(cfg, log))
    ensures Chosen(cfg, b, b', NecessaryDrawsWeight(appeals), log, draws)
    ensures NecessaryDrawsWeight(appeals) <= U32_MAX
  {
    DrawsWeightMono(appeals, cfg.maxAppeals - 1);
    JuryTheorem(cfg, b, b', NecessaryDrawsWeight(appeals), log, DrawsOf(Tally(cfg, log)));
  }
}
