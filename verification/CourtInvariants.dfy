/** What every step of the court pallet keeps. */
module CourtInvariants {
  import opened Numbers
  import opened Ordered
  import opened CourtTypes
  import opened CourtPool
  import opened JurySelection
  import opened JuryDraws
  import opened CourtVotes
  import opened CourtWinner
  import opened CourtStorage
  import opened CourtSteps

  // ---- Identifiers, juries and rounds ----

  /** Courts and markets belong to each other one to one. */
  ghost predicate IdsOk(s: Storage) {
    && (forall c :: c in s.marketOf ==>
          c < s.nextCourtId && s.marketOf[c] in s.courtOf && s.courtOf[s.marketOf[c]] == c)
    && (forall m :: m in s.courtOf ==> s.courtOf[m] in s.marketOf && s.marketOf[s.courtOf[m]] == m)
    && s.courts.Keys <= s.marketOf.Keys
    && s.draws.Keys <= s.courts.Keys
  }

  lemma {:induction false} IdsOpened(s: Storage, s': Storage, m: MarketId)
    requires IdsOk(s) && m !in s.courtOf && s.nextCourtId < s'.nextCourtId
    requires s'.marketOf == s.marketOf[s.nextCourtId := m] && s'.courtOf == s.courtOf[m := s.nextCourtId]
    requires s'.courts.Keys == s.courts.Keys + {s.nextCourtId} && s'.draws.Keys == s.draws.Keys + {s.nextCourtId}
    ensures IdsOk(s')
  {
    assert s.nextCourtId !in s.marketOf;
  }

  ghost predicate JuriesOk(cfg: Config, draws: map<CourtId, seq<Draw>>) {
    forall c :: c in draws ==> DrawsOk(cfg, draws[c]) && OpenedOk(cfg, draws[c])
  }

  /** A new jury consists of delegators and of jurors who have not voted. */
  lemma {:induction false} NewJury(cfg: Config, b: Bench, b': Bench, appeals: nat, log: Log, draws: seq<Draw>)
    requires ConfigOk(cfg) && BenchOk(cfg, b) && appeals < cfg.maxAppeals
    requires Selected(cfg, b, b', appeals, log, draws)
    ensures DrawsOk(cfg, draws) && OpenedOk(cfg, draws)
    ensures forall i :: 0 <= i < |draws| ==> draws[i].vote.Drawn? || draws[i].vote.Delegated?
  {
    SelectedIsWhole(cfg, b, b', appeals, log, draws);
    JuryTheorem(cfg, b, b', NecessaryDrawsWeight(appeals), log, draws);
  }

  /** Replacing the draws of one court. */
  lemma {:induction false} JuriesUpdate(cfg: Config, draws: map<CourtId, seq<Draw>>, c: CourtId, jury: seq<Draw>)
    requires JuriesOk(cfg, draws) && DrawsOk(cfg, jury) && OpenedOk(cfg, jury)
    ensures JuriesOk(cfg, draws[c := jury])
  {
  }

  lemma {:induction false} JuriesRemove(cfg: Config, draws: map<CourtId, seq<Draw>>, c: CourtId)
    requires JuriesOk(cfg, draws)
    ensures JuriesOk(cfg, draws - {c})
  {
  }

  lemma {:induction false} JuryOf(cfg: Config, draws: map<CourtId, seq<Draw>>, c: CourtId)
    requires JuriesOk(cfg, draws)
    ensures DrawsOk(cfg, DrawsIn(draws, c)) && OpenedOk(cfg, DrawsIn(draws, c))
  {
  }

  /** The ends of a round follow from its start. */
  ghost predicate RoundOk(cfg: Config, r: RoundTiming) { r == RoundFrom(cfg, r.preVote) }

  /** So the windows follow each other, and take their full periods unless block numbers saturate. */
  lemma {:induction false} WindowsFollow(cfg: Config, r: RoundTiming)
    requires RoundOk(cfg, r)
    ensures r.preVote <= r.vote <= r.aggregation <= r.appeal
    ensures RoundFits(cfg, r.preVote) ==>
              && r.vote == r.preVote + cfg.votePeriod
              && r.aggregation == r.vote + cfg.aggregationPeriod
              && r.appeal == r.aggregation + cfg.appealPeriod
  {
  }

  ghost predicate CourtsOk(cfg: Config, courts: map<CourtId, CourtInfo>) {
    forall c :: c in courts ==> |courts[c].appeals| <= cfg.maxAppeals && RoundOk(cfg, courts[c].roundEnds)
  }

  lemma {:induction false} CourtsUpdate(cfg: Config, courts: map<CourtId, CourtInfo>, c: CourtId, court: CourtInfo)
    requires CourtsOk(cfg, courts) && |court.appeals| <= cfg.maxAppeals && RoundOk(cfg, court.roundEnds)
    ensures CourtsOk(cfg, courts[c := court])
  {
  }

  // ---- The schedule ----

  /** The next start of vote periods lies ahead, and every open court is to be resolved once, at
      the end of its appeal period, or never after the last possible appeal. */
  ghost predicate ScheduleOk(cfg: Config, s: Storage) {
    && s.now < s.requestBlock
    && forall c, t: BlockNumber :: c in s.courts && c in s.marketOf && s.courts[c].status.Open? ==>
         TimesScheduled(s.schedule, s.marketOf[c], t) == Due(cfg, s.courts[c], t)
  }

  ghost function Due(cfg: Config, court: CourtInfo, t: BlockNumber): nat {
    if t == court.roundEnds.appeal && |court.appeals| < cfg.maxAppeals then 1 else 0
  }

  /** An appeal never moves the resolution earlier, and moves it strictly later unless block
      numbers saturate. */
  lemma {:induction false} AppealMovesLater(cfg: Config, s: Storage, who: AccountId, c: CourtId)
    requires cfg.Valid() && Appealable(cfg, s, c) && CourtsOk(cfg, s.courts) && s.now < s.requestBlock
    requires |s.courts[c].appeals| + 1 < cfg.maxAppeals
    ensures s.courts[c].roundEnds.appeal <= AppealedCourt(cfg, s, who, c).roundEnds.appeal
    ensures RoundFits(cfg, s.requestBlock) ==> s.courts[c].roundEnds.appeal < AppealedCourt(cfg, s, who, c).roundEnds.appeal
  {
    hide LatestWinner;
    assert RoundOk(cfg, s.courts[c].roundEnds);
  }

  /** The schedule after an appeal: for the appealed court and for every other one. */
  lemma {:induction false} AppealSchedule(cfg: Config, s: Storage, c: CourtId, at: BlockNumber, m: MarketId, t: BlockNumber)
    requires IdsOk(s) && ScheduleOk(cfg, s) && c in s.courts && s.courts[c].status.Open?
    requires |s.courts[c].appeals| < cfg.maxAppeals && s.courts[c].roundEnds.appeal <= at
    requires AddResolve(cfg, s.schedule, s.marketOf[c], at).Ok?
    ensures TimesScheduled(RemoveResolve(AddResolve(cfg, s.schedule, s.marketOf[c], at).value,
                                         s.marketOf[c], s.courts[c].roundEnds.appeal), m, t)
         == if m == s.marketOf[c] then (if t == at then 1 else 0) else TimesScheduled(s.schedule, m, t)
  {
    var due := s.courts[c].roundEnds.appeal;
    assert TimesScheduled(s.schedule, s.marketOf[c], t) == Due(cfg, s.courts[c], t);
    assert TimesScheduled(s.schedule, s.marketOf[c], due) == Due(cfg, s.courts[c], due);
    AddResolveCounts(cfg, s.schedule, s.marketOf[c], at, m, t);
    AddResolveCounts(cfg, s.schedule, s.marketOf[c], at, s.marketOf[c], due);
    RemoveResolveCounts(AddResolve(cfg, s.schedule, s.marketOf[c], at).value, s.marketOf[c], due, m, t);
  }

  /** A court that is resolved when it is due is resolved at the end of its appeal period. */
  lemma {:induction false} ResolvedWhenDue(cfg: Config, s: Storage, m: MarketId)
    requires IdsOk(s) && ScheduleOk(cfg, s) && HasOpenCourt(s, m) && m in ScheduledAt(s.schedule, s.now)
    ensures s.now == s.courts[s.courtOf[m]].roundEnds.appeal
  {
    var c := s.courtOf[m];
    assert TimesScheduled(s.schedule, s.marketOf[c], s.now) == Due(cfg, s.courts[c], s.now);
  }

  /** The court of a disputed market, as long as there is one, is not resolved. */
  ghost predicate DisputedOk(s: Storage) {
    forall c :: c in s.courts && c in s.marketOf && s.marketOf[c] in s.disputed ==> s.courts[c].status.Open?
  }

  /** Every appealed item and every revealed item of a court is an outcome. */
  ghost predicate OutcomesOnly(court: CourtInfo, draws: seq<Draw>) {
    && (forall i :: 0 <= i < |court.appeals| ==> court.appeals[i].appealedItem.Outcome?)
    && (forall i :: 0 <= i < |draws| && draws[i].vote.Revealed? ==> draws[i].vote.item.Outcome?)
  }

  ghost predicate ItemsOk(s: Storage) {
    forall c :: c in s.courts ==> OutcomesOnly(s.courts[c], DrawsIn(s.draws, c))
  }

  /** So whatever a court resolves on is an outcome. */
  lemma {:induction false} LatestIsOutcome(court: CourtInfo, draws: seq<Draw>, report: OutcomeReport)
    requires OutcomesOnly(court, draws)
    ensures LatestWinner(court, draws, report).Outcome?
  {
    hide Score;
    var winner := Winner(draws, LastAppealed(court));
    if winner.Some? && winner != LastAppealed(court) {
      assert IsRevealed(draws, winner.value);
    }
  }

  /** Changing one court. */
  lemma {:induction false} ItemsUpdate(s: Storage, s': Storage, c: CourtId)
    requires ItemsOk(s) && c in s'.courts && OutcomesOnly(s'.courts[c], DrawsIn(s'.draws, c))
    requires forall k :: k != c && k in s'.courts ==>
               k in s.courts && s'.courts[k] == s.courts[k] && DrawsIn(s'.draws, k) == DrawsIn(s.draws, k)
    ensures ItemsOk(s')
  {
    hide OutcomesOnly;
  }

  /** Steps that keep the appeals and draws of the remaining courts, or drop draws. */
  lemma {:induction false} ItemsKept(s: Storage, s': Storage)
    requires ItemsOk(s)
    requires forall k :: k in s'.courts ==>
               && k in s.courts && s'.courts[k].appeals == s.courts[k].appeals
               && (DrawsIn(s'.draws, k) == DrawsIn(s.draws, k) || DrawsIn(s'.draws, k) == [])
    ensures ItemsOk(s')
  {
    forall k | k in s'.courts
      ensures OutcomesOnly(s'.courts[k], DrawsIn(s'.draws, k))
    {
      assert OutcomesOnly(s.courts[k], DrawsIn(s.draws, k));
    }
  }

  lemma {:induction false} FreshItems(court: CourtInfo, draws: seq<Draw>)
    requires court.appeals == [] && forall i :: 0 <= i < |draws| ==> draws[i].vote.Drawn? || draws[i].vote.Delegated?
    ensures OutcomesOnly(court, draws)
  {
  }

  /** The item of a new appeal is an outcome, and the draws are new or the old ones. */
  lemma {:induction false} AppealItems(court: CourtInfo, court': CourtInfo, draws: seq<Draw>, draws': seq<Draw>, report: OutcomeReport)
    requires OutcomesOnly(court, draws) && court'.appeals != []
    requires court'.appeals[..|court'.appeals| - 1] == court.appeals
    requires court'.appeals[|court'.appeals| - 1].appealedItem == LatestWinner(court, draws, report)
    requires draws' == draws || forall i :: 0 <= i < |draws'| ==> draws'[i].vote.Drawn? || draws'[i].vote.Delegated?
    ensures OutcomesOnly(court', draws')
  {
    LatestIsOutcome(court, draws, report);
    hide LatestWinner;
    forall i | 0 <= i < |court'.appeals|
      ensures court'.appeals[i].appealedItem.Outcome?
    {
      assert i < |court.appeals| ==> court'.appeals[i] == court.appeals[i];
    }
  }

  // ---- All of it, event by event ----

  ghost predicate StoreOk(cfg: Config, s: Storage) {
    && BenchOk(cfg, s.bench)
    && IdsOk(s)
    && JuriesOk(cfg, s.draws)
    && CourtsOk(cfg, s.courts)
    && ScheduleOk(cfg, s)
    && DisputedOk(s)
    && ItemsOk(s)
  }

  /** Calls that only move the bench, and the initialization of a block. */
  lemma {:induction false} QuietStore(cfg: Config, s: Storage, s': Storage)
    requires cfg.Valid() && StoreOk(cfg, s) && BenchOk(cfg, s'.bench)
    requires s' == s.(bench := s'.bench) || NextBlockStep(cfg, s, s')
    ensures StoreOk(cfg, s')
  {
    hide BenchOk, JuriesOk, TimesScheduled, ItemsOk;
    ItemsKept(s, s');
    forall c, t: BlockNumber | c in s'.courts && c in s'.marketOf && s'.courts[c].status.Open?
      ensures TimesScheduled(s'.schedule, s'.marketOf[c], t) == Due(cfg, s'.courts[c], t)
    {
      assert TimesScheduled(s.schedule, s.marketOf[c], t) == Due(cfg, s.courts[c], t);
    }
  }

  /** A vote call moves votes of one court, before the end of the aggregation period. */
  ghost predicate MovesVotes(s: Storage, s': Storage, c: CourtId) {
    && c in s.courts
    && s.now <= Max(s.courts[c].roundEnds.vote, s.courts[c].roundEnds.aggregation)
    && s' == s.(draws := s.draws[c := DrawsIn(s'.draws, c)])
    && DrawsMove(DrawsIn(s.draws, c), DrawsIn(s'.draws, c))
  }

  lemma {:induction false} CastStore(cfg: Config, s: Storage, s': Storage, who: AccountId, c: CourtId, commitment: Hash)
    requires JuriesOk(cfg, s.draws) && VoteStep(s, s', c, VoteCall(s, who, c, commitment))
    ensures MovesVotes(s, s', c) && OpenedOk(cfg, DrawsIn(s'.draws, c))
    ensures OutcomesOnly(s.courts[c], DrawsIn(s.draws, c)) && c in s.marketOf ==> OutcomesOnly(s.courts[c], DrawsIn(s'.draws, c))
  {
    JuryOf(cfg, s.draws, c);
    CastMoves(cfg, DrawsIn(s.draws, c), who, commitment);
  }

  lemma {:induction false} DenounceStore(cfg: Config, s: Storage, s': Storage, who: AccountId, c: CourtId,
                                         juror: AccountId, item: VoteItem, salt: Hash)
    requires JuriesOk(cfg, s.draws) && VoteStep(s, s', c, DenounceCall(cfg, s, who, c, juror, item, salt))
    ensures MovesVotes(s, s', c) && OpenedOk(cfg, DrawsIn(s'.draws, c))
    ensures OutcomesOnly(s.courts[c], DrawsIn(s.draws, c)) && c in s.marketOf ==> OutcomesOnly(s.courts[c], DrawsIn(s'.draws, c))
  {
    JuryOf(cfg, s.draws, c);
    OpenMoves(cfg, DrawsIn(s.draws, c), juror, item, salt, true);
  }

  lemma {:induction false} RevealStore(cfg: Config, s: Storage, s': Storage, who: AccountId, c: CourtId, item: VoteItem, salt: Hash)
    requires JuriesOk(cfg, s.draws) && VoteStep(s, s', c, RevealCall(cfg, s, who, c, item, salt))
    ensures MovesVotes(s, s', c) && OpenedOk(cfg, DrawsIn(s'.draws, c))
    ensures OutcomesOnly(s.courts[c], DrawsIn(s.draws, c)) && c in s.marketOf ==> OutcomesOnly(s.courts[c], DrawsIn(s'.draws, c))
  {
    JuryOf(cfg, s.draws, c);
    OpenMoves(cfg, DrawsIn(s.draws, c), who, item, salt, false);
  }

  lemma {:induction false} VotesStore(cfg: Config, s: Storage, s': Storage, c: CourtId)
    requires StoreOk(cfg, s) && MovesVotes(s, s', c) && OpenedOk(cfg, DrawsIn(s'.draws, c))
    requires OutcomesOnly(s.courts[c], DrawsIn(s'.draws, c))
    ensures StoreOk(cfg, s')
  {
    hide BenchOk, DrawsOk, OpenedOk, DrawsMove, TimesScheduled, OutcomesOnly, ItemsOk;
    ItemsUpdate(s, s', c);
    JuryOf(cfg, s.draws, c);
    MovesKeepShape(cfg, DrawsIn(s.draws, c), DrawsIn(s'.draws, c));
    JuriesUpdate(cfg, s.draws, c, DrawsIn(s'.draws, c));
    forall k, t: BlockNumber | k in s'.courts && k in s'.marketOf && s'.courts[k].status.Open?
      ensures TimesScheduled(s'.schedule, s'.marketOf[k], t) == Due(cfg, s'.courts[k], t)
    {
      assert TimesScheduled(s.schedule, s.marketOf[k], t) == Due(cfg, s.courts[k], t);
    }
  }

  lemma {:induction false} VotePerformed(cfg: Config, s: Storage, s': Storage, who: AccountId, c: CourtId, commitment: Hash)
    requires StoreOk(cfg, s) && VoteStep(s, s', c, VoteCall(s, who, c, commitment))
    ensures StoreOk(cfg, s')
  {
    hide BenchOk, IdsOk, JuriesOk, CourtsOk, ScheduleOk, DisputedOk, ItemsOk, OutcomesOnly, OpenedOk, VoteStep;
    CastStore(cfg, s, s', who, c, commitment);
    CourtItems(cfg, s, c);
    VotesStore(cfg, s, s', c);
  }

  lemma {:induction false} DenouncePerformed(cfg: Config, s: Storage, s': Storage, who: AccountId, c: CourtId, juror: AccountId,
                                             item: VoteItem, salt: Hash)
    requires StoreOk(cfg, s) && VoteStep(s, s', c, DenounceCall(cfg, s, who, c, juror, item, salt))
    ensures StoreOk(cfg, s')
  {
    hide BenchOk, IdsOk, JuriesOk, CourtsOk, ScheduleOk, DisputedOk, ItemsOk, OutcomesOnly, OpenedOk, VoteStep;
    DenounceStore(cfg, s, s', who, c, juror, item, salt);
    CourtItems(cfg, s, c);
    VotesStore(cfg, s, s', c);
  }

  lemma {:induction false} RevealPerformed(cfg: Config, s: Storage, s': Storage, who: AccountId, c: CourtId, item: VoteItem, salt: Hash)
    requires StoreOk(cfg, s) && VoteStep(s, s', c, RevealCall(cfg, s, who, c, item, salt))
    ensures StoreOk(cfg, s')
  {
    hide BenchOk, IdsOk, JuriesOk, CourtsOk, ScheduleOk, DisputedOk, ItemsOk, OutcomesOnly, OpenedOk, VoteStep;
    RevealStore(cfg, s, s', who, c, item, salt);
    CourtItems(cfg, s, c);
    VotesStore(cfg, s, s', c);
  }

  lemma {:induction false} CourtItems(cfg: Config, s: Storage, c: CourtId)
    requires StoreOk(cfg, s) && c in s.courts
    ensures OutcomesOnly(s.courts[c], DrawsIn(s.draws, c)) && c in s.marketOf
  {
    hide BenchOk, JuriesOk, CourtsOk, ScheduleOk, DisputedOk, OutcomesOnly;
  }

  lemma {:induction false} DisputeSchedule(cfg: Config, s: Storage, s': Storage, m: MarketId)
    requires 0 < cfg.maxAppeals && IdsOk(s) && ScheduleOk(cfg, s) && m !in s.courtOf
    requires forall t: BlockNumber :: TimesScheduled(s.schedule, m, t) == 0
    requires s'.now == s.now && s'.requestBlock == s.requestBlock
    requires s'.marketOf == s.marketOf[s.nextCourtId := m]
    requires exists court: CourtInfo ::
               && s'.courts == s.courts[s.nextCourtId := court] && court.appeals == []
               && AddResolve(cfg, s.schedule, m, court.roundEnds.appeal) == Ok(s'.schedule)
    ensures ScheduleOk(cfg, s')
  {
    var at := s'.courts[s.nextCourtId].roundEnds.appeal;
    forall k, t: BlockNumber | k in s'.courts && k in s'.marketOf && s'.courts[k].status.Open?
      ensures TimesScheduled(s'.schedule, s'.marketOf[k], t) == Due(cfg, s'.courts[k], t)
    {
      AddResolveCounts(cfg, s.schedule, m, at, s'.marketOf[k], t);
      if k != s.nextCourtId {
        assert TimesScheduled(s.schedule, s.marketOf[k], t) == Due(cfg, s.courts[k], t);
      }
    }
  }

  lemma {:induction false} DisputeJury(cfg: Config, s: Storage, s': Storage, m: MarketId, log: Log)
    requires ConfigOk(cfg) && BenchOk(cfg, s.bench) && JuriesOk(cfg, s.draws) && DisputeStep(cfg, s, s', m, log)
    ensures BenchOk(cfg, s'.bench) && JuriesOk(cfg, s'.draws)
    ensures ItemsOk(s) ==> ItemsOk(s')
  {
    hide IdsOk, BenchOk, JuriesOk, DrawsOk, OpenedOk, AddResolve, RoundFrom, Chosen, ItemsOk, OutcomesOnly;
    var jury := DrawsIn(s'.draws, s.nextCourtId);
    ChosenOk(cfg, s.bench, s'.bench, NecessaryDrawsWeight(0), log, DrawsOf(Tally(cfg, log)));
    NewJury(cfg, s.bench, s'.bench, 0, log, jury);
    JuriesUpdate(cfg, s.draws, s.nextCourtId, jury);
    FreshItems(s'.courts[s.nextCourtId], jury);
    if ItemsOk(s) {
      ItemsUpdate(s, s', s.nextCourtId);
    }
  }

  lemma {:induction false} DisputeCases(cfg: Config, s: Storage, s': Storage, m: MarketId, log: Log)
    requires ConfigOk(cfg) && IdsOk(s) && CourtsOk(cfg, s.courts) && ScheduleOk(cfg, s) && DisputedOk(s)
    requires DisputeStep(cfg, s, s', m, log)
    ensures IdsOk(s') && CourtsOk(cfg, s'.courts) && ScheduleOk(cfg, s') && DisputedOk(s')
  {
    hide Selected, AddResolve;
    CourtsUpdate(cfg, s.courts, s.nextCourtId, s'.courts[s.nextCourtId]);
    IdsOpened(s, s', m);
    DisputeSchedule(cfg, s, s', m);
  }

  lemma {:induction false} AppealJury(cfg: Config, s: Storage, s': Storage, who: AccountId, c: CourtId, log: Log)
    requires ConfigOk(cfg) && BenchOk(cfg, s.bench) && JuriesOk(cfg, s.draws) && AppealStep(cfg, s, s', who, c, log)
    requires |s.courts[c].appeals| + 1 < cfg.maxAppeals
    ensures BenchOk(cfg, s'.bench) && JuriesOk(cfg, s'.draws)
    ensures forall i :: 0 <= i < |DrawsIn(s'.draws, c)| ==> DrawsIn(s'.draws, c)[i].vote.Drawn? || DrawsIn(s'.draws, c)[i].vote.Delegated?
  {
    hide BenchOk, JuriesOk, DrawsOk, OpenedOk, AddResolve, RemoveResolve, Chosen, AppealedCourt, LatestWinner;
    var drawn := Bench(s'.bench.pool, WithLocks(cfg, s.bench.participants, log), s.bench.locks);
    var number := |s.courts[c].appeals| + 1;
    ChosenOk(cfg, s.bench, drawn, NecessaryDrawsWeight(number), log, DrawsOf(Tally(cfg, log)));
    UnlockedOk(cfg, drawn, DrawsIn(s.draws, c));
    NewJury(cfg, s.bench, drawn, number, log, DrawsIn(s'.draws, c));
    JuriesUpdate(cfg, s.draws, c, DrawsIn(s'.draws, c));
  }

  lemma {:induction false} AppealCases(cfg: Config, s: Storage, s': Storage, who: AccountId, c: CourtId, log: Log)
    requires ConfigOk(cfg) && IdsOk(s) && CourtsOk(cfg, s.courts) && ScheduleOk(cfg, s) && DisputedOk(s)
    requires AppealStep(cfg, s, s', who, c, log) && |s.courts[c].appeals| + 1 < cfg.maxAppeals
    ensures IdsOk(s') && CourtsOk(cfg, s'.courts) && ScheduleOk(cfg, s') && DisputedOk(s')
  {
    hide Selected, Unlocked, AddResolve, RemoveResolve, TimesScheduled, LatestWinner;
    CourtsUpdate(cfg, s.courts, c, s'.courts[c]);
    AppealMovesLater(cfg, s, who, c);
    forall k, t: BlockNumber | k in s'.courts && k in s'.marketOf && s'.courts[k].status.Open?
      ensures TimesScheduled(s'.schedule, s'.marketOf[k], t) == Due(cfg, s'.courts[k], t)
    {
      AppealSchedule(cfg, s, c, RoundFrom(cfg, s.requestBlock).appeal, s.marketOf[k], t);
      assert TimesScheduled(s.schedule, s.marketOf[k], t) == Due(cfg, s.courts[k], t);
      assert k != c ==> s.marketOf[k] != s.marketOf[c];
    }
  }

  lemma {:induction false} AppealItemsOk(cfg: Config, s: Storage, s': Storage, who: AccountId, c: CourtId, log: Log)
    requires cfg.Valid() && ItemsOk(s) && AppealStep(cfg, s, s', who, c, log)
    requires var draws' := DrawsIn(s'.draws, c);
             || draws' == DrawsIn(s.draws, c)
             || forall i :: 0 <= i < |draws'| ==> draws'[i].vote.Drawn? || draws'[i].vote.Delegated?
    ensures ItemsOk(s')
  {
    hide Selected, AddResolve, RemoveResolve, RoundFrom, Unlocked, LatestWinner, WithLocks, OutcomesOnly;
    var court, court' := s.courts[c], s'.courts[c];
    assert court'.appeals[..|court'.appeals| - 1] == court.appeals;
    assert OutcomesOnly(court, DrawsIn(s.draws, c));
    AppealItems(court, court', DrawsIn(s.draws, c), DrawsIn(s'.draws, c), s.markets[s.marketOf[c]].report.value);
    ItemsUpdate(s, s', c);
  }

  lemma {:induction false} LastAppealStore(cfg: Config, s: Storage, s': Storage, who: AccountId, c: CourtId, log: Log)
    requires ConfigOk(cfg) && StoreOk(cfg, s) && AppealStep(cfg, s, s', who, c, log)
    requires |s.courts[c].appeals| + 1 == cfg.maxAppeals
    ensures StoreOk(cfg, s')
  {
    hide BenchOk, JuriesOk, Selected, TimesScheduled, RemoveResolve, LatestWinner, ItemsOk, OutcomesOnly;
    AppealItemsOk(cfg, s, s', who, c, log);
    var due := s.courts[c].roundEnds.appeal;
    forall k, t: BlockNumber | k in s'.courts && k in s'.marketOf && s'.courts[k].status.Open?
      ensures TimesScheduled(s'.schedule, s'.marketOf[k], t) == Due(cfg, s'.courts[k], t)
    {
      RemoveResolveCounts(s.schedule, s.marketOf[c], due, s.marketOf[k], t);
      assert TimesScheduled(s.schedule, s.marketOf[k], t) == Due(cfg, s.courts[k], t);
      assert k != c ==> s.marketOf[k] != s.marketOf[c];
    }
  }

  lemma {:induction false} ResolveItems(s: Storage, s': Storage, m: MarketId)
    requires ItemsOk(s) && ResolveStep(s, s', m)
    ensures ItemsOk(s')
  {
    hide Unlocked, RemoveResolve, LatestWinner, ItemsOk;
    ItemsKept(s, s');
  }

  lemma {:induction false} AbandonItems(s: Storage, m: MarketId)
    requires ItemsOk(s) && m in s.courtOf
    ensures ItemsOk(AfterAbandon(s, m))
  {
    hide Unlocked, ItemsOk;
    ItemsKept(s, AfterAbandon(s, m));
  }

  lemma {:induction false} ReassignItems(s: Storage, s': Storage, c: CourtId)
    requires ItemsOk(s) && ReassignStep(s, s', c)
    ensures ItemsOk(s')
  {
    hide Unlocked, ItemsOk;
    ItemsKept(s, s');
  }

  lemma {:induction false} ResolveStore(cfg: Config, s: Storage, s': Storage, m: MarketId)
    requires cfg.Valid() && StoreOk(cfg, s) && ResolveStep(s, s', m)
    ensures StoreOk(cfg, s')
  {
    hide BenchOk, JuriesOk, Unlocked, TimesScheduled, RemoveResolve, LatestWinner, ItemsOk;
    ResolveItems(s, s', m);
    UnlockedOk(cfg, s.bench, DrawsIn(s.draws, s.courtOf[m]));
    forall k, t: BlockNumber | k in s'.courts && k in s'.marketOf && s'.courts[k].status.Open?
      ensures TimesScheduled(s'.schedule, s'.marketOf[k], t) == Due(cfg, s'.courts[k], t)
    {
      RemoveResolveCounts(s.schedule, m, s.courts[s.courtOf[m]].roundEnds.appeal, s.marketOf[k], t);
      assert k != s.courtOf[m] && s.marketOf[k] != m;
      assert TimesScheduled(s.schedule, s.marketOf[k], t) == Due(cfg, s.courts[k], t);
    }
  }

  /** Giving up any court keeps the invariant. */
  lemma {:induction false} AfterAbandonOk(cfg: Config, s: Storage, m: MarketId)
    requires cfg.Valid() && StoreOk(cfg, s) && m in s.courtOf
    ensures StoreOk(cfg, AfterAbandon(s, m))
  {
    hide BenchOk, JuriesOk, Unlocked, TimesScheduled, ItemsOk;
    var s' := AfterAbandon(s, m);
    AbandonItems(s, m);
    UnlockedOk(cfg, s.bench, DrawsIn(s.draws, s.courtOf[m]));
    JuriesRemove(cfg, s.draws, s.courtOf[m]);
    forall k, t: BlockNumber | k in s'.courts && k in s'.marketOf && s'.courts[k].status.Open?
      ensures TimesScheduled(s'.schedule, s'.marketOf[k], t) == Due(cfg, s'.courts[k], t)
    {
      assert TimesScheduled(s.schedule, s.marketOf[k], t) == Due(cfg, s.courts[k], t);
    }
  }

  lemma {:induction false} AbandonStore(cfg: Config, s: Storage, s': Storage, m: MarketId)
    requires cfg.Valid() && StoreOk(cfg, s) && AbandonStep(s, s', m)
    ensures StoreOk(cfg, s')
  {
    hide StoreOk, AfterAbandon;
    AfterAbandonOk(cfg, s, m);
  }

  lemma {:induction false} ReassignStore(cfg: Config, s: Storage, s': Storage, c: CourtId)
    requires cfg.Valid() && StoreOk(cfg, s) && ReassignStep(s, s', c)
    ensures StoreOk(cfg, s')
  {
    hide BenchOk, JuriesOk, Unlocked, TimesScheduled, ItemsOk;
    ReassignItems(s, s', c);
    UnlockedOk(cfg, s.bench, DrawsIn(s.draws, c));
    JuriesRemove(cfg, s.draws, c);
    forall k, t: BlockNumber | k in s'.courts && k in s'.marketOf && s'.courts[k].status.Open?
      ensures TimesScheduled(s'.schedule, s'.marketOf[k], t) == Due(cfg, s'.courts[k], t)
    {
      assert TimesScheduled(s.schedule, s.marketOf[k], t) == Due(cfg, s.courts[k], t);
    }
  }

  lemma {:induction false} JoinStore(cfg: Config, s: Storage, s': Storage, who: AccountId, amount: Balance,
                                     delegations: Option<seq<AccountId>>)
    requires ConfigOk(cfg) && StoreOk(cfg, s) && JoinStep(cfg, s, s', who, amount, delegations)
    ensures StoreOk(cfg, s')
  {
    hide BenchOk, IdsOk, JuriesOk, CourtsOk, ScheduleOk, DisputedOk, ItemsOk, Joined, JoinError, DelegationsOk;
    JoinedOk(cfg, s.bench, who, amount, delegations, Free(s, who), s.now);
    QuietStore(cfg, s, s');
  }

  lemma {:induction false} LeaveStore(cfg: Config, s: Storage, s': Storage, who: AccountId)
    requires ConfigOk(cfg) && StoreOk(cfg, s) && (PrepareExitStep(s, s', who) || ExitStep(cfg, s, s', who))
    ensures StoreOk(cfg, s')
  {
    hide BenchOk, IdsOk, JuriesOk, CourtsOk, ScheduleOk, DisputedOk, ItemsOk, Leaving, Exited;
    if PrepareExitStep(s, s', who) {
      LeavingOk(cfg, s.bench, who, s.now);
    } else {
      ExitedOk(cfg, s.bench, who, s.now);
    }
    QuietStore(cfg, s, s');
  }

  lemma {:induction false} AppealStore(cfg: Config, s: Storage, s': Storage, who: AccountId, c: CourtId, log: Log)
    requires ConfigOk(cfg) && StoreOk(cfg, s) && AppealStep(cfg, s, s', who, c, log)
    ensures StoreOk(cfg, s')
  {
    hide BenchOk, IdsOk, JuriesOk, CourtsOk, ScheduleOk, DisputedOk, ItemsOk, Selected;
    if |s.courts[c].appeals| + 1 < cfg.maxAppeals {
      AppealJury(cfg, s, s', who, c, log);
      AppealCases(cfg, s, s', who, c, log);
      AppealItemsOk(cfg, s, s', who, c, log);
    } else {
      LastAppealStore(cfg, s, s', who, c, log);
    }
  }

  /** Every step keeps the pool in agreement with the participants, the juries in shape, the
      rounds in order and the schedule exact. */
  lemma {:induction false} StoreStep(cfg: Config, s: Storage, e: Event, s': Storage)
    requires ConfigOk(cfg) && StoreOk(cfg, s) && Step(cfg, s, e, s')
    ensures StoreOk(cfg, s')
  {
    hide BenchOk, IdsOk, JuriesOk, CourtsOk, ScheduleOk, DisputedOk, ItemsOk, MovesVotes, OpenedOk;
    hide JoinStep, PrepareExitStep, ExitStep, VoteStep, DisputeStep, AppealStep, ResolveStep, AbandonStep, ReassignStep;
    match e
    case Join(who, amount, delegations) => JoinStore(cfg, s, s', who, amount, delegations);
    case PrepareExit(who) => LeaveStore(cfg, s, s', who);
    case ExitCourt(who) => LeaveStore(cfg, s, s', who);
    case CastSecret(who, c, commitment) => VotePerformed(cfg, s, s', who, c, commitment);
    case Denounce(who, c, juror, item, salt) => DenouncePerformed(cfg, s, s', who, c, juror, item, salt);
    case Reveal(who, c, item, salt) => RevealPerformed(cfg, s, s', who, c, item, salt);
    case Dispute(m, log) => DisputeJury(cfg, s, s', m, log); DisputeCases(cfg, s, s', m, log);
    case Appeal(who, c, log) => AppealStore(cfg, s, s', who, c, log);
    case Resolve(m) => ResolveStore(cfg, s, s', m);
    case Abandon(m) => AbandonStore(cfg, s, s', m);
    case Reassign(c) => ReassignStore(cfg, s, s', c);
    case NextBlock => BenchKept(cfg, s, s'); QuietStore(cfg, s, s');
  }

  lemma {:induction false} BenchKept(cfg: Config, s: Storage, s': Storage)
    requires StoreOk(cfg, s) && NextBlockStep(cfg, s, s')
    ensures BenchOk(cfg, s'.bench)
  {
    hide BenchOk;
  }
}
