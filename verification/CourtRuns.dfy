/** Runs of the court pallet: what holds after any sequence of calls. */
module CourtRuns {
  import opened Numbers
  import opened Ordered
  import opened CourtTypes
  import opened CourtPool
  import opened JurySelection
  import opened JuryDraws
  import opened CourtVotes
  import opened CourtWinner
  import opened CourtStorage
  import opened CourtSteps
  import opened CourtInvariants
  import opened CourtLocks

  // ---- What an event leaves alone ----

  /** The court an event is about. */
  function Touched(s: Storage, e: Event): Option<CourtId> {
    match e
    case CastSecret(_, c, _) => Some(c)
    case Denounce(_, c, _, _, _) => Some(c)
    case Reveal(_, c, _, _) => Some(c)
    case Dispute(_, _) => Some(s.nextCourtId)
    case Appeal(_, c, _) => Some(c)
    case Resolve(m) => if m in s.courtOf then Some(s.courtOf[m]) else None
    case Abandon(m) => if m in s.courtOf then Some(s.courtOf[m]) else None
    case Reassign(c) => Some(c)
    case _ => None
  }

  /** Nothing happens to court `c`. */
  ghost predicate LeftAlone(s: Storage, s': Storage, c: CourtId) {
    && (c in s'.courts <==> c in s.courts)
    && (c in s.courts ==> s'.courts[c] == s.courts[c])
    && (c in s'.draws <==> c in s.draws)
    && (c in s.draws ==> s'.draws[c] == s.draws[c])
  }

  ghost predicate KeepsMarkets(s: Storage, s': Storage) {
    && s'.markets == s.markets && s.now <= s'.now
    && forall c :: c in s.courts && c in s.marketOf && c != s.nextCourtId ==> c in s'.marketOf && s'.marketOf[c] == s.marketOf[c]
  }

  lemma {:induction false} AppealLeavesAlone(cfg: Config, s: Storage, s': Storage, who: AccountId, k: CourtId, log: Log, c: CourtId)
    requires cfg.Valid() && AppealStep(cfg, s, s', who, k, log) && c != k
    ensures LeftAlone(s, s', c)
  {
    hide Selected, AddResolve, RemoveResolve, RoundFrom, Unlocked, AppealedCourt, WithLocks;
    assert s'.courts == s.courts[k := AppealedCourt(cfg, s, who, k)];
  }

  lemma {:induction false} OthersLeftAlone(cfg: Config, s: Storage, e: Event, s': Storage, c: CourtId)
    requires cfg.Valid() && Step(cfg, s, e, s') && Touched(s, e) != Some(c)
    ensures LeftAlone(s, s', c)
  {
    hide AppealStep, Selected, AddResolve, RemoveResolve, RoundFrom, Unlocked, LatestWinner;
    hide VoteCall, DenounceCall, RevealCall, Joined, Leaving, Exited, TimesScheduled;
    match e
    case Appeal(who, k, log) => AppealLeavesAlone(cfg, s, s', who, k, log, c);
    case Dispute(_, _) =>
    case _ =>
  }

  lemma {:induction false} MarketsKept(cfg: Config, s: Storage, e: Event, s': Storage)
    requires cfg.Valid() && Step(cfg, s, e, s')
    ensures KeepsMarkets(s, s')
  {
    hide Selected, AddResolve, RemoveResolve, RoundFrom, Unlocked, LatestWinner, WithLocks, VoteCall, DenounceCall, RevealCall, Joined, Leaving, Exited, TimesScheduled;
    match e
    case Dispute(_, _) =>
    case Appeal(_, _, _) =>
    case _ =>
  }

  lemma {:induction false} CourtsGrow(cfg: Config, s: Storage, e: Event, s': Storage)
    requires cfg.Valid() && Step(cfg, s, e, s')
    ensures s.nextCourtId <= s'.nextCourtId
  {
    hide Selected, AddResolve, RemoveResolve, RoundFrom, Unlocked, LatestWinner, WithLocks, VoteCall, DenounceCall, RevealCall, Joined, Leaving, Exited, TimesScheduled;
    match e
    case Dispute(_, _) =>
    case Appeal(_, _, _) =>
    case _ =>
  }

  // ---- Commitments ----

  /** The last commitment of each juror in the current round of each court. */
  type Commitments = map<(CourtId, AccountId), Hash>

  function Forget(cast: Commitments, c: CourtId): Commitments {
    map k | k in cast && k.0 != c :: cast[k]
  }

  function CastAfter(cfg: Config, cast: Commitments, s: Storage, e: Event): Commitments {
    match e
    case CastSecret(who, c, commitment) => cast[(c, who) := commitment]
    case Dispute(_, _) => Forget(cast, s.nextCourtId)
    case Appeal(_, c, _) =>
      if c in s.courts && |s.courts[c].appeals| + 1 < cfg.maxAppeals then Forget(cast, c) else cast
    case _ => cast
  }

  /** A vote shows the last commitment of its juror, or that there is none. */
  ghost predicate ShowsLast(v: Vote, cast: Commitments, key: (CourtId, AccountId)) {
    match v
    case Drawn => key !in cast
    case Delegated(_) => key !in cast
    case _ => key in cast && cast[key] == v.commitment
  }

  ghost predicate JuryShows(draws: seq<Draw>, cast: Commitments, c: CourtId) {
    forall i :: 0 <= i < |draws| ==> ShowsLast(draws[i].vote, cast, (c, draws[i].participant))
  }

  ghost predicate CommitmentsOk(draws: map<CourtId, seq<Draw>>, cast: Commitments) {
    forall c :: c in draws ==> JuryShows(draws[c], cast, c)
  }

  lemma {:induction false} CastShows(draws: seq<Draw>, who: AccountId, commitment: Hash, cast: Commitments, c: CourtId)
    requires DrawsSorted(draws) && CastVote(draws, who, commitment).Ok? && JuryShows(draws, cast, c)
    ensures JuryShows(CastVote(draws, who, commitment).value, cast[(c, who) := commitment], c)
  {
  }

  lemma {:induction false} OpenShows(cfg: Config, draws: seq<Draw>, juror: AccountId, item: VoteItem, salt: Hash,
                                     denounce: bool, cast: Commitments, c: CourtId)
    requires OpenVote(cfg, draws, juror, item, salt, denounce).Ok? && JuryShows(draws, cast, c)
    ensures JuryShows(OpenVote(cfg, draws, juror, item, salt, denounce).value, cast, c)
  {
    var i := FindDraw(draws, juror).value;
    assert ShowsLast(draws[i].vote, cast, (c, draws[i].participant));
  }

  lemma {:induction false} NewJuryShows(draws: seq<Draw>, cast: Commitments, c: CourtId)
    requires forall i :: 0 <= i < |draws| ==> draws[i].vote.Drawn? || draws[i].vote.Delegated?
    ensures JuryShows(draws, Forget(cast, c), c)
  {
  }

  /** What happens in one court does not concern the others. */
  lemma {:induction false} OtherJuries(draws: map<CourtId, seq<Draw>>, cast: Commitments, cast': Commitments, c: CourtId, jury: seq<Draw>)
    requires CommitmentsOk(draws, cast) && JuryShows(jury, cast', c)
    requires forall k: (CourtId, AccountId) :: k.0 != c ==> (k in cast <==> k in cast') && (k in cast ==> cast[k] == cast'[k])
    ensures CommitmentsOk(draws[c := jury], cast')
  {
    forall d | d in draws && d != c
      ensures JuryShows(draws[d], cast', d)
    {
      forall i | 0 <= i < |draws[d]|
        ensures ShowsLast(draws[d][i].vote, cast', (d, draws[d][i].participant))
      {
        assert ShowsLast(draws[d][i].vote, cast, (d, draws[d][i].participant));
        var k: (CourtId, AccountId) := (d, draws[d][i].participant);
        assert k.0 != c;
      }
    }
  }

  lemma {:induction false} EmptyJuryShows(draws: map<CourtId, seq<Draw>>, cast: Commitments, c: CourtId)
    requires CommitmentsOk(draws, cast)
    ensures JuryShows(DrawsIn(draws, c), cast, c)
  {
  }

  lemma {:induction false} VoteCommitments(cfg: Config, s: Storage, e: Event, s': Storage, cast: Commitments)
    requires cfg.Valid() && JuriesOk(cfg, s.draws) && CommitmentsOk(s.draws, cast) && Step(cfg, s, e, s')
    requires e.CastSecret? || e.Denounce? || e.Reveal?
    ensures CommitmentsOk(s'.draws, CastAfter(cfg, cast, s, e))
  {
    hide DrawsOk, OpenedOk, JuryShows, JuriesOk, CommitmentsOk;
    var draws, cast' := DrawsIn(s.draws, e.c), CastAfter(cfg, cast, s, e);
    JuryOf(cfg, s.draws, e.c);
    EmptyJuryShows(s.draws, cast, e.c);
    match e {
      case CastSecret(who, c, commitment) => CastShows(draws, who, commitment, cast, c);
      case Denounce(who, c, juror, item, salt) => OpenShows(cfg, draws, juror, item, salt, true, cast, c);
      case Reveal(who, c, item, salt) => OpenShows(cfg, draws, who, item, salt, false, cast, c);
    }
    OtherJuries(s.draws, cast, cast', e.c, DrawsIn(s'.draws, e.c));
  }

  lemma {:induction false} JuryCommitments(cfg: Config, s: Storage, e: Event, s': Storage, cast: Commitments)
    requires ConfigOk(cfg) && BenchOk(cfg, s.bench) && CommitmentsOk(s.draws, cast) && Step(cfg, s, e, s')
    requires e.Dispute? || (e.Appeal? && |s.courts[e.c].appeals| + 1 < cfg.maxAppeals)
    ensures CommitmentsOk(s'.draws, CastAfter(cfg, cast, s, e))
  {
    hide BenchOk, DrawsOk, OpenedOk, CommitmentsOk, Chosen, JuryShows, AddResolve, RemoveResolve, RoundFrom, LatestWinner;
    var c := if e.Dispute? then s.nextCourtId else e.c;
    var jury := DrawsIn(s'.draws, c);
    match e {
      case Dispute(m, log) => NewJury(cfg, s.bench, s'.bench, 0, log, jury);
      case Appeal(who, _, log) =>
        var drawn := Bench(s'.bench.pool, WithLocks(cfg, s.bench.participants, log), s.bench.locks);
        NewJury(cfg, s.bench, drawn, |s.courts[c].appeals| + 1, log, jury);
    }
    NewJuryShows(jury, cast, c);
    OtherJuries(s.draws, cast, Forget(cast, c), c, jury);
  }

  lemma {:induction false} CommitmentStep(cfg: Config, s: Storage, e: Event, s': Storage, cast: Commitments)
    requires ConfigOk(cfg) && StoreOk(cfg, s) && CommitmentsOk(s.draws, cast) && Step(cfg, s, e, s')
    ensures CommitmentsOk(s'.draws, CastAfter(cfg, cast, s, e))
  {
    hide BenchOk, JuriesOk, IdsOk, CourtsOk, ScheduleOk, DisputedOk, ItemsOk, JuryShows, Selected;
    if e.CastSecret? || e.Denounce? || e.Reveal? {
      VoteCommitments(cfg, s, e, s', cast);
    } else if e.Dispute? || (e.Appeal? && |s.courts[e.c].appeals| + 1 < cfg.maxAppeals) {
      JuryCommitments(cfg, s, e, s', cast);
    }
  }

  // ---- Recorded winners ----

  /** The courts that were resolved before the end of their aggregation period. */
  function EarlyAfter(s: Storage, early: set<CourtId>, e: Event): set<CourtId> {
    if e.Resolve? && e.m in s.courtOf && s.courtOf[e.m] in s.courts
       && s.now <= s.courts[s.courtOf[e.m]].roundEnds.aggregation then early + {s.courtOf[e.m]}
    else early
  }

  /** The winner recorded at the resolution is still the winner of the stored draws, unless the
      court was resolved early. */
  ghost predicate WinnersOk(s: Storage, early: set<CourtId>) {
    forall c :: c in s.courts && s.courts[c].status.Closed? && c !in early ==> WinnerStands(s, c)
  }

  ghost predicate WinnerStands(s: Storage, c: CourtId)
    requires c in s.courts && s.courts[c].status.Closed?
  {
    && c in s.marketOf && s.marketOf[c] in s.markets && s.markets[s.marketOf[c]].report.Some?
    && s.courts[c].roundEnds.aggregation < s.now
    && s.courts[c].status.winner
       == LatestWinner(s.courts[c], DrawsIn(s.draws, c), s.markets[s.marketOf[c]].report.value)
  }

  /** A court that nothing happens to keeps its winner. */
  lemma {:induction false} WinnerKept(s: Storage, s': Storage, c: CourtId)
    requires c in s.courts && s.courts[c].status.Closed? && WinnerStands(s, c)
    requires c in s'.courts && s'.courts[c] == s.courts[c] && DrawsIn(s'.draws, c) == DrawsIn(s.draws, c)
    requires c in s'.marketOf && s'.marketOf[c] == s.marketOf[c] && s'.markets == s.markets && s.now <= s'.now
    ensures WinnerStands(s', c)
  {
  }

  lemma {:induction false} VoteWinners(cfg: Config, s: Storage, s': Storage, c: CourtId, early: set<CourtId>)
    requires CourtsOk(cfg, s.courts) && WinnersOk(s, early) && MovesVotes(s, s', c)
    ensures WinnersOk(s', early)
  {
    WindowsFollow(cfg, s.courts[c].roundEnds);
    forall k | k in s'.courts && s'.courts[k].status.Closed? && k !in early
      ensures WinnerStands(s', k)
    {
      assert WinnerStands(s, k);
      WinnerKept(s, s', k);
    }
  }

  lemma {:induction false} ResolveWinners(s: Storage, s': Storage, m: MarketId, early: set<CourtId>)
    requires IdsOk(s) && WinnersOk(s, early) && ResolveStep(s, s', m)
    ensures WinnersOk(s', EarlyAfter(s, early, Resolve(m)))
  {
    hide LatestWinner, Unlocked, RemoveResolve;
    var c := s.courtOf[m];
    forall k | k in s'.courts && s'.courts[k].status.Closed? && k !in EarlyAfter(s, early, Resolve(m))
      ensures WinnerStands(s', k)
    {
      if k != c {
        assert WinnerStands(s, k);
        WinnerKept(s, s', k);
      } else {
        SameLatest(s.courts[c], s'.courts[c], DrawsIn(s.draws, c), s.markets[m].report.value);
      }
    }
  }

  lemma {:induction false} SameLatest(court: CourtInfo, court': CourtInfo, draws: seq<Draw>, report: OutcomeReport)
    requires court'.appeals == court.appeals
    ensures LatestWinner(court', draws, report) == LatestWinner(court, draws, report)
  {
  }

  /** Steps that leave closed courts alone. */
  lemma {:induction false} OtherWinners(cfg: Config, s: Storage, e: Event, s': Storage, early: set<CourtId>)
    requires cfg.Valid() && IdsOk(s) && WinnersOk(s, early) && Step(cfg, s, e, s')
    requires !e.Resolve? && !e.CastSecret? && !e.Denounce? && !e.Reveal?
    ensures WinnersOk(s', early)
  {
    hide Step, WinnerStands, LatestWinner;
    MarketsKept(cfg, s, e, s');
    forall k | k in s'.courts && s'.courts[k].status.Closed? && k !in early
      ensures WinnerStands(s', k)
    {
      TouchedNotClosed(cfg, s, e, s', k);
      OthersLeftAlone(cfg, s, e, s', k);
      assert WinnerStands(s, k);
      WinnerKept(s, s', k);
    }
  }

  /** Only a resolution leaves a court closed that it was about. */
  lemma {:induction false} TouchedNotClosed(cfg: Config, s: Storage, e: Event, s': Storage, k: CourtId)
    requires cfg.Valid() && Step(cfg, s, e, s') && k in s'.courts && s'.courts[k].status.Closed?
    requires !e.Resolve? && !e.CastSecret? && !e.Denounce? && !e.Reveal?
    ensures Touched(s, e) != Some(k)
  {
    hide Selected, AddResolve, RemoveResolve, RoundFrom, Unlocked, LatestWinner, WithLocks, VoteCall, DenounceCall, RevealCall, Joined, Leaving, Exited, TimesScheduled;
    match e
    case Dispute(_, _) =>
    case Appeal(_, _, _) =>
    case _ =>
  }

  lemma {:induction false} WinnerStep(cfg: Config, s: Storage, e: Event, s': Storage, early: set<CourtId>)
    requires ConfigOk(cfg) && StoreOk(cfg, s) && WinnersOk(s, early) && Step(cfg, s, e, s')
    ensures WinnersOk(s', EarlyAfter(s, early, e))
  {
    hide BenchOk, JuriesOk, WinnersOk, IdsOk, CourtsOk, ScheduleOk, DisputedOk, ItemsOk, MovesVotes, OpenedOk;
    hide JoinStep, PrepareExitStep, ExitStep, VoteStep, DisputeStep, AppealStep, ResolveStep, AbandonStep, ReassignStep;
    match e
    case CastSecret(who, c, commitment) => CastStore(cfg, s, s', who, c, commitment); VoteWinners(cfg, s, s', c, early);
    case Denounce(who, c, juror, item, salt) =>
      DenounceStore(cfg, s, s', who, c, juror, item, salt);
      VoteWinners(cfg, s, s', c, early);
    case Reveal(who, c, item, salt) => RevealStore(cfg, s, s', who, c, item, salt); VoteWinners(cfg, s, s', c, early);
    case Resolve(m) => ResolveWinners(s, s', m, early);
    case _ => OtherWinners(cfg, s, e, s', early);
  }

  // ---- Runs ----

  /** The storage, all hits of all draws so far, the last commitments and the courts that were
      resolved early. */
  datatype World = World(s: Storage, hits: Log, cast: Commitments, early: set<CourtId>)

  /** The first block: nobody has joined, nothing is disputed. */
  ghost predicate Initial(cfg: Config, w: World) {
    && w.s.bench == Bench([], map[], map[])
    && w.s.courts == map[] && w.s.draws == map[] && w.s.marketOf == map[] && w.s.courtOf == map[]
    && w.s.nextCourtId == 0
    && w.s.now < w.s.requestBlock
    && w.hits == [] && w.cast == map[] && w.early == {}
  }

  /** The record of hits and commitments follows the events. */
  ghost predicate Recorded(cfg: Config, w: World, e: Event, w': World) {
    && w'.hits == w.hits + HitsOf(e)
    && w'.cast == CastAfter(cfg, w.cast, w.s, e)
    && w'.early == EarlyAfter(w.s, w.early, e)
  }

  ghost predicate Run(cfg: Config, ws: seq<World>, es: seq<Event>)
    requires cfg.Valid()
  {
    && |ws| == |es| + 1
    && Initial(cfg, ws[0])
    && (forall i :: 0 <= i < |es| ==> Step(cfg, ws[i].s, es[i], ws[i + 1].s))
    && (forall i :: 0 <= i < |es| ==> Recorded(cfg, ws[i], es[i], ws[i + 1]))
  }

  ghost predicate WorldOk(cfg: Config, w: World) {
    && StoreOk(cfg, w.s)
    && CommitmentsOk(w.s.draws, w.cast)
    && WinnersOk(w.s, w.early)
    && forall a: AccountId :: AccountBounded(cfg, w.s, w.hits, a)
  }

  lemma {:induction false} InitialOk(cfg: Config, w: World)
    requires cfg.Valid() && Initial(cfg, w)
    ensures WorldOk(cfg, w) && forall a: AccountId :: AccountCovered(cfg, w.s, w.hits, 0, a)
  {
  }

  lemma {:induction false} WorldStep(cfg: Config, w: World, e: Event, w': World)
    requires ConfigOk(cfg) && WorldOk(cfg, w) && Step(cfg, w.s, e, w'.s) && Recorded(cfg, w, e, w')
    ensures WorldOk(cfg, w')
  {
    hide Step, StoreOk, CommitmentsOk, WinnersOk, CastAfter, EarlyAfter;
    StoreStep(cfg, w.s, e, w'.s);
    CommitmentStep(cfg, w.s, e, w'.s, w.cast);
    WinnerStep(cfg, w.s, e, w'.s, w.early);
    forall a: AccountId
      ensures AccountBounded(cfg, w'.s, w'.hits, a)
    {
      assert AccountBounded(cfg, w.s, w.hits, a);
      LockStep(cfg, w.s, e, w'.s, w.hits, 0, a);
    }
  }

  /** In every reachable state the pool agrees with the participants, juries have their shape,
      rounds and schedule are exact, every vote shows the last commitment, recorded winners
      stand, and no account has more locked than open courts and failed hits account for. */
  lemma {:induction false} RunTheorem(cfg: Config, ws: seq<World>, es: seq<Event>, i: nat)
    requires ConfigOk(cfg) && Run(cfg, ws, es) && i < |ws|
    ensures WorldOk(cfg, ws[i])
  {
    hide Step, WorldOk, Recorded;
    if i == 0 {
      InitialOk(cfg, ws[0]);
    } else {
      RunTheorem(cfg, ws, es, i - 1);
      assert Step(cfg, ws[i - 1].s, es[i - 1], ws[i].s) && Recorded(cfg, ws[i - 1], es[i - 1], ws[i]);
      WorldStep(cfg, ws[i - 1], es[i - 1], ws[i]);
    }
  }

  /** What reassignments have subtracted from the account's lock a second time. */
  function ReassignedStake(ws: seq<World>, es: seq<Event>, i: nat, a: AccountId): nat
    requires i < |ws| && i <= |es|
  {
    if i == 0 then 0 else ReassignedStake(ws, es, i - 1, a) + SubtractedAgain(ws[i - 1].s, es[i - 1], a)
  }

  /** In every run every account has what open courts put at risk and failed hits left locked, and
      is short of it by no more than what reassignments have subtracted again. */
  lemma {:induction false} LockBounds(cfg: Config, ws: seq<World>, es: seq<Event>, i: nat, a: AccountId)
    requires ConfigOk(cfg) && Run(cfg, ws, es) && i < |ws|
    ensures ActiveLock(ws[i].s.bench, a) <= RiskOf(ws[i].s, a) + Leaked(cfg, ws[i].hits, a)
    ensures RiskOf(ws[i].s, a) + Leaked(cfg, ws[i].hits, a) <= ActiveLock(ws[i].s.bench, a) + ReassignedStake(ws, es, i, a)
  {
    hide Step, StoreOk, CommitmentsOk, WinnersOk, RiskOf, ActiveLock, Leaked, SubtractedAgain;
    RunTheorem(cfg, ws, es, i);
    assert AccountBounded(cfg, ws[i].s, ws[i].hits, a);
    if i == 0 {
      InitialOk(cfg, ws[0]);
      assert AccountCovered(cfg, ws[0].s, ws[0].hits, 0, a);
    } else {
      LockBounds(cfg, ws, es, i - 1, a);
      RunTheorem(cfg, ws, es, i - 1);
      assert Step(cfg, ws[i - 1].s, es[i - 1], ws[i].s) && Recorded(cfg, ws[i - 1], es[i - 1], ws[i]);
      LockStep(cfg, ws[i - 1].s, es[i - 1], ws[i].s, ws[i - 1].hits, ReassignedStake(ws, es, i - 1, a), a);
    }
  }

  /** As long as no reassigned court had put the account's stake at risk, the lock is exact. */
  lemma {:induction false} LockTheorem(cfg: Config, ws: seq<World>, es: seq<Event>, i: nat, a: AccountId)
    requires ConfigOk(cfg) && Run(cfg, ws, es) && i < |ws| && ReassignedStake(ws, es, i, a) == 0
    ensures ActiveLock(ws[i].s.bench, a) == RiskOf(ws[i].s, a) + Leaked(cfg, ws[i].hits, a)
  {
    LockBounds(cfg, ws, es, i, a);
  }

  /** So releasing a jury never runs short, and every draw with something at risk still has its
      participant. */
  lemma {:induction false} ReleaseNeverSaturates(cfg: Config, ws: seq<World>, es: seq<Event>, i: nat, c: CourtId, a: AccountId)
    requires ConfigOk(cfg) && Run(cfg, ws, es) && i < |ws| && ReassignedStake(ws, es, i, a) == 0
    requires c in ws[i].s.courts && ws[i].s.courts[c].status.Open?
    ensures SlashFor(DrawsIn(ws[i].s.draws, c), a) <= ActiveLock(ws[i].s.bench, a)
    ensures 0 < SlashFor(DrawsIn(ws[i].s.draws, c), a) ==> a in ws[i].s.bench.participants
  {
    hide Step, Leaked;
    LockTheorem(cfg, ws, es, i, a);
    RunTheorem(cfg, ws, es, i);
    RiskWithin(ws[i].s.courts, ws[i].s.draws, a, ws[i].s.nextCourtId, c);
  }

  lemma {:induction false} HitsGrow(cfg: Config, ws: seq<World>, es: seq<Event>, i: nat, j: nat, a: AccountId)
    requires cfg.Valid() && Run(cfg, ws, es) && i <= j < |ws|
    ensures Leaked(cfg, ws[i].hits, a) <= Leaked(cfg, ws[j].hits, a)
    decreases j
  {
    hide Step;
    if i < j {
      HitsGrow(cfg, ws, es, i, j - 1, a);
      assert Recorded(cfg, ws[j - 1], es[j - 1], ws[j]);
      LeakedConcat(cfg, ws[j - 1].hits, HitsOf(es[j - 1]), a);
    }
  }

  /** What a failed hit has locked stays locked: only what reassignments subtract again can
      release it. */
  lemma {:induction false} LeakStays(cfg: Config, ws: seq<World>, es: seq<Event>, i: nat, j: nat, a: AccountId)
    requires ConfigOk(cfg) && Run(cfg, ws, es) && i <= j < |ws|
    ensures Leaked(cfg, ws[i].hits, a) <= ActiveLock(ws[j].s.bench, a) + ReassignedStake(ws, es, j, a)
  {
    hide Step, StoreOk;
    HitsGrow(cfg, ws, es, i, j, a);
    LockBounds(cfg, ws, es, j, a);
  }

  // ---- Reassignment ----

  /** After a reassignment the lock still covers what open courts put at risk if and only if there
      is nothing at risk, or the lock was large enough for the reassigned court as well: the
      resolution has released that stake already. */
  lemma {:induction false} ReassignCoversIff(s: Storage, s': Storage, c: CourtId, a: AccountId)
    requires ReassignStep(s, s', c)
    ensures RiskOf(s', a) <= ActiveLock(s'.bench, a)
       <==> RiskOf(s, a) == 0 || RiskOf(s, a) + SlashFor(DrawsIn(s.draws, c), a) <= ActiveLock(s.bench, a)
  {
    ReassignLocks(s, s', c, a);
  }

  // ---- A round ----

  /** Where a vote can get within a round. */
  ghost predicate VoteProgress(v: Vote, v': Vote) {
    match v
    case Drawn => !v'.Delegated?
    case Secret(_) => v'.Secret? || v'.Revealed? || v'.Denounced?
    case _ => v' == v
  }

  ghost predicate DrawsProgress(draws: seq<Draw>, draws': seq<Draw>) {
    && |draws'| == |draws|
    && forall i :: 0 <= i < |draws| ==>
         draws'[i] == draws[i].(vote := draws'[i].vote) && VoteProgress(draws[i].vote, draws'[i].vote)
  }

  /** The event does not end the round of the court. */
  ghost predicate SameRound(s: Storage, e: Event, c: CourtId) {
    && !(e.Appeal? && e.c == c)
    && !(e.Abandon? && e.m in s.courtOf && s.courtOf[e.m] == c)
    && !(e.Reassign? && e.c == c)
  }

  lemma {:induction false} RoundStep(cfg: Config, s: Storage, e: Event, s': Storage, c: CourtId)
    requires ConfigOk(cfg) && StoreOk(cfg, s) && Step(cfg, s, e, s') && c in s.draws && SameRound(s, e, c)
    ensures c in s'.draws && c in s'.courts && s'.courts[c].roundEnds == s.courts[c].roundEnds && s.now <= s'.now
    ensures DrawsMove(s.draws[c], s'.draws[c])
    ensures s.courts[c].roundEnds.aggregation < s.now ==> s'.draws[c] == s.draws[c]
  {
    hide BenchOk, JuriesOk, CourtsOk, ScheduleOk, DisputedOk, ItemsOk, Selected, Unlocked, LatestWinner;
    MarketsKept(cfg, s, e, s');
    if Touched(s, e) != Some(c) {
      OthersLeftAlone(cfg, s, e, s', c);
    } else if e.Resolve? {
      assert s'.draws == s.draws;
    } else {
      RoundVote(cfg, s, e, s', c);
    }
  }

  lemma {:induction false} RoundVote(cfg: Config, s: Storage, e: Event, s': Storage, c: CourtId)
    requires cfg.Valid() && JuriesOk(cfg, s.draws) && CourtsOk(cfg, s.courts) && Step(cfg, s, e, s') && c in s.draws
    requires (e.CastSecret? || e.Denounce? || e.Reveal?) && e.c == c
    ensures c in s'.draws && s'.courts == s.courts && c in s.courts && s.now <= s.courts[c].roundEnds.aggregation
    ensures DrawsMove(s.draws[c], s'.draws[c])
  {
    match e {
      case CastSecret(who, k, commitment) => CastStore(cfg, s, s', who, k, commitment);
      case Denounce(who, k, juror, item, salt) => DenounceStore(cfg, s, s', who, k, juror, item, salt);
      case Reveal(who, k, item, salt) => RevealStore(cfg, s, s', who, k, item, salt);
    }
    assert RoundOk(cfg, s.courts[c].roundEnds);
  }

  /** Within a round the jury is fixed, votes only advance, opened votes and delegations are
      final; after the aggregation period nothing changes at all. */
  lemma {:induction false} RoundTheorem(cfg: Config, ws: seq<World>, es: seq<Event>, i: nat, j: nat, c: CourtId)
    requires ConfigOk(cfg) && Run(cfg, ws, es) && i <= j < |ws|
    requires c in ws[i].s.draws && forall k :: i <= k < j ==> SameRound(ws[k].s, es[k], c)
    ensures c in ws[j].s.draws && c in ws[i].s.courts && c in ws[j].s.courts
    ensures ws[j].s.courts[c].roundEnds == ws[i].s.courts[c].roundEnds && ws[i].s.now <= ws[j].s.now
    ensures DrawsProgress(ws[i].s.draws[c], ws[j].s.draws[c])
    ensures ws[i].s.courts[c].roundEnds.aggregation < ws[i].s.now ==> ws[j].s.draws[c] == ws[i].s.draws[c]
    decreases j
  {
    hide Step, StoreOk, SameRound, DrawsProgress, DrawsMove, CommitmentsOk, WinnersOk;
    RunTheorem(cfg, ws, es, i);
    RoundStart(cfg, ws[i].s, c);
    if i < j {
      RoundTheorem(cfg, ws, es, i, j - 1, c);
      RunTheorem(cfg, ws, es, j - 1);
      assert Step(cfg, ws[j - 1].s, es[j - 1], ws[j].s);
      assert SameRound(ws[j - 1].s, es[j - 1], c);
      RoundStep(cfg, ws[j - 1].s, es[j - 1], ws[j].s, c);
      ProgressThenMove(ws[i].s.draws[c], ws[j - 1].s.draws[c], ws[j].s.draws[c]);
    }
  }

  lemma {:induction false} RoundStart(cfg: Config, s: Storage, c: CourtId)
    requires StoreOk(cfg, s) && c in s.draws
    ensures c in s.courts && DrawsProgress(s.draws[c], s.draws[c])
  {
    hide BenchOk, JuriesOk, CourtsOk, ScheduleOk, DisputedOk, ItemsOk;
  }

  lemma {:induction false} ProgressThenMove(a: seq<Draw>, b: seq<Draw>, c: seq<Draw>)
    requires DrawsProgress(a, b) && DrawsMove(b, c)
    ensures DrawsProgress(a, c)
  {
    forall i | 0 <= i < |a|
      ensures c[i] == a[i].(vote := c[i].vote) && VoteProgress(a[i].vote, c[i].vote)
    {
      assert b[i] == a[i].(vote := b[i].vote) && c[i] == b[i].(vote := c[i].vote);
      assert VoteProgress(a[i].vote, b[i].vote) && VoteMoves(b[i].vote, c[i].vote);
    }
  }
}
