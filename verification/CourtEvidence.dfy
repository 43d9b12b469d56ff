/** Where the votes of a court come from: every vote that is stored goes back to a call of the right
    account in the right period of the same round, and every such call is stored. */
module CourtEvidence {
  import opened Numbers
  import opened CourtTypes
  import opened CourtPool
  import opened JurySelection
  import opened JuryDraws
  import opened CourtVotes
  import opened CourtStorage
  import opened CourtSteps
  import opened CourtInvariants
  import opened CourtLocks
  import opened CourtRuns
  import opened CourtMembership

  // ---- What a call does ----

  ghost predicate InVotePeriod(s: Storage, c: CourtId) {
    c in s.courts && s.courts[c].roundEnds.preVote < s.now <= s.courts[c].roundEnds.vote
  }

  ghost predicate InAggregationPeriod(s: Storage, c: CourtId) {
    c in s.courts && s.courts[c].roundEnds.vote < s.now <= s.courts[c].roundEnds.aggregation
  }

  /** The outcome is one of the categories of the market, or a number for a scalar market. */
  ghost predicate IsOutcomeOf(market: MarketType, o: OutcomeReport) {
    || (market.CategoricalMarket? && exists i :: 0 <= i < market.categories && o == Categorical(i))
    || (market.ScalarMarket? && exists x :: o == Scalar(x))
  }

  lemma {:induction false} OutcomeMatches(market: Market, o: OutcomeReport)
    ensures market.Matches(o) <==> IsOutcomeOf(market.marketType, o)
  {
    match o
    case Categorical(i) =>
    case Scalar(x) => assert o == Scalar(x);
  }

  /** The item is of the kind of the court and fits its market. */
  ghost predicate Fitting(s: Storage, c: CourtId, item: VoteItem) {
    && c in s.courts
    && (s.courts[c].itemType == (if item.Outcome? then OutcomeType else BinaryType))
    && (c in s.marketOf ==>
          s.marketOf[c] in s.markets && item.Outcome? && IsOutcomeOf(s.markets[s.marketOf[c]].marketType, item.report))
  }

  lemma {:induction false} FittingIff(s: Storage, c: CourtId, item: VoteItem)
    ensures Fitting(s, c, item) <==> c in s.courts && MarketItemError(s, c, item).None? && ItemTypeError(s.courts[c], item).None?
  {
    hide IsOutcomeOf;
    if c in s.marketOf && s.marketOf[c] in s.markets && item.Outcome? {
      OutcomeMatches(s.markets[s.marketOf[c]], item.report);
    }
  }

  /** A vote is accepted exactly in the vote period, from a drawn juror whose vote is not opened, and
      then it is the secret vote of that juror. */
  lemma {:induction false} CastIff(s: Storage, who: AccountId, c: CourtId, commitment: Hash)
    requires DrawsSorted(DrawsIn(s.draws, c))
    ensures var draws := DrawsIn(s.draws, c);
            VoteCall(s, who, c, commitment).Ok? <==>
              && InVotePeriod(s, c)
              && exists k :: 0 <= k < |draws| && draws[k].participant == who && (draws[k].vote.Drawn? || draws[k].vote.Secret?)
    ensures var draws := DrawsIn(s.draws, c);
            forall k :: 0 <= k < |draws| && draws[k].participant == who && VoteCall(s, who, c, commitment).Ok? ==>
              VoteCall(s, who, c, commitment).value == draws[k := draws[k].(vote := Secret(commitment))]
  {
    var draws := DrawsIn(s.draws, c);
    forall k | 0 <= k < |draws|
      ensures draws[k].participant == who <==> FindDraw(draws, who) == Some(k)
    {
      FindDrawFinds(draws, who, k);
    }
  }

  /** Opening a vote works exactly for the secret vote of the juror with this hash. */
  lemma {:induction false} OpenIff(cfg: Config, draws: seq<Draw>, juror: AccountId, item: VoteItem, salt: Hash, denounce: bool)
    requires DrawsSorted(draws)
    ensures var h := cfg.hash(juror, item, salt);
            OpenVote(cfg, draws, juror, item, salt, denounce).Ok? <==>
              exists k :: 0 <= k < |draws| && draws[k].participant == juror && draws[k].vote == Secret(h)
    ensures var h := cfg.hash(juror, item, salt);
            forall k :: 0 <= k < |draws| && draws[k].participant == juror && OpenVote(cfg, draws, juror, item, salt, denounce).Ok? ==>
              OpenVote(cfg, draws, juror, item, salt, denounce).value
              == draws[k := draws[k].(vote := if denounce then Denounced(h, item, salt) else Revealed(h, item, salt))]
  {
    forall k | 0 <= k < |draws|
      ensures draws[k].participant == juror <==> FindDraw(draws, juror) == Some(k)
    {
      FindDrawFinds(draws, juror, k);
    }
  }

  /** A reveal is accepted exactly in the aggregation period, from a participant whose secret vote has
      the hash of a fitting item, and then the vote of that juror is revealed. */
  lemma {:induction false} RevealIff(cfg: Config, s: Storage, who: AccountId, c: CourtId, item: VoteItem, salt: Hash)
    requires DrawsSorted(DrawsIn(s.draws, c))
    ensures var draws, h := DrawsIn(s.draws, c), cfg.hash(who, item, salt);
            RevealCall(cfg, s, who, c, item, salt).Ok? <==>
              && InAggregationPeriod(s, c) && Fitting(s, c, item) && who in s.bench.participants
              && exists k :: 0 <= k < |draws| && draws[k].participant == who && draws[k].vote == Secret(h)
    ensures var draws, h := DrawsIn(s.draws, c), cfg.hash(who, item, salt);
            forall k :: 0 <= k < |draws| && draws[k].participant == who && RevealCall(cfg, s, who, c, item, salt).Ok? ==>
              RevealCall(cfg, s, who, c, item, salt).value == draws[k := draws[k].(vote := Revealed(h, item, salt))]
  {
    hide OpenVote, DrawsSorted, Fitting, MarketItemError, ItemTypeError;
    FittingIff(s, c, item);
    OpenIff(cfg, DrawsIn(s.draws, c), who, item, salt, false);
  }

  /** A denunciation is accepted exactly in the vote period, from another account, for a participant
      whose secret vote has the hash of a fitting item, and then the vote of that juror is denounced. */
  lemma {:induction false} DenounceIff(cfg: Config, s: Storage, who: AccountId, c: CourtId, juror: AccountId, item: VoteItem, salt: Hash)
    requires DrawsSorted(DrawsIn(s.draws, c))
    ensures var draws, h := DrawsIn(s.draws, c), cfg.hash(juror, item, salt);
            DenounceCall(cfg, s, who, c, juror, item, salt).Ok? <==>
              && InVotePeriod(s, c) && Fitting(s, c, item) && juror in s.bench.participants && who != juror
              && exists k :: 0 <= k < |draws| && draws[k].participant == juror && draws[k].vote == Secret(h)
    ensures var draws, h := DrawsIn(s.draws, c), cfg.hash(juror, item, salt);
            forall k :: 0 <= k < |draws| && draws[k].participant == juror && DenounceCall(cfg, s, who, c, juror, item, salt).Ok? ==>
              DenounceCall(cfg, s, who, c, juror, item, salt).value == draws[k := draws[k].(vote := Denounced(h, item, salt))]
  {
    hide OpenVote, DrawsSorted, Fitting, MarketItemError, ItemTypeError;
    FittingIff(s, c, item);
    OpenIff(cfg, DrawsIn(s.draws, c), juror, item, salt, true);
  }

  // ---- The start of a round ----

  /** The event draws a new jury for the court. */
  ghost predicate StartsRound(cfg: Config, s: Storage, e: Event, c: CourtId) {
    || (e.Dispute? && s.nextCourtId == c)
    || (e.Appeal? && e.c == c && c in s.courts && |s.courts[c].appeals| + 1 < cfg.maxAppeals)
  }

  /** The draw belongs to somebody who can be drawn from `b`. */
  ghost predicate EligibleDraw(b: Bench, d: Draw) {
    if d.vote.Delegated? then
      && (exists k :: 0 <= k < |b.pool| && b.pool[k].account == d.participant)
      && d.participant in b.participants && b.participants[d.participant].delegations.Some?
    else VotesInPerson(b, d.participant)
  }

  lemma {:induction false} SelectedEligible(cfg: Config, b: Bench, b': Bench, appeals: nat, log: Log, draws: seq<Draw>, k: nat)
    requires ConfigOk(cfg) && BenchOk(cfg, b) && appeals < cfg.maxAppeals && Selected(cfg, b, b', appeals, log, draws) && k < |draws|
    ensures EligibleDraw(b, draws[k]) && (draws[k].vote.Drawn? || draws[k].vote.Delegated?)
  {
    hide BenchOk, DrawsOk, OpenedOk, Chosen, VotesInPerson;
    SelectedIsWhole(cfg, b, b', appeals, log, draws);
    NewJury(cfg, b, b', appeals, log, draws);
    DrawnAreEligible(cfg, b, b', NecessaryDrawsWeight(appeals), log, draws, k);
  }

  lemma {:induction false} FreshDraw(cfg: Config, s: Storage, e: Event, s': Storage, c: CourtId, k: nat)
    requires ConfigOk(cfg) && StoreOk(cfg, s) && Step(cfg, s, e, s') && StartsRound(cfg, s, e, c) && k < |DrawsIn(s'.draws, c)|
    ensures EligibleDraw(s.bench, DrawsIn(s'.draws, c)[k])
    ensures DrawsIn(s'.draws, c)[k].vote.Drawn? || DrawsIn(s'.draws, c)[k].vote.Delegated?
  {
    hide IdsOk, JuriesOk, CourtsOk, ScheduleOk, DisputedOk, ItemsOk, BenchOk, Selected, EligibleDraw, AddResolve, RemoveResolve, RoundFrom, LatestWinner, Unlocked, TimesScheduled;
    match e {
      case Dispute(_, log) => SelectedEligible(cfg, s.bench, s'.bench, 0, log, DrawsIn(s'.draws, c), k);
      case Appeal(who, _, log) =>
        var drawn := Bench(s'.bench.pool, WithLocks(cfg, s.bench.participants, log), s.bench.locks);
        SelectedEligible(cfg, s.bench, drawn, |s.courts[c].appeals| + 1, log, DrawsIn(s'.draws, c), k);
    }
  }

  /** A jury for the round after k appeals is drawn with 2^(k + 5) - 1 hits, as far as that fits 32 bits: its
      weight is that number less the hits that found nobody. */
  lemma {:induction false} JurySize(cfg: Config, s: Storage, e: Event, s': Storage, c: CourtId)
    requires ConfigOk(cfg) && StoreOk(cfg, s) && Step(cfg, s, e, s') && StartsRound(cfg, s, e, c)
    ensures c in s'.courts
    ensures var appeals, hits := |s'.courts[c].appeals|, HitsOf(e);
            && TotalWeight(DrawsIn(s'.draws, c)) + Count(hits, Failed) == |hits|
            && (Pow2(appeals + 5) <= U32_MAX ==> |hits| == Pow2(appeals + 5) - 1)
  {
    hide IdsOk, JuriesOk, CourtsOk, ScheduleOk, DisputedOk, ItemsOk, BenchOk, Selected, AddResolve, RemoveResolve, RoundFrom, LatestWinner, Unlocked, TimesScheduled, Pow2, NecessaryDrawsWeight, TotalWeight;
    match e {
      case Dispute(_, log) => SelectedSize(cfg, s.bench, s'.bench, 0, log, DrawsIn(s'.draws, c));
      case Appeal(who, _, log) =>
        var drawn := Bench(s'.bench.pool, WithLocks(cfg, s.bench.participants, log), s.bench.locks);
        SelectedSize(cfg, s.bench, drawn, |s.courts[c].appeals| + 1, log, DrawsIn(s'.draws, c));
    }
  }

  lemma {:induction false} SelectedSize(cfg: Config, b: Bench, b': Bench, appeals: nat, log: Log, draws: seq<Draw>)
    requires ConfigOk(cfg) && BenchOk(cfg, b) && appeals < cfg.maxAppeals && Selected(cfg, b, b', appeals, log, draws)
    ensures TotalWeight(draws) + Count(log, Failed) == |log|
    ensures Pow2(appeals + 5) <= U32_MAX ==> |log| == Pow2(appeals + 5) - 1
  {
    hide BenchOk, DrawsOk, Pow2;
    SelectedIsWhole(cfg, b, b', appeals, log, draws);
    JuryTheorem(cfg, b, b', NecessaryDrawsWeight(appeals), log, draws);
    if Pow2(appeals + 5) <= U32_MAX {
      DrawsWeightIsPower(appeals);
    }
  }

  // ---- Within a round ----

  /** What an event does to one draw of the court. */
  ghost predicate DrawChange(cfg: Config, s: Storage, e: Event, c: CourtId, d: Draw, d': Draw) {
    var p := d.participant;
    match e
    case CastSecret(who, k, commitment) =>
      if who == p && k == c
      then InVotePeriod(s, c) && (d.vote.Drawn? || d.vote.Secret?) && d' == d.(vote := Secret(commitment))
      else d' == d
    case Denounce(who, k, juror, item, salt) =>
      if juror == p && k == c
      then && InVotePeriod(s, c) && Fitting(s, c, item) && who != p && d.vote == Secret(cfg.hash(p, item, salt))
           && d' == d.(vote := Denounced(cfg.hash(p, item, salt), item, salt))
      else d' == d
    case Reveal(who, k, item, salt) =>
      if who == p && k == c
      then && InAggregationPeriod(s, c) && Fitting(s, c, item) && d.vote == Secret(cfg.hash(p, item, salt))
           && d' == d.(vote := Revealed(cfg.hash(p, item, salt), item, salt))
      else d' == d
    case _ => d' == d
  }

  lemma {:induction false} CallChanges(cfg: Config, s: Storage, e: Event, s': Storage, c: CourtId, k: nat)
    requires cfg.Valid() && DrawsSorted(DrawsIn(s.draws, c)) && Step(cfg, s, e, s') && IsVoteCall(e, c)
    ensures c in s.draws && |s'.draws[c]| == |s.draws[c]| && s'.courts == s.courts
    ensures k < |s.draws[c]| ==> DrawChange(cfg, s, e, c, s.draws[c][k], s'.draws[c][k])
  {
    hide InVotePeriod, InAggregationPeriod, Fitting, VoteCall, DenounceCall, RevealCall;
    var draws := DrawsIn(s.draws, c);
    match e {
      case CastSecret(who, _, commitment) => CastIff(s, who, c, commitment);
      case Denounce(who, _, juror, item, salt) => DenounceIff(cfg, s, who, c, juror, item, salt);
      case Reveal(who, _, item, salt) => RevealIff(cfg, s, who, c, item, salt);
    }
  }

  ghost predicate IsVoteCall(e: Event, c: CourtId) { (e.CastSecret? || e.Denounce? || e.Reveal?) && e.c == c }

  /** The last possible appeal draws nobody. */
  lemma {:induction false} LastAppealQuiet(cfg: Config, s: Storage, e: Event, s': Storage, c: CourtId)
    requires cfg.Valid() && e.Appeal? && AppealStep(cfg, s, s', e.who, c, e.log) && |s.courts[c].appeals| + 1 >= cfg.maxAppeals
    ensures s'.draws == s.draws && c in s'.courts && c in s.courts && s'.courts[c].roundEnds == s.courts[c].roundEnds
  {
    hide LatestWinner, RemoveResolve;
  }

  /** Everything but a new jury and the vote calls leaves the draws of a court alone, or removes them. */
  lemma {:induction false} QuietJury(cfg: Config, s: Storage, e: Event, s': Storage, c: CourtId)
    requires cfg.Valid() && IdsOk(s) && Step(cfg, s, e, s') && !StartsRound(cfg, s, e, c) && !IsVoteCall(e, c) && c in s'.draws
    ensures c in s.draws && c in s.courts && c in s'.courts && s'.courts[c].roundEnds == s.courts[c].roundEnds
    ensures s'.draws[c] == s.draws[c]
  {
    hide AppealStep, DisputeStep, Unlocked, LatestWinner, RemoveResolve;
    if Touched(s, e) != Some(c) {
      OthersLeftAlone(cfg, s, e, s', c);
    } else {
      match e
      case Appeal(_, _, _) => AppealOpen(cfg, s, e, s', c); LastAppealQuiet(cfg, s, e, s', c);
      case Resolve(_) =>
      case Abandon(_) =>
      case Reassign(_) =>
    }
  }

  lemma {:induction false} AppealOpen(cfg: Config, s: Storage, e: Event, s': Storage, c: CourtId)
    requires cfg.Valid() && e.Appeal? && AppealStep(cfg, s, s', e.who, c, e.log)
    ensures c in s.courts
  {
  }

  /** A draw after an event that does not start a round is a draw before it, changed only by the calls
      that concern it. */
  lemma {:induction false} EventChanges(cfg: Config, s: Storage, e: Event, s': Storage, c: CourtId, k: nat)
    requires ConfigOk(cfg) && StoreOk(cfg, s) && Step(cfg, s, e, s') && !StartsRound(cfg, s, e, c) && c in s'.draws && k < |s'.draws[c]|
    ensures c in s.draws && c in s.courts && c in s'.courts && s'.courts[c].roundEnds == s.courts[c].roundEnds
    ensures k < |s.draws[c]| && DrawChange(cfg, s, e, c, s.draws[c][k], s'.draws[c][k])
  {
    JurySorted(cfg, s, c);
    hide Step, DrawsSorted, BenchOk, JuriesOk, CourtsOk, ScheduleOk, DisputedOk, ItemsOk, StartsRound, DrawChange, IsVoteCall;
    if IsVoteCall(e, c) {
      CallChanges(cfg, s, e, s', c, k);
      DrawsHaveCourt(cfg, s, c);
    } else {
      QuietJury(cfg, s, e, s', c);
      NoChange(cfg, s, e, c, s.draws[c][k]);
    }
  }

  lemma {:induction false} NoChange(cfg: Config, s: Storage, e: Event, c: CourtId, d: Draw)
    requires !IsVoteCall(e, c)
    ensures DrawChange(cfg, s, e, c, d, d)
  {
    hide InVotePeriod, InAggregationPeriod, Fitting;
  }

  lemma {:induction false} JurySorted(cfg: Config, s: Storage, c: CourtId)
    requires StoreOk(cfg, s)
    ensures DrawsSorted(DrawsIn(s.draws, c))
  {
    hide BenchOk, IdsOk, CourtsOk, ScheduleOk, DisputedOk, ItemsOk;
    JuryOf(cfg, s.draws, c);
  }

  // ---- Over runs ----

  /** No new jury is drawn for the court by the events from `r` to `i`. */
  ghost predicate SameJury(cfg: Config, ws: seq<World>, es: seq<Event>, r: nat, i: nat, c: CourtId)
    requires i <= |es| && |ws| == |es| + 1
  {
    forall t :: r <= t < i ==> !StartsRound(cfg, ws[t].s, es[t], c)
  }

  /** Event `t` is a call that leaves the vote `v` of juror `p`, in the period for it of a round that ends
      at `ends`. */
  ghost predicate Leaves(e: Event, now: BlockNumber, ends: RoundTiming, c: CourtId, p: AccountId, v: Vote) {
    match v
    case Secret(commitment) => e == CastSecret(p, c, commitment) && ends.preVote < now <= ends.vote
    case Denounced(_, item, salt) =>
      && e.Denounce? && e == Denounce(e.who, c, p, item, salt) && e.who != p
      && ends.preVote < now <= ends.vote
    case Revealed(_, item, salt) => e == Reveal(p, c, item, salt) && ends.vote < now <= ends.aggregation
    case _ => false
  }

  /** A drawn vote has never been cast since event `r`; any other one was left by one of the calls. */
  ghost predicate Evidence(ws: seq<World>, es: seq<Event>, r: nat, i: nat, c: CourtId, d: Draw)
    requires i <= |es| && |ws| == |es| + 1 && c in ws[i].s.courts
  {
    if d.vote.Delegated? then true
    else if d.vote.Drawn? then forall t :: r < t < i && es[t].CastSecret? && es[t].c == c ==> es[t].who != d.participant
    else exists t :: r < t < i && Leaves(es[t], ws[t].s.now, ws[i].s.courts[c].roundEnds, c, d.participant, d.vote)
  }

  /** Event `r` drew the jury of the court, with a draw for the participant of `d`, and whatever the vote of
      `d` is comes from calls of the same round. */
  ghost predicate ComesFrom(cfg: Config, ws: seq<World>, es: seq<Event>, r: nat, i: nat, c: CourtId, d: Draw)
    requires i <= |es| && |ws| == |es| + 1 && c in ws[i].s.courts && r < i
  {
    && StartsRound(cfg, ws[r].s, es[r], c) && SameJury(cfg, ws, es, r + 1, i, c)
    && EligibleDraw(ws[r].s.bench, d)
    && Evidence(ws, es, r, i, c, d)
  }

  lemma {:induction false} EvidenceNext(cfg: Config, ws: seq<World>, es: seq<Event>, r: nat, i: nat, c: CourtId, d: Draw, d': Draw)
    requires r < i < |es| && |ws| == |es| + 1 && c in ws[i].s.courts && c in ws[i + 1].s.courts
    requires ws[i + 1].s.courts[c].roundEnds == ws[i].s.courts[c].roundEnds
    requires ComesFrom(cfg, ws, es, r, i, c, d) && !StartsRound(cfg, ws[i].s, es[i], c)
    requires DrawChange(cfg, ws[i].s, es[i], c, d, d')
    ensures ComesFrom(cfg, ws, es, r, i + 1, c, d')
  {
    hide StartsRound, VotesInPerson, Fitting;
    if d' == d {
      if !d.vote.Delegated? && !d.vote.Drawn? {
        var t :| r < t < i && Leaves(es[t], ws[t].s.now, ws[i].s.courts[c].roundEnds, c, d.participant, d.vote);
        assert Leaves(es[t], ws[t].s.now, ws[i + 1].s.courts[c].roundEnds, c, d'.participant, d'.vote);
      }
    } else {
      assert Leaves(es[i], ws[i].s.now, ws[i + 1].s.courts[c].roundEnds, c, d'.participant, d'.vote);
    }
  }

  /** Every stored draw goes back to the event that drew the jury of the round, when its participant could
      be drawn. Its vote was cast in the vote period, denounced by somebody else in the vote period, or
      revealed in the aggregation period of that round, and a drawn vote was never cast. */
  lemma {:induction false} EvidenceTheorem(cfg: Config, ws: seq<World>, es: seq<Event>, i: nat, c: CourtId, k: nat) returns (r: nat)
    requires ConfigOk(cfg) && Run(cfg, ws, es) && i < |ws| && c in ws[i].s.draws && k < |ws[i].s.draws[c]|
    ensures c in ws[i].s.courts && r < i && ComesFrom(cfg, ws, es, r, i, c, ws[i].s.draws[c][k])
  {
    hide Step, StoreOk, CommitmentsOk, WinnersOk, ComesFrom, StartsRound, DrawChange;
    RunTheorem(cfg, ws, es, i);
    DrawsHaveCourt(cfg, ws[i].s, c);
    if i == 0 {
      assert false;
    }
    var s, e := ws[i - 1].s, es[i - 1];
    assert Step(cfg, s, e, ws[i].s);
    RunTheorem(cfg, ws, es, i - 1);
    if StartsRound(cfg, s, e, c) {
      r := i - 1;
      FreshDraw(cfg, s, e, ws[i].s, c, k);
      FreshComes(cfg, ws, es, i, c, ws[i].s.draws[c][k]);
    } else {
      EventChanges(cfg, s, e, ws[i].s, c, k);
      r := EvidenceTheorem(cfg, ws, es, i - 1, c, k);
      EvidenceNext(cfg, ws, es, r, i - 1, c, s.draws[c][k], ws[i].s.draws[c][k]);
    }
  }

  lemma {:induction false} DrawsHaveCourt(cfg: Config, s: Storage, c: CourtId)
    requires StoreOk(cfg, s) && c in s.draws
    ensures c in s.courts
  {
    hide BenchOk, JuriesOk, CourtsOk, ScheduleOk, DisputedOk, ItemsOk;
  }

  lemma {:induction false} FreshComes(cfg: Config, ws: seq<World>, es: seq<Event>, i: nat, c: CourtId, d: Draw)
    requires 0 < i <= |es| && |ws| == |es| + 1 && c in ws[i].s.courts && StartsRound(cfg, ws[i - 1].s, es[i - 1], c)
    requires EligibleDraw(ws[i - 1].s.bench, d) && (d.vote.Drawn? || d.vote.Delegated?)
    ensures ComesFrom(cfg, ws, es, i - 1, i, c, d)
  {
    hide StartsRound, EligibleDraw;
  }
}
