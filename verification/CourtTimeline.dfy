/** What the stored records say about the past of a run: when a member joined and asked to leave, when
    votes can start, and that a court is resolved and reassigned once. */
module CourtTimeline {
  import opened Numbers
  import opened CourtTypes
  import opened CourtPool
  import opened JurySelection
  import opened JuryDraws
  import opened CourtStorage
  import opened CourtSteps
  import opened CourtInvariants
  import opened CourtLocks
  import opened CourtRuns
  import opened CourtCalls
  import opened CourtEvidence

  // ---- Joining and leaving ----

  predicate IsJoin(e: Event, who: AccountId) { e.Join? && e.who == who }

  /** The member records that an event leaves, as far as they concern joining and leaving. */
  ghost predicate MemberKept(s: Storage, s': Storage, who: AccountId) {
    who in s'.bench.participants ==>
      && who in s.bench.participants
      && s'.bench.participants[who].stake == s.bench.participants[who].stake
      && s'.bench.participants[who].prepareExitAt == s.bench.participants[who].prepareExitAt
      && s'.bench.participants[who].delegations == s.bench.participants[who].delegations
  }

  lemma {:induction false} JuryKeepsMembers(cfg: Config, s: Storage, e: Event, s': Storage, who: AccountId)
    requires cfg.Valid() && Step(cfg, s, e, s') && (e.Dispute? || e.Appeal?)
    ensures MemberKept(s, s', who)
  {
    hide HitsOk, TargetsOk, RemoveEach, Tally, NecessaryDrawsWeight, AddResolve, RemoveResolve, RoundFrom, TimesScheduled, AppealedCourt;
  }

  lemma {:induction false} OthersKeepMembers(cfg: Config, s: Storage, e: Event, s': Storage, who: AccountId)
    requires cfg.Valid() && Step(cfg, s, e, s')
    requires !IsJoin(e, who) && e != PrepareExit(who) && e != ExitCourt(who)
    ensures MemberKept(s, s', who)
  {
    hide DisputeStep, AppealStep, LatestWinner, VoteCall, DenounceCall, RevealCall, RemoveResolve, InsertItem, PoolForJoin, PoolWithout;
    if e.Dispute? || e.Appeal? {
      JuryKeepsMembers(cfg, s, e, s', who);
    }
  }

  /** Joining, asking to leave and leaving, as the member's own record tells them. */
  lemma {:induction false} OwnEvents(cfg: Config, s: Storage, e: Event, s': Storage, who: AccountId)
    requires cfg.Valid() && Step(cfg, s, e, s') && who in s'.bench.participants
    ensures IsJoin(e, who) ==>
              s'.bench.participants[who].stake == e.amount && s'.bench.participants[who].delegations == e.delegations
              && s'.bench.participants[who].prepareExitAt == None
    ensures e == PrepareExit(who) ==>
              && who in s.bench.participants && s.bench.participants[who].prepareExitAt == None
              && s'.bench.participants[who] == s.bench.participants[who].(prepareExitAt := Some(s.now))
    ensures e == ExitCourt(who) ==>
              && who in s.bench.participants && s.bench.participants[who].prepareExitAt.Some?
              && s'.bench.participants[who] == s.bench.participants[who].(stake := s.bench.participants[who].activeLock)
  {
    hide DisputeStep, AppealStep, LatestWinner, VoteCall, DenounceCall, RevealCall, RemoveResolve, InsertItem, PoolForJoin, PoolWithout;
  }

  /** The account neither joins nor asks to leave. */
  ghost predicate NoJoin(es: seq<Event>, t: nat, i: nat, who: AccountId)
    requires i <= |es|
  {
    forall u :: t <= u < i ==> !IsJoin(es[u], who)
  }

  ghost predicate NoExit(es: seq<Event>, t: nat, i: nat, who: AccountId)
    requires i <= |es|
  {
    forall u :: t <= u < i ==> es[u] != ExitCourt(who)
  }

  /** Every participant joined: the last time with the stored delegations, and with the stored stake unless it
      has left since. */
  lemma {:induction false} MemberTheorem(cfg: Config, ws: seq<World>, es: seq<Event>, i: nat, who: AccountId) returns (t: nat)
    requires ConfigOk(cfg) && Run(cfg, ws, es) && i < |ws| && who in ws[i].s.bench.participants
    ensures t < i && IsJoin(es[t], who) && NoJoin(es, t + 1, i, who)
    ensures ws[i].s.bench.participants[who].delegations == es[t].delegations
    ensures NoExit(es, t + 1, i, who) ==> ws[i].s.bench.participants[who].stake == es[t].amount
  {
    hide Step;
    if i == 0 {
      assert false;
    }
    var s, e := ws[i - 1].s, es[i - 1];
    assert Step(cfg, s, e, ws[i].s);
    OwnEvents(cfg, s, e, ws[i].s, who);
    if IsJoin(e, who) {
      t := i - 1;
    } else {
      if e != PrepareExit(who) && e != ExitCourt(who) {
        OthersKeepMembers(cfg, s, e, ws[i].s, who);
      }
      t := MemberTheorem(cfg, ws, es, i - 1, who);
    }
  }

  /** A pending exit was asked for at the stored block, and the account has not joined since. */
  lemma {:induction false} PendingExit(cfg: Config, ws: seq<World>, es: seq<Event>, i: nat, who: AccountId) returns (t: nat)
    requires ConfigOk(cfg) && Run(cfg, ws, es) && i < |ws|
    requires who in ws[i].s.bench.participants && ws[i].s.bench.participants[who].prepareExitAt.Some?
    ensures t < i && es[t] == PrepareExit(who) && NoJoin(es, t + 1, i, who)
    ensures ws[i].s.bench.participants[who].prepareExitAt == Some(ws[t].s.now) && ws[t].s.now <= ws[i].s.now
  {
    hide Step;
    if i == 0 {
      assert false;
    }
    var s, e := ws[i - 1].s, es[i - 1];
    assert Step(cfg, s, e, ws[i].s);
    OwnEvents(cfg, s, e, ws[i].s, who);
    MarketsKept(cfg, s, e, ws[i].s);
    if e == PrepareExit(who) {
      t := i - 1;
    } else {
      if e != ExitCourt(who) {
        OthersKeepMembers(cfg, s, e, ws[i].s, who);
      }
      t := PendingExit(cfg, ws, es, i - 1, who);
    }
  }

  /** Whoever leaves has asked for it at least an inflation period ago and has not joined since; afterwards the
      currency lock is exactly what courts still lock. */
  lemma {:induction false} ExitTheorem(cfg: Config, ws: seq<World>, es: seq<Event>, i: nat, who: AccountId) returns (t: nat)
    requires ConfigOk(cfg) && Run(cfg, ws, es) && i < |es| && es[i] == ExitCourt(who)
    ensures t < i && es[t] == PrepareExit(who) && NoJoin(es, t + 1, i, who) && ws[t].s.now + cfg.inflationPeriod <= ws[i].s.now
    ensures LockOf(ws[i + 1].s.bench, who) == ActiveLock(ws[i].s.bench, who) == ActiveLock(ws[i + 1].s.bench, who)
    ensures who in ws[i + 1].s.bench.participants <==> 0 < ActiveLock(ws[i].s.bench, who)
  {
    assert Step(cfg, ws[i].s, es[i], ws[i + 1].s);
    t := PendingExit(cfg, ws, es, i, who);
  }

  /** Conversely, such a call is accepted. */
  lemma {:induction false} ExitIff(cfg: Config, b: Bench, who: AccountId, now: BlockNumber)
    ensures ExitError(cfg, b, who, now).None? <==>
              && who in b.participants && b.participants[who].prepareExitAt.Some?
              && (b.participants[who].prepareExitAt.value + cfg.inflationPeriod <= now || cfg.inflationPeriod == 0)
  {
  }

  /** Since it has asked to leave, and until it joins again, an account has no item in the pool, so it is not
      drawn. */
  lemma {:induction false} AwayTheorem(cfg: Config, ws: seq<World>, es: seq<Event>, t: nat, i: nat, who: AccountId)
    requires ConfigOk(cfg) && Run(cfg, ws, es) && t < i < |ws| && es[t] == PrepareExit(who) && NoJoin(es, t + 1, i, who)
    ensures forall k :: 0 <= k < |ws[i].s.bench.pool| ==> ws[i].s.bench.pool[k].account != who
  {
    hide Step, CommitmentsOk, WinnersOk;
    StillLeaving(cfg, ws, es, t, i, who);
    RunTheorem(cfg, ws, es, i);
    StoreBench(cfg, ws[i].s);
    var b := ws[i].s.bench;
    hide StoreOk, PoolSorted, StakesAgree;
    forall k | 0 <= k < |b.pool|
      ensures b.pool[k].account != who
    {
      assert ItemOk(b.pool[k], b.participants);
    }
  }

  lemma {:induction false} StillLeaving(cfg: Config, ws: seq<World>, es: seq<Event>, t: nat, i: nat, who: AccountId)
    requires ConfigOk(cfg) && Run(cfg, ws, es) && t < i < |ws| && es[t] == PrepareExit(who) && NoJoin(es, t + 1, i, who)
    ensures who in ws[i].s.bench.participants ==> ws[i].s.bench.participants[who].prepareExitAt.Some?
    decreases i
  {
    hide Step;
    var s, e := ws[i - 1].s, es[i - 1];
    assert Step(cfg, s, e, ws[i].s);
    if who in ws[i].s.bench.participants {
      OwnEvents(cfg, s, e, ws[i].s, who);
      if t + 1 < i {
        StillLeaving(cfg, ws, es, t, i - 1, who);
        if e != PrepareExit(who) && e != ExitCourt(who) {
          OthersKeepMembers(cfg, s, e, ws[i].s, who);
        }
      }
    }
  }

  // ---- When rounds start ----

  /** A round starts at the request block, which lies ahead. */
  lemma {:induction false} RoundBegins(cfg: Config, s: Storage, e: Event, s': Storage, c: CourtId)
    requires ConfigOk(cfg) && StoreOk(cfg, s) && Step(cfg, s, e, s') && StartsRound(cfg, s, e, c)
    ensures c in s'.courts && s.now < s'.courts[c].roundEnds.preVote == s.requestBlock
  {
    hide Selected, AddResolve, RemoveResolve, TimesScheduled, Unlocked, LatestWinner, BenchOk, IdsOk, JuriesOk, CourtsOk, DisputedOk, ItemsOk;
  }

  /** Request blocks are the first one plus multiples of the interval, and the next one is never further ahead
      than one interval, once the first has been reached. */
  lemma {:induction false} RequestTheorem(cfg: Config, ws: seq<World>, es: seq<Event>, i: nat) returns (n: nat)
    requires ConfigOk(cfg) && Run(cfg, ws, es) && i < |ws| && ws[i].s.now + cfg.requestInterval <= U64_MAX
    ensures ws[i].s.requestBlock == ws[0].s.requestBlock + Times(n, cfg.requestInterval)
    ensures ws[i].s.now < ws[i].s.requestBlock && (0 < n ==> ws[i].s.requestBlock <= ws[i].s.now + cfg.requestInterval)
  {
    hide Step;
    n := 0;
    if i > 0 {
      var s, e := ws[i - 1].s, es[i - 1];
      assert Step(cfg, s, e, ws[i].s);
      MarketsKept(cfg, s, e, ws[i].s);
      n := RequestTheorem(cfg, ws, es, i - 1);
      RequestStep(cfg, s, e, ws[i].s);
      if ws[i].s.requestBlock != s.requestBlock {
        n := n + 1;
      }
    }
  }

  lemma {:induction false} RequestStep(cfg: Config, s: Storage, e: Event, s': Storage)
    requires cfg.Valid() && Step(cfg, s, e, s') && s.now < s.requestBlock && s'.now + cfg.requestInterval <= U64_MAX
    ensures s.now <= s'.now
    ensures s'.requestBlock == if s'.now < s.requestBlock then s.requestBlock else s.requestBlock + cfg.requestInterval
    ensures s'.requestBlock != s.requestBlock ==> s'.now == s.requestBlock
  {
    hide Selected, AddResolve, RemoveResolve, RoundFrom, Unlocked, LatestWinner, WithLocks, VoteCall, DenounceCall, RevealCall, Joined, Leaving, Exited, TimesScheduled;
    match e
    case Dispute(_, _) =>
    case Appeal(_, _, _) =>
    case _ =>
  }

  // ---- Once ----

  ghost predicate IsClosed(s: Storage, c: CourtId) { c in s.courts && s.courts[c].status.Closed? }

  ghost predicate IsReassigned(s: Storage, c: CourtId) { c in s.courts && s.courts[c].status.Reassigned? }

  /** A court that is no longer open never opens again. */
  ghost predicate Over(s: Storage, c: CourtId) { c < s.nextCourtId && (c in s.courts ==> !s.courts[c].status.Open?) }

  lemma {:induction false} OpensOpen(cfg: Config, s: Storage, e: Event, s': Storage, c: CourtId)
    requires cfg.Valid() && Step(cfg, s, e, s') && (e.Dispute? || e.Appeal?) && Touched(s, e) == Some(c)
    ensures c in s'.courts && s'.courts[c].status.Open? && !Over(s, c)
  {
    hide Selected, AddResolve, RemoveResolve, RoundFrom, Unlocked, LatestWinner, WithLocks, TimesScheduled;
    if e.Appeal? {
      assert s'.courts[c] == AppealedCourt(cfg, s, e.who, c);
    }
  }

  /** How the status of a court moves. */
  ghost predicate StatusMove(s: Storage, e: Event, s': Storage, c: CourtId) {
    && (Over(s, c) ==> Over(s', c))
    && (IsReassigned(s', c) <==> (c in s'.courts && IsReassigned(s, c)) || e == Reassign(c))
    && (e == Reassign(c) ==> IsClosed(s, c) && c !in s'.draws)
    && (e.Abandon? && e.m in s.courtOf && s.courtOf[e.m] == c ==> c !in s'.courts && c !in s'.draws)
    && (IsClosed(s', c) ==> IsClosed(s, c) || (e.Resolve? && e.m in s.courtOf && s.courtOf[e.m] == c))
    && (e.Resolve? && e.m in s.courtOf && s.courtOf[e.m] == c ==> !Over(s, c) && IsClosed(s', c))
  }

  lemma {:induction false} StatusLeft(s: Storage, e: Event, s': Storage, c: CourtId)
    requires LeftAlone(s, s', c) && Touched(s, e) != Some(c) && s.nextCourtId <= s'.nextCourtId
    ensures StatusMove(s, e, s', c)
  {
  }

  lemma {:induction false} StatusOpened(s: Storage, e: Event, s': Storage, c: CourtId)
    requires c in s'.courts && s'.courts[c].status.Open? && !Over(s, c) && (e.Dispute? || e.Appeal?)
    requires IsReassigned(s, c) ==> Over(s, c)
    ensures StatusMove(s, e, s', c)
  {
  }

  lemma {:induction false} StatusEnds(s: Storage, e: Event, s': Storage, c: CourtId)
    requires Touched(s, e) == Some(c) && c in s.courts && s.nextCourtId <= s'.nextCourtId
    requires match e
             case Resolve(m) => ResolveStep(s, s', m)
             case Abandon(m) => AbandonStep(s, s', m)
             case Reassign(_) => ReassignStep(s, s', c)
             case _ => s'.courts == s.courts && !e.Dispute? && !e.Appeal?
    ensures StatusMove(s, e, s', c)
  {
    hide RemoveResolve, Unlocked, LatestWinner;
  }

  lemma {:induction false} EndsStep(cfg: Config, s: Storage, e: Event, s': Storage, c: CourtId)
    requires cfg.Valid() && Step(cfg, s, e, s') && Touched(s, e) == Some(c) && !e.Dispute? && !e.Appeal?
    ensures match e
            case Resolve(m) => ResolveStep(s, s', m)
            case Abandon(m) => AbandonStep(s, s', m)
            case Reassign(_) => ReassignStep(s, s', c)
            case _ => s'.courts == s.courts
    ensures c in s.courts
  {
    hide DisputeStep, AppealStep, RemoveResolve, Unlocked, LatestWinner, ItemTypeError, MarketItemError, Joined, Leaving, Exited;
  }

  lemma {:induction false} StatusMoves(cfg: Config, s: Storage, e: Event, s': Storage, c: CourtId)
    requires cfg.Valid() && IdsOk(s) && Step(cfg, s, e, s')
    ensures StatusMove(s, e, s', c) && (e.Resolve? ==> e.m in s.courtOf)
  {
    hide Step, StatusMove, ResolveStep, AbandonStep, ReassignStep, LeftAlone;
    CourtsGrow(cfg, s, e, s');
    TouchesCourt(cfg, s, e, s');
    if Touched(s, e) != Some(c) {
      OthersLeftAlone(cfg, s, e, s', c);
      StatusLeft(s, e, s', c);
    } else if e.Dispute? || e.Appeal? {
      OpensOpen(cfg, s, e, s', c);
      StatusOpened(s, e, s', c);
    } else {
      EndsStep(cfg, s, e, s', c);
      StatusEnds(s, e, s', c);
    }
  }

  lemma {:induction false} TouchesCourt(cfg: Config, s: Storage, e: Event, s': Storage)
    requires cfg.Valid() && Step(cfg, s, e, s')
    ensures e.Resolve? ==> e.m in s.courtOf
  {
    hide DisputeStep, AppealStep, RemoveResolve, Unlocked, LatestWinner, VoteCall, DenounceCall, RevealCall, Joined, Leaving, Exited;
  }

  lemma {:induction false} OverStays(cfg: Config, ws: seq<World>, es: seq<Event>, t: nat, i: nat, c: CourtId)
    requires ConfigOk(cfg) && Run(cfg, ws, es) && t <= i < |ws| && Over(ws[t].s, c)
    ensures Over(ws[i].s, c) && (c in ws[i].s.courts && IsReassigned(ws[t].s, c) ==> IsReassigned(ws[i].s, c))
    decreases i
  {
    hide Step, CommitmentsOk, WinnersOk, BenchOk, JuriesOk, CourtsOk, ScheduleOk, DisputedOk, ItemsOk;
    if t < i {
      OverStays(cfg, ws, es, t, i - 1, c);
      RunTheorem(cfg, ws, es, i - 1);
      assert Step(cfg, ws[i - 1].s, es[i - 1], ws[i].s);
      StatusMoves(cfg, ws[i - 1].s, es[i - 1], ws[i].s, c);
      if c in ws[i].s.courts {
        KnownCourt(cfg, ws[i - 1].s, es[i - 1], ws[i].s, c);
      }
    }
  }

  /** Only opening a court adds it. */
  lemma {:induction false} KnownCourt(cfg: Config, s: Storage, e: Event, s': Storage, c: CourtId)
    requires cfg.Valid() && Step(cfg, s, e, s') && c in s'.courts && c < s.nextCourtId
    ensures c in s.courts
  {
    hide Step;
    if Touched(s, e) != Some(c) {
      OthersLeftAlone(cfg, s, e, s', c);
    } else {
      TouchedKnown(cfg, s, e, s', c);
    }
  }

  lemma {:induction false} TouchedKnown(cfg: Config, s: Storage, e: Event, s': Storage, c: CourtId)
    requires cfg.Valid() && Step(cfg, s, e, s') && Touched(s, e) == Some(c) && c < s.nextCourtId
    ensures c in s.courts
  {
    hide DisputeStep, Selected, AddResolve, RemoveResolve, RoundFrom, Unlocked, LatestWinner, WithLocks, ItemTypeError, MarketItemError;
  }

  lemma {:induction false} CourtOfStays(cfg: Config, s: Storage, e: Event, s': Storage, m: MarketId)
    requires cfg.Valid() && Step(cfg, s, e, s') && m in s.courtOf
    ensures m in s'.courtOf && s'.courtOf[m] == s.courtOf[m]
  {
    hide Selected, AddResolve, RemoveResolve, RoundFrom, Unlocked, LatestWinner, WithLocks, VoteCall, DenounceCall, RevealCall, Joined, Leaving, Exited, TimesScheduled;
    match e
    case Dispute(_, _) =>
    case Appeal(_, _, _) =>
    case _ =>
  }

  lemma {:induction false} CourtOfFixed(cfg: Config, ws: seq<World>, es: seq<Event>, t: nat, i: nat, m: MarketId)
    requires ConfigOk(cfg) && Run(cfg, ws, es) && t <= i < |ws| && m in ws[t].s.courtOf
    ensures m in ws[i].s.courtOf && ws[i].s.courtOf[m] == ws[t].s.courtOf[m]
    decreases i
  {
    hide Step;
    if t < i {
      CourtOfFixed(cfg, ws, es, t, i - 1, m);
      assert Step(cfg, ws[i - 1].s, es[i - 1], ws[i].s);
      CourtOfStays(cfg, ws[i - 1].s, es[i - 1], ws[i].s, m);
    }
  }

  lemma {:induction false} ResolveCloses(cfg: Config, ws: seq<World>, es: seq<Event>, t: nat, m: MarketId)
    requires ConfigOk(cfg) && Run(cfg, ws, es) && t < |es| && es[t] == Resolve(m)
    ensures m in ws[t].s.courtOf
    ensures !Over(ws[t].s, ws[t].s.courtOf[m]) && IsClosed(ws[t + 1].s, ws[t].s.courtOf[m]) && Over(ws[t + 1].s, ws[t].s.courtOf[m])
  {
    hide Step, CommitmentsOk, WinnersOk, BenchOk, JuriesOk, CourtsOk, ScheduleOk, DisputedOk, ItemsOk;
    RunTheorem(cfg, ws, es, t);
    RunTheorem(cfg, ws, es, t + 1);
    assert Step(cfg, ws[t].s, es[t], ws[t + 1].s);
    TouchesCourt(cfg, ws[t].s, es[t], ws[t + 1].s);
    StatusMoves(cfg, ws[t].s, es[t], ws[t + 1].s, ws[t].s.courtOf[m]);
  }

  /** A market is resolved by its court at most once, and the stakes of a court are reassigned at most once, after
      it was resolved. */
  lemma {:induction false} OnceTheorem(cfg: Config, ws: seq<World>, es: seq<Event>, t: nat, i: nat, m: MarketId, c: CourtId)
    requires ConfigOk(cfg) && Run(cfg, ws, es) && t < i < |es|
    ensures es[t] == Resolve(m) ==> es[i] != Resolve(m)
    ensures es[t] == Reassign(c) ==> es[i] != Reassign(c)
  {
    hide Step, CommitmentsOk, WinnersOk, BenchOk, JuriesOk, CourtsOk, ScheduleOk, DisputedOk, ItemsOk;
    if es[t] == Resolve(m) && es[i] == Resolve(m) {
      ResolveCloses(cfg, ws, es, t, m);
      ResolveCloses(cfg, ws, es, i, m);
      CourtOfFixed(cfg, ws, es, t, i, m);
      OverStays(cfg, ws, es, t + 1, i, ws[t].s.courtOf[m]);
    }
    if es[t] == Reassign(c) {
      RunTheorem(cfg, ws, es, t);
      RunTheorem(cfg, ws, es, t + 1);
      RunTheorem(cfg, ws, es, i);
      assert Step(cfg, ws[t].s, es[t], ws[t + 1].s) && Step(cfg, ws[i].s, es[i], ws[i + 1].s);
      StatusMoves(cfg, ws[t].s, es[t], ws[t + 1].s, c);
      OverStays(cfg, ws, es, t + 1, i, c);
      StatusMoves(cfg, ws[i].s, es[i], ws[i + 1].s, c);
    }
  }

  lemma {:induction false} ClosedBy(cfg: Config, ws: seq<World>, es: seq<Event>, i: nat, c: CourtId) returns (t: nat)
    requires ConfigOk(cfg) && Run(cfg, ws, es) && i < |ws| && IsClosed(ws[i].s, c)
    ensures t < i && es[t].Resolve? && es[t].m in ws[t].s.courtOf && ws[t].s.courtOf[es[t].m] == c
  {
    hide Step, CommitmentsOk, WinnersOk, BenchOk, JuriesOk, CourtsOk, ScheduleOk, DisputedOk, ItemsOk;
    if i == 0 {
      assert false;
    }
    RunTheorem(cfg, ws, es, i - 1);
    assert Step(cfg, ws[i - 1].s, es[i - 1], ws[i].s);
    StatusMoves(cfg, ws[i - 1].s, es[i - 1], ws[i].s, c);
    if IsClosed(ws[i - 1].s, c) {
      t := ClosedBy(cfg, ws, es, i - 1, c);
    } else {
      t := i - 1;
    }
  }

  /** Stakes are reassigned only after a resolution of the court. */
  lemma {:induction false} ReassignAfterResolve(cfg: Config, ws: seq<World>, es: seq<Event>, i: nat, c: CourtId) returns (t: nat)
    requires ConfigOk(cfg) && Run(cfg, ws, es) && i < |es| && es[i] == Reassign(c)
    ensures t < i && es[t].Resolve? && es[t].m in ws[t].s.courtOf && ws[t].s.courtOf[es[t].m] == c
  {
    hide Step, CommitmentsOk, WinnersOk, BenchOk, JuriesOk, CourtsOk, ScheduleOk, DisputedOk, ItemsOk;
    RunTheorem(cfg, ws, es, i);
    assert Step(cfg, ws[i].s, es[i], ws[i + 1].s);
    StatusMoves(cfg, ws[i].s, es[i], ws[i + 1].s, c);
    t := ClosedBy(cfg, ws, es, i, c);
  }

  // ---- The schedule ----

  ghost predicate ScheduleBounded(cfg: Config, s: Storage) {
    forall t: BlockNumber :: |ScheduledAt(s.schedule, t)| <= cfg.resolutionsPerBlock
  }

  lemma {:induction false} RemoveKeepsBound(cfg: Config, schedule: map<BlockNumber, seq<MarketId>>, m: MarketId, at: BlockNumber, t: BlockNumber)
    ensures |ScheduledAt(RemoveResolve(schedule, m, at), t)| <= |ScheduledAt(schedule, t)|
  {
  }

  lemma {:induction false} AddKeepsBound(cfg: Config, schedule: map<BlockNumber, seq<MarketId>>, m: MarketId, at: BlockNumber, t: BlockNumber)
    requires AddResolve(cfg, schedule, m, at).Ok?
    ensures |ScheduledAt(AddResolve(cfg, schedule, m, at).value, t)| <= Max(|ScheduledAt(schedule, t)|, cfg.resolutionsPerBlock)
  {
  }

  /** No block ever gets more resolutions than it may hold. */
  lemma {:induction false} ScheduleBound(cfg: Config, s: Storage, e: Event, s': Storage)
    requires cfg.Valid() && Step(cfg, s, e, s') && ScheduleBounded(cfg, s)
    ensures ScheduleBounded(cfg, s')
  {
    hide Selected, AddResolve, RemoveResolve, RoundFrom, Unlocked, LatestWinner, WithLocks, VoteCall, DenounceCall, RevealCall, Joined, Leaving, Exited, TimesScheduled, ScheduledAt;
    forall t: BlockNumber
      ensures |ScheduledAt(s'.schedule, t)| <= cfg.resolutionsPerBlock
    {
      match e {
        case Dispute(m, _) => AddKeepsBound(cfg, s.schedule, m, RoundFrom(cfg, s.requestBlock).appeal, t);
        case Appeal(_, c, _) =>
          var m, due, at := s.marketOf[c], s.courts[c].roundEnds.appeal, RoundFrom(cfg, s.requestBlock).appeal;
          if |s.courts[c].appeals| + 1 < cfg.maxAppeals {
            AddKeepsBound(cfg, s.schedule, m, at, t);
            RemoveKeepsBound(cfg, AddResolve(cfg, s.schedule, m, at).value, m, due, t);
          } else {
            RemoveKeepsBound(cfg, s.schedule, m, due, t);
          }
        case Resolve(m) => RemoveKeepsBound(cfg, s.schedule, m, s.courts[s.courtOf[m]].roundEnds.appeal, t);
        case _ =>
      }
    }
  }
}
