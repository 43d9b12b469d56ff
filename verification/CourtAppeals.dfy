/** Appeals and resolutions over whole runs: what a court resolves on, told from the votes of its
    rounds, and what appeals cost. */
module CourtAppeals {
  import opened Numbers
  import opened CourtTypes
  import opened CourtPool
  import opened JurySelection
  import opened JuryDraws
  import opened CourtWinner
  import opened CourtStorage
  import opened CourtSteps
  import opened CourtInvariants
  import opened CourtLocks
  import opened CourtRuns
  import opened CourtCalls

  // ---- The last appeal ----

  predicate IsAppeal(e: Event, c: CourtId) { e.Appeal? && e.c == c }

  /** The last appeal of the court among the first `i` events. */
  function LastAppeal(es: seq<Event>, i: nat, c: CourtId): (t: Option<nat>)
    requires i <= |es|
    ensures t.Some? ==> t.value < i && IsAppeal(es[t.value], c)
    ensures forall u :: (if t.Some? then t.value else -1) < u < i ==> !IsAppeal(es[u], c)
  {
    if i == 0 then None else if IsAppeal(es[i - 1], c) then Some(i - 1) else LastAppeal(es, i - 1, c)
  }

  lemma {:induction false} AppealsKept(cfg: Config, s: Storage, e: Event, s': Storage, c: CourtId)
    requires cfg.Valid() && Step(cfg, s, e, s') && c in s'.courts && !IsAppeal(e, c) && !(e.Dispute? && s.nextCourtId == c)
    ensures c in s.courts && s'.courts[c].appeals == s.courts[c].appeals && s'.courts[c].itemType == s.courts[c].itemType
  {
    hide AppealStep, DisputeStep, Unlocked, LatestWinner, RemoveResolve, VoteCall, DenounceCall, RevealCall;
    if Touched(s, e) != Some(c) {
      OthersLeftAlone(cfg, s, e, s', c);
    }
  }

  lemma {:induction false} AppealRecords(cfg: Config, s: Storage, e: Event, s': Storage, c: CourtId)
    requires cfg.Valid() && Step(cfg, s, e, s') && IsAppeal(e, c)
    ensures Appealable(cfg, s, c) && c in s'.courts && s'.courts[c].itemType == s.courts[c].itemType
    ensures s'.courts[c].appeals
         == s.courts[c].appeals + [AppealInfo(e.who, AppealBond(cfg, |s.courts[c].appeals| + 1),
              LatestWinner(s.courts[c], DrawsIn(s.draws, c), s.markets[s.marketOf[c]].report.value))]
  {
    hide Selected, LatestWinner, RemoveResolve, AddResolve, Unlocked, RoundFrom, AppealBond;
  }

  lemma {:induction false} CourtBelow(cfg: Config, s: Storage, c: CourtId)
    requires StoreOk(cfg, s) && c in s.courts
    ensures c < s.nextCourtId && c in s.marketOf
  {
    hide BenchOk, JuriesOk, CourtsOk, ScheduleOk, DisputedOk, ItemsOk;
  }

  lemma {:induction false} CourtIdsGrow(cfg: Config, ws: seq<World>, es: seq<Event>, t: nat, i: nat)
    requires ConfigOk(cfg) && Run(cfg, ws, es) && t <= i < |ws|
    ensures ws[t].s.nextCourtId <= ws[i].s.nextCourtId
    decreases i
  {
    hide Step;
    if t < i {
      CourtIdsGrow(cfg, ws, es, t, i - 1);
      assert Step(cfg, ws[i - 1].s, es[i - 1], ws[i].s);
      CourtsGrow(cfg, ws[i - 1].s, es[i - 1], ws[i].s);
    }
  }

  /** A court has no appeals before it is opened. */
  lemma {:induction false} NoAppealBefore(cfg: Config, ws: seq<World>, es: seq<Event>, i: nat, c: CourtId)
    requires ConfigOk(cfg) && Run(cfg, ws, es) && i < |ws| && ws[i].s.nextCourtId <= c
    ensures LastAppeal(es, i, c) == None
  {
    hide Step, StoreOk, CommitmentsOk, WinnersOk, Appealable, LatestWinner, AppealBond;
    var last := LastAppeal(es, i, c);
    if last.Some? {
      var t := last.value;
      assert Step(cfg, ws[t].s, es[t], ws[t + 1].s);
      AppealRecords(cfg, ws[t].s, es[t], ws[t + 1].s, c);
      RunTheorem(cfg, ws, es, t + 1);
      CourtBelow(cfg, ws[t + 1].s, c);
      CourtIdsGrow(cfg, ws, es, t + 1, i);
    }
  }

  /** The stored appeals are those that the last appeal left. */
  lemma {:induction false} LastAppealIs(cfg: Config, ws: seq<World>, es: seq<Event>, i: nat, c: CourtId)
    requires ConfigOk(cfg) && Run(cfg, ws, es) && i < |ws| && c in ws[i].s.courts
    ensures match LastAppeal(es, i, c)
            case None => ws[i].s.courts[c].appeals == []
            case Some(t) => c in ws[t + 1].s.courts && ws[i].s.courts[c].appeals == ws[t + 1].s.courts[c].appeals
  {
    hide Step, StoreOk, CommitmentsOk, WinnersOk;
    if i > 0 {
      var s, e := ws[i - 1].s, es[i - 1];
      assert Step(cfg, s, e, ws[i].s);
      if IsAppeal(e, c) {
      } else if e.Dispute? && s.nextCourtId == c {
        NoAppealBefore(cfg, ws, es, i - 1, c);
        OpensWithout(cfg, s, e, ws[i].s);
      } else {
        AppealsKept(cfg, s, e, ws[i].s, c);
        LastAppealIs(cfg, ws, es, i - 1, c);
      }
    }
  }

  lemma {:induction false} OpensWithout(cfg: Config, s: Storage, e: Event, s': Storage)
    requires cfg.Valid() && Step(cfg, s, e, s') && e.Dispute?
    ensures s.nextCourtId in s'.courts && s'.courts[s.nextCourtId].appeals == [] && s'.courts[s.nextCourtId].itemType == OutcomeType
  {
    hide Selected, AddResolve, RoundFrom, TimesScheduled;
  }

  /** Every court takes votes on outcomes. */
  lemma {:induction false} CourtsTakeOutcomes(cfg: Config, ws: seq<World>, es: seq<Event>, i: nat, c: CourtId)
    requires ConfigOk(cfg) && Run(cfg, ws, es) && i < |ws| && c in ws[i].s.courts
    ensures ws[i].s.courts[c].itemType == OutcomeType
  {
    hide Step, Appealable, LatestWinner, AppealBond;
    if i > 0 {
      var s, e := ws[i - 1].s, es[i - 1];
      assert Step(cfg, s, e, ws[i].s);
      if e.Dispute? && s.nextCourtId == c {
        OpensWithout(cfg, s, e, ws[i].s);
      } else {
        if IsAppeal(e, c) {
          AppealRecords(cfg, s, e, ws[i].s, c);
          AppealHasCourt(cfg, s, e, ws[i].s, c);
        } else {
          AppealsKept(cfg, s, e, ws[i].s, c);
        }
        CourtsTakeOutcomes(cfg, ws, es, i - 1, c);
      }
    }
  }

  // ---- What a court resolves on ----

  /** What a court would resolve on after `t` events, told from the votes of its rounds: the item that
      leads; the report if nobody revealed; on a tie what it would have resolved on at the last appeal,
      or the report if there was none. */
  ghost predicate DecidedAt(ws: seq<World>, es: seq<Event>, t: nat, c: CourtId, report: OutcomeReport, item: VoteItem)
    requires t <= |es| && |ws| == |es| + 1
    decreases t
  {
    var draws := DrawsIn(ws[t].s.draws, c);
    && (forall x :: Leads(draws, x) ==> item == x)
    && ((forall x :: !IsRevealed(draws, x)) ==> item == Outcome(report))
    && ((exists x :: IsRevealed(draws, x)) && (forall x :: !Leads(draws, x)) ==>
          match LastAppeal(es, t, c)
          case None => item == Outcome(report)
          case Some(u) => DecidedAt(ws, es, u, c, report, item))
  }

  ghost function ReportOf(s: Storage, c: CourtId): Option<OutcomeReport> {
    if c in s.marketOf && s.marketOf[c] in s.markets then s.markets[s.marketOf[c]].report else None
  }

  lemma {:induction false} ReportStays(cfg: Config, ws: seq<World>, es: seq<Event>, t: nat, i: nat, c: CourtId)
    requires ConfigOk(cfg) && Run(cfg, ws, es) && t <= i < |ws| && c in ws[t].s.courts && c in ws[i].s.courts
    ensures ReportOf(ws[i].s, c) == ReportOf(ws[t].s, c)
    decreases i
  {
    hide Step, StoreOk, CommitmentsOk, WinnersOk;
    if t < i {
      var s, e := ws[i - 1].s, es[i - 1];
      assert Step(cfg, s, e, ws[i].s);
      RunTheorem(cfg, ws, es, t);
      CourtBelow(cfg, ws[t].s, c);
      CourtIdsGrow(cfg, ws, es, t, i - 1);
      HadCourt(cfg, s, e, ws[i].s, c);
      ReportStays(cfg, ws, es, t, i - 1, c);
      RunTheorem(cfg, ws, es, i - 1);
      CourtBelow(cfg, s, c);
      MarketsKept(cfg, s, e, ws[i].s);
    }
  }

  lemma {:induction false} HadCourt(cfg: Config, s: Storage, e: Event, s': Storage, c: CourtId)
    requires cfg.Valid() && Step(cfg, s, e, s') && c in s'.courts && c < s.nextCourtId
    ensures c in s.courts
  {
    hide Step, Appealable, LatestWinner, AppealBond;
    if IsAppeal(e, c) {
      AppealHasCourt(cfg, s, e, s', c);
    } else {
      AppealsKept(cfg, s, e, s', c);
    }
  }

  lemma {:induction false} AppealHasCourt(cfg: Config, s: Storage, e: Event, s': Storage, c: CourtId)
    requires cfg.Valid() && Step(cfg, s, e, s') && IsAppeal(e, c)
    ensures c in s.courts && c in s.marketOf && s.marketOf[c] in s.markets && s.markets[s.marketOf[c]].report.Some?
  {
    hide LatestWinner, AppealBond, Step;
    AppealRecords(cfg, s, e, s', c);
  }

  lemma {:induction false} DecidedStep(ws: seq<World>, es: seq<Event>, i: nat, c: CourtId, report: OutcomeReport)
    requires i <= |es| && |ws| == |es| + 1 && c in ws[i].s.courts
    requires match LastAppeal(es, i, c)
             case None => ws[i].s.courts[c].appeals == []
             case Some(t) =>
               var appeals := ws[i].s.courts[c].appeals;
               appeals != [] && DecidedAt(ws, es, t, c, report, appeals[|appeals| - 1].appealedItem)
    ensures DecidedAt(ws, es, i, c, report, LatestWinner(ws[i].s.courts[c], DrawsIn(ws[i].s.draws, c), report))
  {
    hide Leads, IsRevealed, Winner;
    var court, draws := ws[i].s.courts[c], DrawsIn(ws[i].s.draws, c);
    WinnerIsWinner(draws, LastAppealed(court), Winner(draws, LastAppealed(court)));
  }

  lemma {:induction false} DecidedTheorem(cfg: Config, ws: seq<World>, es: seq<Event>, i: nat, c: CourtId, report: OutcomeReport)
    requires ConfigOk(cfg) && Run(cfg, ws, es) && i < |ws| && c in ws[i].s.courts && ReportOf(ws[i].s, c) == Some(report)
    ensures DecidedAt(ws, es, i, c, report, LatestWinner(ws[i].s.courts[c], DrawsIn(ws[i].s.draws, c), report))
  {
    hide Step, LatestWinner, AppealBond, DecidedAt, Appealable;
    LastAppealIs(cfg, ws, es, i, c);
    match LastAppeal(es, i, c) {
      case None =>
      case Some(t) =>
        assert Step(cfg, ws[t].s, es[t], ws[t + 1].s);
        AppealRecords(cfg, ws[t].s, es[t], ws[t + 1].s, c);
        AppealHasCourt(cfg, ws[t].s, es[t], ws[t + 1].s, c);
        ReportStays(cfg, ws, es, t, i, c);
        DecidedTheorem(cfg, ws, es, t, c, report);
    }
    DecidedStep(ws, es, i, c, report);
  }

  /** Every resolution closes the court with what the votes of its rounds decide. */
  lemma {:induction false} ResolutionTheorem(cfg: Config, ws: seq<World>, es: seq<Event>, r: nat, m: MarketId)
    requires ConfigOk(cfg) && Run(cfg, ws, es) && r < |es| && es[r] == Resolve(m)
    ensures m in ws[r].s.courtOf && ws[r].s.courtOf[m] in ws[r + 1].s.courts && m in ws[r].s.markets && ws[r].s.markets[m].report.Some?
    ensures var c := ws[r].s.courtOf[m];
            && ws[r + 1].s.courts[c].status.Closed?
            && DecidedAt(ws, es, r, c, ws[r].s.markets[m].report.value, ws[r + 1].s.courts[c].status.winner)
  {
    hide StoreOk, CommitmentsOk, WinnersOk, DecidedAt, LatestWinner, Unlocked, RemoveResolve;
    assert Step(cfg, ws[r].s, es[r], ws[r + 1].s);
    RunTheorem(cfg, ws, es, r);
    CourtOfMarket(cfg, ws[r].s, m);
    DecidedTheorem(cfg, ws, es, r, ws[r].s.courtOf[m], ws[r].s.markets[m].report.value);
  }

  ghost predicate IsTie(draws: seq<Draw>) {
    (exists x :: IsRevealed(draws, x)) && forall x :: !Leads(draws, x)
  }

  lemma {:induction false} LastAppealAt(es: seq<Event>, t: nat, i: nat, c: CourtId)
    requires t < i <= |es| && IsAppeal(es[t], c) && forall u :: t < u < i ==> !IsAppeal(es[u], c)
    ensures LastAppeal(es, i, c) == Some(t)
  {
  }

  /** A tie keeps what was decided at the last appeal: when the court is resolved, and when it is
      appealed once more. */
  lemma {:induction false} TieTheorem(cfg: Config, ws: seq<World>, es: seq<Event>, t: nat, r: nat, c: CourtId, report: OutcomeReport, x: VoteItem)
    requires ConfigOk(cfg) && Run(cfg, ws, es) && t < r < |es| && IsAppeal(es[t], c)
    requires forall u :: t < u < r ==> !IsAppeal(es[u], c)
    requires IsTie(DrawsIn(ws[r].s.draws, c))
    ensures DecidedAt(ws, es, r, c, report, x) <==> DecidedAt(ws, es, t, c, report, x)
  {
    hide Leads, IsRevealed;
    LastAppealAt(es, t, r, c);
    var draws := DrawsIn(ws[r].s.draws, c);
    var y :| IsRevealed(draws, y);
    assert !(forall x :: !IsRevealed(draws, x));
  }

  /** In particular: if `x` leads at an appeal, the court is not appealed again, and its last round is a
      tie, then the court is closed with `x`. */
  lemma {:induction false} TieResolves(cfg: Config, ws: seq<World>, es: seq<Event>, t: nat, r: nat, m: MarketId, x: VoteItem)
    requires ConfigOk(cfg) && Run(cfg, ws, es) && t < r < |es| && es[r] == Resolve(m) && m in ws[r].s.courtOf
    requires var c := ws[r].s.courtOf[m];
             && IsAppeal(es[t], c) && (forall u :: t < u < r ==> !IsAppeal(es[u], c))
             && IsTie(DrawsIn(ws[r].s.draws, c)) && Leads(DrawsIn(ws[t].s.draws, c), x)
    ensures var c := ws[r].s.courtOf[m];
            c in ws[r + 1].s.courts && ws[r + 1].s.courts[c].status == Closed(x)
  {
    hide Step, IsTie, Leads, IsRevealed, ConfigOk;
    var c := ws[r].s.courtOf[m];
    ResolutionTheorem(cfg, ws, es, r, m);
    TieTheorem(cfg, ws, es, t, r, c, ws[r].s.markets[m].report.value, ws[r + 1].s.courts[c].status.winner);
  }

  // ---- The appeals of a court ----

  function Doubled(x: nat, n: nat): nat { if n == 0 then x else 2 * Doubled(x, n - 1) }

  lemma {:induction false} DoubledIsPower(x: nat, n: nat)
    ensures Doubled(x, n) == x * Pow2(n)
  {
    if n > 0 {
      DoubledIsPower(x, n - 1);
      assert x * (2 * Pow2(n - 1)) == 2 * (x * Pow2(n - 1));
    }
  }

  /** The bond doubles with every appeal, and is twice the configured one for the first, as far as the
      factor fits 32 bits and the bond a balance. */
  lemma {:induction false} BondDoubles(cfg: Config, number: nat)
    requires Pow2(number) <= U32_MAX
    ensures AppealBond(cfg, number) == Min(Doubled(cfg.appealBond, number), U128_MAX)
  {
    DoubledIsPower(cfg.appealBond, number);
  }

  /** Every stored appeal goes back to a call in the appeal period, in the order of the calls. It records
      the caller, a bond that has doubled with every appeal, and what the court would have resolved on. */
  lemma {:induction false} AppealTheorem(cfg: Config, ws: seq<World>, es: seq<Event>, i: nat, c: CourtId, n: nat, report: OutcomeReport)
    returns (t: nat)
    requires ConfigOk(cfg) && Run(cfg, ws, es) && i < |ws| && c in ws[i].s.courts && n < |ws[i].s.courts[c].appeals|
    requires ReportOf(ws[i].s, c) == Some(report)
    ensures t < i && IsAppeal(es[t], c) && c in ws[t].s.courts && ws[t].s.courts[c].appeals == ws[i].s.courts[c].appeals[..n]
    ensures ws[t].s.courts[c].roundEnds.aggregation < ws[t].s.now < ws[t].s.courts[c].roundEnds.appeal
    ensures var appeal := ws[i].s.courts[c].appeals[n];
            && appeal.backer == es[t].who
            && (Pow2(n + 1) <= U32_MAX ==> appeal.bond == Min(Doubled(cfg.appealBond, n + 1), U128_MAX))
            && DecidedAt(ws, es, t, c, report, appeal.appealedItem)
  {
    hide Step, StoreOk, CommitmentsOk, WinnersOk, LatestWinner, AppealBond, DecidedAt;
    LastAppealIs(cfg, ws, es, i, c);
    t := LastAppeal(es, i, c).value;
    assert Step(cfg, ws[t].s, es[t], ws[t + 1].s);
    AppealRecords(cfg, ws[t].s, es[t], ws[t + 1].s, c);
    AppealHasCourt(cfg, ws[t].s, es[t], ws[t + 1].s, c);
    ReportStays(cfg, ws, es, t, i, c);
    var appeals := ws[i].s.courts[c].appeals;
    if n == |appeals| - 1 {
      if Pow2(n + 1) <= U32_MAX {
        BondDoubles(cfg, n + 1);
      }
      DecidedTheorem(cfg, ws, es, t, c, report);
    } else {
      assert ws[t].s.courts[c].appeals[..n] == appeals[..n];
      t := AppealTheorem(cfg, ws, es, t, c, n, report);
    }
  }

  /** An appeal passes its checks exactly if fewer than the allowed appeals were made, the caller can pay the doubled
      bond from what the court has not locked, the market is disputed, uses the court and has a report, and the appeal period lies around this block. */
  lemma {:induction false} AppealIff(cfg: Config, s: Storage, who: AccountId, c: CourtId)
    requires StoreOk(cfg, s) && c in s.courts && Pow2(|s.courts[c].appeals| + 1) <= U32_MAX
    ensures AppealError(cfg, s, who, c).None? <==>
              var number, m := |s.courts[c].appeals| + 1, s.marketOf[c];
              && number <= cfg.maxAppeals
              && Min(Doubled(cfg.appealBond, number), U128_MAX) + LockOf(s.bench, who) <= Free(s, who)
              && m in s.markets && m in s.disputed && s.markets[m].usesCourt && s.markets[m].report.Some?
              && s.courts[c].roundEnds.aggregation < s.now < s.courts[c].roundEnds.appeal
  {
    CourtBelow(cfg, s, c);
    hide StoreOk, Doubled, AppealBond, Pow2;
    BondDoubles(cfg, |s.courts[c].appeals| + 1);
  }

  /** What a global dispute gets from a court: the appealed outcomes, in order, that are not the oracle's. */
  lemma {:induction false} AppealedOutcomesAre(appeals: seq<AppealInfo>, oracle: OutcomeReport, o: OutcomeReport)
    ensures o in AppealedOutcomes(appeals, oracle) <==>
              o != oracle && exists i :: 0 <= i < |appeals| && appeals[i].appealedItem == Outcome(o)
  {
    if appeals != [] {
      var before, last := appeals[..|appeals| - 1], appeals[|appeals| - 1];
      AppealedOutcomesAre(before, oracle, o);
      if i :| 0 <= i < |before| && before[i].appealedItem == Outcome(o) {
        assert appeals[i].appealedItem == Outcome(o);
      }
      if i :| 0 <= i < |appeals| && appeals[i].appealedItem == Outcome(o) {
        assert i < |before| ==> before[i].appealedItem == Outcome(o);
      }
    }
  }

  lemma {:induction false} AppealedOutcomesInOrder(appeals: seq<AppealInfo>, oracle: OutcomeReport)
    requires forall i :: 0 <= i < |appeals| ==> appeals[i].appealedItem.Outcome? && appeals[i].appealedItem.report != oracle
    ensures |AppealedOutcomes(appeals, oracle)| == |appeals|
    ensures forall i :: 0 <= i < |appeals| ==> Outcome(AppealedOutcomes(appeals, oracle)[i]) == appeals[i].appealedItem
  {
    if appeals != [] {
      AppealedOutcomesInOrder(appeals[..|appeals| - 1], oracle);
    }
  }
}
