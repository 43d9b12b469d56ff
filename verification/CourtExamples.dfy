/** Concrete inputs at which the court pallet does something other than intended: a removal that
    takes the wrong item, a removal that runs past the end of the pool, and a run in which a
    reassignment releases stake that an open court has put at risk. */
module CourtExamples {
  import opened Numbers
  import opened Ordered
  import opened CourtTypes
  import opened CourtPool
  import opened JurySelection
  import opened JuryDraws
  import opened CourtWinner
  import opened CourtStorage
  import opened CourtSteps
  import opened CourtInvariants
  import opened CourtLocks
  import opened CourtRuns
  import Reassignment

  /** One appeal, a section of one token, and periods of one block. */
  function Cfg(): Config {
    Config(1, 3, 1, 62, 1, 1, 1, 1, 1, 1, 0, 2, (a, item, salt) => 0)
  }

  lemma {:induction false} CfgOk()
    ensures ConfigOk(Cfg()) && NecessaryDrawsWeight(0) == 31
  {
  }

  /** Hits of the sections `start + 1`, ..., `end` on the item at `index`. */
  function HitsOn(start: nat, end: nat, index: nat, account: AccountId, target: Target): (log: Log)
    requires start <= end
    ensures |log| == end - start
    ensures forall t :: 0 <= t < |log| ==> log[t] == Hit(start + t + 1, index, account, target)
  {
    if start == end then [] else HitsOn(start, end - 1, index, account, target) + [Hit(end, index, account, target)]
  }

  /** All of them count alike. */
  lemma {:induction false} AllCount(log: Log, q: Query, counts: bool)
    requires forall t :: 0 <= t < |log| ==> Counts(q, log[t]) == counts
    ensures Count(log, q) == if counts then |log| else 0
  {
    if log != [] {
      AllCount(log[..|log| - 1], q, counts);
    }
  }

  lemma {:induction false} NoneFail(log: Log)
    requires forall t :: 0 <= t < |log| ==> !log[t].target.Nobody?
    ensures FailedIndices(log) == []
  {
    if log != [] {
      NoneFail(log[..|log| - 1]);
    }
  }

  lemma {:induction false} AllFail(log: Log)
    requires forall t :: 0 <= t < |log| ==> log[t].target.Nobody? && log[t].index == 0
    ensures |FailedIndices(log)| == |log| && forall k :: 0 <= k < |log| ==> FailedIndices(log)[k] == 0
  {
    if log != [] {
      AllFail(log[..|log| - 1]);
    }
  }

  lemma {:induction false} FailedConcat(log: Log, more: Log)
    requires forall t :: 0 <= t < |more| ==> !more[t].target.Nobody?
    ensures FailedIndices(log + more) == FailedIndices(log)
  {
    if more == [] {
      assert log + more == log;
    } else {
      FailedConcat(log, more[..|more| - 1]);
      assert (log + more)[..|log + more| - 1] == log + more[..|more| - 1];
    }
  }

  // ---- Removals ----

  /** A delegator whose delegate has left, and two jurors. */
  function Trio(): Bench {
    Bench([PoolItem(2, 1, 0, 1), PoolItem(50, 2, 0, 1), PoolItem(100, 3, 0, 1)],
          map[1 := ParticipantInfo(2, 0, None, Some([9])), 2 := ParticipantInfo(50, 0, None, None),
              3 := ParticipantInfo(100, 0, None, None)],
          map[1 := 2, 2 := 50, 3 := 100])
  }

  /** Both sections of the delegator are hit, and then 29 of the first juror. */
  function TrioLog(): Log { HitsOn(0, 2, 0, 1, Nobody) + HitsOn(2, 31, 1, 2, Own) }

  function TrioAfter(): Bench {
    Bench([AfterHits(Cfg(), Trio().pool, TrioLog())[2]], WithLocks(Cfg(), Trio().participants, TrioLog()), Trio().locks)
  }

  lemma {:induction false} TrioOk()
    ensures BenchOk(Cfg(), Trio())
  {
  }

  lemma {:induction false} TrioHits()
    ensures HitsOk(Trio().pool, SectionCounts(Trio().pool, 1), TrioLog())
  {
    var counts := SectionCounts(Trio().pool, 1);
    assert counts == [2, 50, 100];
    assert SumTo(counts, 0) == 0 && SumTo(counts, 1) == 2 && SumTo(counts, 2) == 52;
  }

  lemma {:induction false} TrioTargets()
    ensures TargetsOk(Trio(), TrioLog())
  {
    assert ValidJurors(Trio(), [9]) == [];
  }

  /** Index 0 was collected twice, and the two removals take the delegator and the juror behind
      it, whose index was not collected and who has just been drawn. */
  lemma {:induction false} WrongItemRemoved()
    ensures BenchOk(Cfg(), Trio()) && |TrioLog()| == NecessaryDrawsWeight(0)
    ensures Chosen(Cfg(), Trio(), TrioAfter(), NecessaryDrawsWeight(0), TrioLog(), DrawsOf(Tally(Cfg(), TrioLog())))
    ensures FailedIndices(TrioLog()) == [0, 0]
    ensures IndexOf(Trio().pool, 2) == Some(1) && IndexOf(TrioAfter().pool, 2).None?
  {
    hide BenchOk, HitsOk, TargetsOk, WithLocks, Tally;
    CfgOk();
    TrioOk();
    TrioHits();
    TrioTargets();
    var mid := AfterHits(Cfg(), Trio().pool, TrioLog());
    AllFail(HitsOn(0, 2, 0, 1, Nobody));
    FailedConcat(HitsOn(0, 2, 0, 1, Nobody), HitsOn(2, 31, 1, 2, Own));
    assert FailedIndices(TrioLog()) == [0, 0];
    RemoveTwice(mid);
  }

  lemma {:induction false} RemoveTwice<T>(s: seq<T>)
    requires |s| == 3
    ensures RemoveEach(s, [0, 0]) == Some([s[2]])
  {
    assert RemoveEach(s, []) == Some(s);
    assert [0, 0][..1] == [0] && [0][..0] == [];
    assert RemoveAt(s, 0) == [s[1], s[2]] && RemoveAt([s[1], s[2]], 0) == [s[2]];
  }

  /** A single delegator with 31 sections, whose delegate has left. */
  function Lone(): Bench {
    Bench([PoolItem(31, 1, 0, 1)], map[1 := ParticipantInfo(31, 0, None, Some([9]))], map[1 := 31])
  }

  function LoneLog(): Log { HitsOn(0, 31, 0, 1, Nobody) }

  lemma {:induction false} LoneHits()
    ensures HitsOk(Lone().pool, SectionCounts(Lone().pool, 1), LoneLog())
  {
    hide HitsOn;
    var counts := SectionCounts(Lone().pool, 1);
    assert counts == [31];
    assert SumTo(counts, 0) == 0 && SumTo(counts, 1) == 31;
  }

  lemma {:induction false} LoneTargets()
    ensures BenchOk(Cfg(), Lone()) && TargetsOk(Lone(), LoneLog())
  {
    hide HitsOn;
    assert ValidJurors(Lone(), [9]) == [];
  }

  /** All 31 sections are hit, and the removal of index 0 for each of them panics. */
  lemma {:induction false} RemovalRunsOut()
    ensures BenchOk(Cfg(), Lone()) && |LoneLog()| == NecessaryDrawsWeight(0)
    ensures HitsOk(Lone().pool, SectionCounts(Lone().pool, 1), LoneLog()) && TargetsOk(Lone(), LoneLog())
    ensures RemoveEach(AfterHits(Cfg(), Lone().pool, LoneLog()), FailedIndices(LoneLog())).None?
  {
    hide HitsOn, BenchOk, HitsOk, TargetsOk, AfterHits, FailedIndices;
    LoneHits();
    LoneTargets();
    AllFail(LoneLog());
    RemovalPanics(AfterHits(Cfg(), Lone().pool, LoneLog()), FailedIndices(LoneLog()));
  }

  // ---- A reassignment that releases stake of an open court ----

  /** One juror, account 7, with a stake of 100. */
  function Juror(consumed: Balance, lock: Balance): Bench {
    Bench([PoolItem(100, 7, consumed, 1)], map[7 := ParticipantInfo(100, lock, None, None)], map[7 := 100])
  }

  /** The first 31 of the juror's sections are hit. */
  function JurorLog(): Log { HitsOn(0, 31, 0, 7, Own) }

  function Jury(): seq<Draw> { DrawsOf(Tally(Cfg(), JurorLog())) }

  lemma {:induction false} JurorHits(used: nat)
    requires used <= 69
    ensures AfterHits(Cfg(), Juror(used, used).pool, JurorLog()) == Juror(used + 31, used + 31).pool
    ensures WithLocks(Cfg(), Juror(used, used).participants, JurorLog()) == Juror(used + 31, used + 31).participants
  {
    AllCount(JurorLog(), Of(7), true);
    TimesIsProduct(31, 1);
  }

  lemma {:induction false} JurorSections(used: nat)
    requires used <= 69
    ensures HitsOk(Juror(used, used).pool, SectionCounts(Juror(used, used).pool, 1), JurorLog())
  {
    var counts := SectionCounts(Juror(used, used).pool, 1);
    assert counts == [100 - used];
    assert SumTo(counts, 1) == SumTo(counts, 0) + counts[0];
  }

  lemma {:induction false} JurorChosen(used: nat)
    requires used <= 69
    ensures Selected(Cfg(), Juror(used, used), Juror(used + 31, used + 31), 0, JurorLog(), Truncated(Cfg(), Jury()))
  {
    hide AfterHits, WithLocks, HitsOk, Tally;
    CfgOk();
    JurorHits(used);
    JurorSections(used);
    NoneFail(JurorLog());
  }

  lemma {:induction false} JurorOk(used: Balance)
    requires used <= 100
    ensures BenchOk(Cfg(), Juror(used, used))
  {
  }

  /** The juror has 31 tokens at risk in such a jury, and nobody has voted. */
  lemma {:induction false} JuryFacts()
    ensures SlashFor(Jury(), 7) == 31 && Truncated(Cfg(), Jury()) == Jury()
    ensures forall i :: 0 <= i < |Jury()| ==> Jury()[i].vote.Drawn? || Jury()[i].vote.Delegated?
  {
    hide BenchOk, Tally, HitsOk, Selected, Chosen, DrawsOk, Juror;
    CfgOk();
    JurorOk(0);
    JurorChosen(0);
    SelectedIsWhole(Cfg(), Juror(0, 0), Juror(31, 31), 0, JurorLog(), Truncated(Cfg(), Jury()));
    JuryTheorem(Cfg(), Juror(0, 0), Juror(31, 31), 31, JurorLog(), Jury());
    LockAccounting(Cfg(), Juror(0, 0), Juror(31, 31), 31, JurorLog(), Jury(), 7);
    AllCount(JurorLog(), Of(7), true);
    AllCount(JurorLog(), FailedOf(7), false);
    TimesIsProduct(31, 1);
  }

  function CourtAt(start: BlockNumber, status: CourtStatus): CourtInfo {
    CourtInfo(status, [], RoundFrom(Cfg(), start), OutcomeType)
  }

  function Reported(): Market { Market(CategoricalMarket(2), true, Some(Categorical(0))) }

  /** Two reported markets, court c for market c, and an account with 100 tokens. */
  function Store(b: Bench, courts: map<CourtId, CourtInfo>, draws: map<CourtId, seq<Draw>>, next: Balance,
                 ids: map<nat, nat>, now: BlockNumber, disputed: set<MarketId>, schedule: map<BlockNumber, seq<MarketId>>)
    : Storage
  {
    Storage(b, courts, draws, next, ids, ids, SatAddBlock(now, 1), map[7 := 100], now,
            map[0 := Reported(), 1 := Reported()], disputed, schedule)
  }

  function Before(): Storage { Store(Bench([], map[], map[]), map[], map[], 0, map[], 1, {}, map[]) }

  function JurorJoined(): Storage { Before().(bench := Juror(0, 0)) }

  /** The first court is open: its round starts at block 2 and ends at block 5. */
  function FirstOpen(now: BlockNumber): Storage {
    Store(Juror(31, 31), map[0 := CourtAt(2, Open)], map[0 := Jury()], 1, map[0 := 0], now, {0}, map[5 := [0]])
  }

  /** The second court is open as well: its round starts at block 3 and ends at block 6. */
  function BothOpen(now: BlockNumber): Storage {
    Store(Juror(62, 62), map[0 := CourtAt(2, Open), 1 := CourtAt(3, Open)], map[0 := Jury(), 1 := Jury()], 2,
          map[0 := 0, 1 := 1], now, {0, 1}, map[5 := [0], 6 := [1]])
  }

  ghost function Winning(): VoteItem { LatestWinner(CourtAt(2, Open), Jury(), Categorical(0)) }

  /** The first court is resolved when it is due, and its stakes are reassigned in the same block;
      account 1 is its reward pot and account 2 the treasury. */
  ghost function FirstClosed(): Storage {
    var s := BothOpen(5);
    s.(bench := s.bench.(participants := Unlocked(s.bench.participants, Jury())),
       courts := s.courts[0 := CourtAt(2, Closed(Winning()))],
       disputed := s.disputed - {0},
       schedule := RemoveResolve(s.schedule, 0, 5))
  }

  ghost function FirstReassigned(): Storage {
    var s := FirstClosed();
    s.(bench := s.bench.(participants := Unlocked(s.bench.participants, Jury())),
       courts := s.courts[0 := CourtAt(2, Reassigned)],
       draws := s.draws - {0},
       balances := Reassignment.Reassigned(s.balances, Jury(), Winning(), 1, 2))
  }

  ghost function Stores(): seq<Storage> {
    [Before(), JurorJoined(), FirstOpen(1), FirstOpen(2), BothOpen(2), BothOpen(3), BothOpen(4), BothOpen(5),
     FirstClosed(), FirstReassigned()]
  }

  function Events(): seq<Event> {
    [Join(7, 100, None), Dispute(0, JurorLog()), NextBlock, Dispute(1, JurorLog()), NextBlock, NextBlock, NextBlock,
     Resolve(0), Reassign(0)]
  }

  lemma {:induction false} JoinsFirst()
    ensures JoinStep(Cfg(), Before(), JurorJoined(), 7, 100, None)
  {
    assert PoolForJoin(Cfg(), [], 7) == [];
    assert InsertItem([], PoolItem(100, 7, 0, 1)) == [PoolItem(100, 7, 0, 1)];
  }

  lemma {:induction false} OpensFirst()
    ensures DisputeStep(Cfg(), JurorJoined(), FirstOpen(1), 0, JurorLog())
  {
    hide Selected, Tally, DrawsOf, Truncated, HitsOn, Jury;
    JurorChosen(0);
    JuryFacts();
    var s, s' := JurorJoined(), FirstOpen(1);
    assert s'.courts == s.courts[0 := CourtInfo(Open, [], RoundFrom(Cfg(), s.requestBlock), OutcomeType)];
    assert ScheduledAt(s.schedule, 5) + [0] == [0] && s'.schedule == s.schedule[5 := [0]];
    assert s'.draws == s.draws[0 := Jury()] && s'.courtOf == s.courtOf[0 := 0] && s'.disputed == s.disputed + {0};
  }

  lemma {:induction false} SecondOpened()
    ensures var s, s' := FirstOpen(2), BothOpen(2);
            && s'.courts == s.courts[1 := CourtAt(s.requestBlock, Open)]
            && AddResolve(Cfg(), s.schedule, 1, RoundFrom(Cfg(), s.requestBlock).appeal) == Ok(s'.schedule)
            && s'.draws == s.draws[1 := Jury()] && s'.courtOf == s.courtOf[1 := 1] && s'.disputed == s.disputed + {1}
            && (forall t: BlockNumber :: TimesScheduled(s.schedule, 1, t) == 0)
  {
    hide Jury, Juror;
    var s, s' := FirstOpen(2), BothOpen(2);
    assert ScheduledAt(s.schedule, 6) + [1] == [1] && s'.schedule == s.schedule[6 := [1]];
  }

  lemma {:induction false} OpensSecond()
    ensures DisputeStep(Cfg(), FirstOpen(2), BothOpen(2), 1, JurorLog())
  {
    hide Selected, Tally, DrawsOf, Truncated, HitsOn, Jury, Juror, AddResolve, TimesScheduled, RoundFrom;
    JurorChosen(31);
    JuryFacts();
    SecondOpened();
  }

  lemma {:induction false} Resolves()
    ensures ResolveStep(BothOpen(5), FirstClosed(), 0)
  {
    hide Tally, DrawsOf, Unlocked, RemoveResolve, LatestWinner, Juror, JurorLog;
    JuryFacts();
    LatestIsOutcome(CourtAt(2, Open), Jury(), Categorical(0));
  }

  lemma {:induction false} Reassigns()
    ensures ReassignStep(FirstClosed(), FirstReassigned(), 0)
  {
    hide Tally, Unlocked, RemoveResolve, LatestWinner, Juror, JurorLog, DrawsOf;
  }

  lemma {:induction false} BlocksPass(now: BlockNumber)
    requires 2 <= now < 5
    ensures NextBlockStep(Cfg(), FirstOpen(1), FirstOpen(2)) && NextBlockStep(Cfg(), BothOpen(now), BothOpen(now + 1))
  {
    hide Juror, Jury, CourtAt;
  }

  lemma {:induction false} EveryStep(i: nat)
    requires i < |Events()|
    ensures Step(Cfg(), Stores()[i], Events()[i], Stores()[i + 1])
  {
    hide JoinStep, DisputeStep, ResolveStep, ReassignStep, NextBlockStep;
    hide Before, JurorJoined, FirstOpen, BothOpen, FirstClosed, FirstReassigned, JurorLog;
    BlocksPass(2);
    BlocksPass(3);
    BlocksPass(4);
    JoinsFirst();
    OpensFirst();
    OpensSecond();
    Resolves();
    Reassigns();
  }

  /** The worlds of a sequence of stores: every sequence of steps can be recorded. */
  ghost function WorldAt(cfg: Config, stores: seq<Storage>, es: seq<Event>, i: nat): World
    requires i <= |es| && |stores| == |es| + 1
  {
    if i == 0 then World(stores[0], [], map[], {})
    else
      var w := WorldAt(cfg, stores, es, i - 1);
      World(stores[i], w.hits + HitsOf(es[i - 1]), CastAfter(cfg, w.cast, w.s, es[i - 1]), EarlyAfter(w.s, w.early, es[i - 1]))
  }

  ghost function WorldsTo(cfg: Config, stores: seq<Storage>, es: seq<Event>, n: nat): (ws: seq<World>)
    requires n <= |stores| == |es| + 1
    ensures |ws| == n && forall i :: 0 <= i < n ==> ws[i] == WorldAt(cfg, stores, es, i)
  {
    if n == 0 then [] else WorldsTo(cfg, stores, es, n - 1) + [WorldAt(cfg, stores, es, n - 1)]
  }

  ghost function Worlds(): seq<World> { WorldsTo(Cfg(), Stores(), Events(), 10) }

  lemma {:induction false} WorldsRun()
    ensures Cfg().Valid() && Run(Cfg(), Worlds(), Events())
  {
    hide Step, HitsOf, CastAfter, EarlyAfter, Juror, FirstOpen, BothOpen, FirstClosed, FirstReassigned, JurorLog;
    CfgOk();
    var ws, es := Worlds(), Events();
    forall i | 0 <= i < |es|
      ensures Step(Cfg(), ws[i].s, es[i], ws[i + 1].s) && Recorded(Cfg(), ws[i], es[i], ws[i + 1])
    {
      EveryStep(i);
    }
  }

  lemma {:induction false} RisksAtEnd()
    ensures RiskOf(FirstClosed(), 7) == 31 && ActiveLock(FirstClosed().bench, 7) == 31
    ensures RiskOf(FirstReassigned(), 7) == 31 && ActiveLock(FirstReassigned().bench, 7) == 0
  {
    hide Tally, RemoveResolve, LatestWinner;
    JuryFacts();
  }

  /** A run of nine calls after which account 7 has 31 tokens at risk in an open court and
      nothing locked: the reassignment of the first court has released what the second one locked. */
  lemma {:induction false} ReassignReleasesOpenStake()
    ensures ConfigOk(Cfg()) && Run(Cfg(), Worlds(), Events())
    ensures Events()[8] == Reassign(0)
    ensures RiskOf(Worlds()[8].s, 7) == ActiveLock(Worlds()[8].s.bench, 7) == 31
    ensures RiskOf(Worlds()[9].s, 7) == 31 && ActiveLock(Worlds()[9].s.bench, 7) == 0
  {
    hide Run, ConfigOk, RiskOf, ActiveLock, Juror, FirstOpen, BothOpen, FirstClosed, FirstReassigned, JurorLog, CastAfter, EarlyAfter, HitsOf;
    CfgOk();
    WorldsRun();
    RisksAtEnd();
    assert Worlds()[8].s == FirstClosed() && Worlds()[9].s == FirstReassigned();
  }
}
