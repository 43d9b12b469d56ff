/** The storage of the court pallet and what its calls do to it. */
module CourtStorage {
  import opened Numbers
  import opened Ordered
  import opened CourtTypes
  import opened CourtPool
  import opened JurySelection
  import opened JuryDraws
  import opened CourtVotes
  import opened CourtWinner

  datatype Storage = Storage(
    bench: Bench,
    courts: map<CourtId, CourtInfo>,
    draws: map<CourtId, seq<Draw>>,
    nextCourtId: Balance,
    marketOf: map<CourtId, MarketId>,
    courtOf: map<MarketId, CourtId>,
    requestBlock: BlockNumber,
    balances: map<AccountId, Balance>,
    // Outside the pallet: the block number, the markets, which of them are disputed, and the
    // blocks at which they are to be resolved.
    now: BlockNumber,
    markets: map<MarketId, Market>,
    disputed: set<MarketId>,
    schedule: map<BlockNumber, seq<MarketId>>)

  function DrawsIn(draws: map<CourtId, seq<Draw>>, c: CourtId): seq<Draw> {
    if c in draws then draws[c] else []
  }

  function Free(s: Storage, who: AccountId): Balance {
    if who in s.balances then s.balances[who] else 0
  }

  // ---- The resolution schedule ----

  function ScheduledAt(schedule: map<BlockNumber, seq<MarketId>>, at: BlockNumber): seq<MarketId> {
    if at in schedule then schedule[at] else []
  }

  function AddResolve(cfg: Config, schedule: map<BlockNumber, seq<MarketId>>, m: MarketId, at: BlockNumber)
    : Result<map<BlockNumber, seq<MarketId>>>
  {
    var ids := ScheduledAt(schedule, at);
    if |ids| < cfg.resolutionsPerBlock then Ok(schedule[at := ids + [m]]) else Err(StorageOverflow)
  }

  /** The index of a market in a list of markets. */
  function MarketIndex(ids: seq<MarketId>, m: MarketId): (r: Option<nat>)
    ensures r.Some? ==> r.value < |ids| && ids[r.value] == m
    ensures r.None? ==> m !in ids
  {
    if ids == [] then None
    else if ids[0] == m then Some(0)
    else match MarketIndex(ids[1..], m)
      case Some(i) => Some(i + 1)
      case None => None
  }

  /** Remove the first occurrence by moving the last element there. */
  function SwapRemove(ids: seq<MarketId>, m: MarketId): seq<MarketId> {
    match MarketIndex(ids, m)
    case None => ids
    case Some(i) => ids[i := ids[|ids| - 1]][..|ids| - 1]
  }

  function RemoveResolve(schedule: map<BlockNumber, seq<MarketId>>, m: MarketId, at: BlockNumber)
    : map<BlockNumber, seq<MarketId>>
  {
    schedule[at := SwapRemove(ScheduledAt(schedule, at), m)]
  }

  /** How often a market is to be resolved at a block. */
  function TimesScheduled(schedule: map<BlockNumber, seq<MarketId>>, m: MarketId, at: BlockNumber): nat {
    multiset(ScheduledAt(schedule, at))[m]
  }

  lemma {:induction false} AddResolveCounts(cfg: Config, schedule: map<BlockNumber, seq<MarketId>>, m: MarketId, at: BlockNumber,
                                            m': MarketId, at': BlockNumber)
    requires AddResolve(cfg, schedule, m, at).Ok?
    ensures TimesScheduled(AddResolve(cfg, schedule, m, at).value, m', at')
         == TimesScheduled(schedule, m', at') + if m' == m && at' == at then 1 else 0
  {
  }

  lemma {:induction false} SwapRemoveCounts(ids: seq<MarketId>, m: MarketId)
    ensures multiset(SwapRemove(ids, m)) == multiset(ids) - multiset{m}
  {
    match MarketIndex(ids, m)
    case None => assert multiset(ids)[m] == 0;
    case Some(i) =>
      var last, moved := ids[|ids| - 1], ids[i := ids[|ids| - 1]];
      assert moved == moved[..|ids| - 1] + [last];
      assert multiset(moved) == multiset(moved[..|ids| - 1]) + multiset{last};
      assert multiset(moved) == multiset(ids) - multiset{m} + multiset{last};
      forall x
        ensures multiset(moved[..|ids| - 1])[x] == (multiset(ids) - multiset{m})[x]
      {
        assert multiset(moved)[x] == multiset(moved[..|ids| - 1])[x] + multiset{last}[x];
      }
  }

  lemma {:induction false} RemoveResolveCounts(schedule: map<BlockNumber, seq<MarketId>>, m: MarketId, at: BlockNumber,
                                               m': MarketId, at': BlockNumber)
    ensures TimesScheduled(RemoveResolve(schedule, m, at), m', at')
         == if m' == m && at' == at then SatSub(TimesScheduled(schedule, m, at), 1)
            else TimesScheduled(schedule, m', at')
  {
    SwapRemoveCounts(ScheduledAt(schedule, at), m);
  }

  // ---- Rounds ----

  /** The ends of a round that starts at `preVote`. */
  function RoundFrom(cfg: Config, preVote: BlockNumber): RoundTiming {
    var vote := SatAddBlock(preVote, cfg.votePeriod);
    var aggregation := SatAddBlock(vote, cfg.aggregationPeriod);
    RoundTiming(preVote, vote, aggregation, SatAddBlock(aggregation, cfg.appealPeriod))
  }

  function SatPow2(e: nat): nat { Min(Pow2(e), U32_MAX) }

  /** The number of sections to draw: `usize` is 32 bits wide in the runtime. */
  function NecessaryDrawsWeight(appeals: nat): nat {
    SatAddAt(Min(SatPow2(appeals) * 31, U32_MAX), SatSub(SatPow2(appeals), 1), U32_MAX)
  }

  lemma {:induction false} DrawsWeightIsPower(appeals: nat)
    requires Pow2(appeals + 5) <= U32_MAX
    ensures NecessaryDrawsWeight(appeals) == Pow2(appeals + 5) - 1
  {
    Pow2Mono(appeals, appeals);
    assert Pow2(appeals + 5) == 32 * Pow2(appeals) by {
      assert Pow2(appeals + 2) == 4 * Pow2(appeals);
      assert Pow2(appeals + 4) == 4 * Pow2(appeals + 2);
    }
  }

  lemma {:induction false} Pow2Mono(a: nat, b: nat)
    requires a <= b
    ensures 1 <= Pow2(a) <= Pow2(b)
    decreases b
  {
    if a < b {
      Pow2Mono(a, b - 1);
    } else if a > 0 {
      Pow2Mono(a - 1, a - 1);
    }
  }

  lemma {:induction false} DrawsWeightMono(a: nat, b: nat)
    requires a <= b
    ensures NecessaryDrawsWeight(a) <= NecessaryDrawsWeight(b) <= U32_MAX
  {
    Pow2Mono(a, b);
  }

  // ---- Calls that move the bench ----

  function DelegateError(b: Bench, cfg: Config, who: AccountId, delegations: seq<AccountId>): Option<Error> {
    if delegations == [] then Some(NoDelegations)
    else if |delegations| > cfg.maxDelegations then Some(MaxDelegationsReached)
    else if exists i :: 0 <= i < |delegations| && !CanBeDelegate(b, delegations[i]) then Some(DelegatedToInvalidJuror)
    else if exists i, j :: 0 <= i < j < |delegations| && delegations[i] == delegations[j] then
      Some(IdenticalDelegationsNotAllowed)
    else if who in delegations then Some(SelfDelegationNotAllowed)
    else None
  }

  /** `sort` on a vector of accounts. */
  function SortList(s: seq<AccountId>): (t: seq<AccountId>)
    ensures Nondecreasing(t) && multiset(t) == multiset(s) && |t| == |s|
  {
    if s == [] then []
    else
      assert s == [s[0]] + s[1..];
      InsertInOrder(SortList(s[1..]), s[0])
  }

  function InsertInOrder(s: seq<AccountId>, x: AccountId): (t: seq<AccountId>)
    requires Nondecreasing(s)
    ensures Nondecreasing(t) && multiset(t) == multiset(s) + multiset{x} && |t| == |s| + 1
  {
    var i := Rank(s, x);
    InsertedElements(s, i, x);
    s[..i] + [x] + s[i..]
  }

  lemma {:induction false} InsertedElements(s: seq<AccountId>, i: nat, x: AccountId)
    requires i <= |s|
    ensures multiset(s[..i] + [x] + s[i..]) == multiset(s) + multiset{x}
  {
    assert s == s[..i] + s[i..];
  }

  /** Sorting keeps the elements, and brings equal ones next to each other. */
  lemma {:induction false} SortListElements(s: seq<AccountId>, x: AccountId)
    ensures x in SortList(s) <==> x in s
  {
    assert x in multiset(s) <==> x in s;
    assert x in multiset(SortList(s)) <==> x in SortList(s);
  }

  lemma {:induction false} NoNeighboursEqual(t: seq<AccountId>)
    requires Nondecreasing(t)
    ensures (forall i :: 0 <= i < |t| - 1 ==> t[i] != t[i + 1]) <==> Increasing(t)
  {
    if forall i :: 0 <= i < |t| - 1 ==> t[i] != t[i + 1] {
      forall i, j | 0 <= i < j < |t|
        ensures t[i] < t[j]
      {
        assert t[i] != t[i + 1];
      }
    }
  }

  lemma {:induction false} DistinctIffIncreasing(s: seq<AccountId>)
    ensures (exists i, j :: 0 <= i < j < |s| && s[i] == s[j]) <==> !Increasing(SortList(s))
  {
    var t := SortList(s);
    if i, j :| 0 <= i < j < |s| && s[i] == s[j] {
      TwiceInList(s, i, j);
      if Increasing(t) {
        OnceInList(t, s[i]);
      }
    } else {
      if !Increasing(t) {
        var i, j :| 0 <= i < j < |t| && !(t[i] < t[j]);
        TwiceInList(t, i, j);
        OnceInList(s, t[i]);
      }
    }
  }

  lemma {:induction false} TwiceInList(s: seq<AccountId>, i: nat, j: nat)
    requires i < j < |s| && s[i] == s[j]
    ensures multiset(s)[s[i]] >= 2
  {
    assert s == s[..j] + [s[j]] + s[j + 1..];
    assert s[i] in multiset(s[..j]) by {
      assert s[..j][i] == s[i];
    }
  }

  lemma {:induction false} OnceInList(s: seq<AccountId>, x: AccountId)
    requires Distinct(s)
    ensures multiset(s)[x] <= 1
  {
    if s != [] {
      OnceInList(s[1..], x);
      assert s == [s[0]] + s[1..];
      assert s[0] !in s[1..] by {
        assert forall k :: 0 <= k < |s| - 1 ==> s[1..][k] == s[k + 1];
      }
    }
  }

  function PrepareExitError(b: Bench, who: AccountId): Option<Error> {
    if who !in b.participants then Some(JurorDoesNotExist)
    else if b.participants[who].prepareExitAt.Some? then Some(AlreadyPreparedExit)
    else None
  }

  // ---- Calls that move votes ----

  function ItemTypeError(court: CourtInfo, item: VoteItem): Option<Error> {
    match court.itemType
    case OutcomeType => if item.Outcome? then None else Some(InvalidVoteItemForOutcomeCourt)
    case BinaryType => if item.Binary? then None else Some(InvalidVoteItemForBinaryCourt)
  }

  function MarketItemError(s: Storage, c: CourtId, item: VoteItem): Option<Error> {
    if c !in s.marketOf then None
    else if s.marketOf[c] !in s.markets then Some(MarketDoesNotExist)
    else if !item.Outcome? then Some(VoteItemIsNoOutcome)
    else if !s.markets[s.marketOf[c]].Matches(item.report) then Some(OutcomeMismatch)
    else None
  }

  function VoteCall(s: Storage, who: AccountId, c: CourtId, commitment: Hash): Result<seq<Draw>> {
    if c !in s.courts then Err(CourtNotFound)
    else if !(s.courts[c].roundEnds.preVote < s.now <= s.courts[c].roundEnds.vote) then Err(NotInVotingPeriod)
    else CastVote(DrawsIn(s.draws, c), who, commitment)
  }

  function DenounceCall(cfg: Config, s: Storage, who: AccountId, c: CourtId, juror: AccountId, item: VoteItem, salt: Hash)
    : Result<seq<Draw>>
  {
    if MarketItemError(s, c, item).Some? then Err(MarketItemError(s, c, item).value)
    else if who == juror then Err(CallerDenouncedItself)
    else if juror !in s.bench.participants then Err(JurorDoesNotExist)
    else if c !in s.courts then Err(CourtNotFound)
    else if ItemTypeError(s.courts[c], item).Some? then Err(ItemTypeError(s.courts[c], item).value)
    else if !(s.courts[c].roundEnds.preVote < s.now <= s.courts[c].roundEnds.vote) then Err(NotInVotingPeriod)
    else OpenVote(cfg, DrawsIn(s.draws, c), juror, item, salt, true)
  }

  function RevealCall(cfg: Config, s: Storage, who: AccountId, c: CourtId, item: VoteItem, salt: Hash): Result<seq<Draw>> {
    if MarketItemError(s, c, item).Some? then Err(MarketItemError(s, c, item).value)
    else if who !in s.bench.participants then Err(CallerIsNotACourtParticipant)
    else if c !in s.courts then Err(CourtNotFound)
    else if ItemTypeError(s.courts[c], item).Some? then Err(ItemTypeError(s.courts[c], item).value)
    else if !(s.courts[c].roundEnds.vote < s.now <= s.courts[c].roundEnds.aggregation) then Err(NotInAggregationPeriod)
    else OpenVote(cfg, DrawsIn(s.draws, c), who, item, salt, false)
  }

  // ---- The result of a court ----

  function LastAppealed(court: CourtInfo): Option<VoteItem> {
    if court.appeals == [] then None else Some(court.appeals[|court.appeals| - 1].appealedItem)
  }

  /** The item a court would resolve on: the winner of the round, the item of the last appeal on
      a tie, or the oracle's report. */
  ghost function LatestWinner(court: CourtInfo, draws: seq<Draw>, report: OutcomeReport): VoteItem {
    match Winner(draws, LastAppealed(court))
    case Some(item) => item
    case None => Outcome(report)
  }

  // ---- Unlocking ----

  /** The participants after the stakes at risk in `draws` are released. */
  function Unlocked(participants: map<AccountId, ParticipantInfo>, draws: seq<Draw>): map<AccountId, ParticipantInfo> {
    map a | a in participants ::
      participants[a].(activeLock := SatSub(participants[a].activeLock, SlashFor(draws, a)))
  }

  lemma {:induction false} UnlockedOk(cfg: Config, b: Bench, draws: seq<Draw>)
    requires BenchOk(cfg, b)
    ensures BenchOk(cfg, b.(participants := Unlocked(b.participants, draws)))
  {
    var b' := b.(participants := Unlocked(b.participants, draws));
    forall i | 0 <= i < |b'.pool|
      ensures ItemOk(b'.pool[i], b'.participants)
    {
      assert ItemOk(b.pool[i], b.participants);
    }
    forall a | a in b'.participants
      ensures ParticipantOk(cfg, a, b'.participants[a])
    {
      assert ParticipantOk(cfg, a, b.participants[a]);
    }
  }
}
