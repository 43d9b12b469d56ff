/** The stake-weighted pool, its agreement with the `Participants` map, and what joining and
    leaving do to both. */
module CourtPool {
  import opened Numbers
  import opened Ordered
  import opened CourtTypes

  /** The pool, the participants and the currency locks behind their stakes. */
  datatype Bench = Bench(
    pool: seq<PoolItem>,
    participants: map<AccountId, ParticipantInfo>,
    locks: map<AccountId, Balance>)

  // ---- The order of the pool ----

  /** The pool's sort key is (stake, account). */
  predicate KeyLess(stake: Balance, account: AccountId, stake': Balance, account': AccountId) {
    stake < stake' || (stake == stake' && account < account')
  }

  predicate Less(a: PoolItem, b: PoolItem) {
    KeyLess(a.stake, a.account, b.stake, b.account)
  }

  ghost predicate PoolSorted(pool: seq<PoolItem>) {
    forall i, j :: 0 <= i < j < |pool| ==> Less(pool[i], pool[j])
  }

  /** Where the binary search by key over a sorted pool ends up. */
  function PoolPosition(pool: seq<PoolItem>, stake: Balance, account: AccountId): (i: nat)
    ensures i <= |pool|
    ensures forall j :: 0 <= j < i ==> KeyLess(pool[j].stake, pool[j].account, stake, account)
    ensures i < |pool| ==> !KeyLess(pool[i].stake, pool[i].account, stake, account)
  {
    if pool == [] || !KeyLess(pool[0].stake, pool[0].account, stake, account) then 0
    else 1 + PoolPosition(pool[1..], stake, account)
  }

  predicate FoundAt(pool: seq<PoolItem>, i: nat, stake: Balance, account: AccountId) {
    i < |pool| && pool[i].stake == stake && pool[i].account == account
  }

  /** The index of the pool item with this stake and account, if the search finds one. */
  function GetPoolItem(pool: seq<PoolItem>, stake: Balance, account: AccountId): Option<nat> {
    var i := PoolPosition(pool, stake, account);
    if FoundAt(pool, i, stake, account) then Some(i) else None
  }

  function RemoveAt<T>(s: seq<T>, i: nat): seq<T>
    requires i < |s|
  {
    s[..i] + s[i + 1..]
  }

  function InsertAt<T>(s: seq<T>, i: nat, x: T): seq<T>
    requires i <= |s|
  {
    s[..i] + [x] + s[i..]
  }

  function InsertItem(pool: seq<PoolItem>, item: PoolItem): seq<PoolItem> {
    InsertAt(pool, PoolPosition(pool, item.stake, item.account), item)
  }

  lemma {:induction false} RemoveKeepsOrder(pool: seq<PoolItem>, i: nat)
    requires PoolSorted(pool) && i < |pool|
    ensures PoolSorted(RemoveAt(pool, i))
  {
  }

  lemma {:induction false} InsertKeepsOrder(pool: seq<PoolItem>, item: PoolItem)
    requires PoolSorted(pool)
    requires forall i :: 0 <= i < |pool| ==> pool[i].account != item.account
    ensures PoolSorted(InsertItem(pool, item))
  {
  }

  // ---- Agreement of the pool with the participants ----

  /** A pool item mirrors a participant who has not asked to leave, and the stake that draws
      have consumed covers what is still locked. */
  ghost predicate ItemOk(item: PoolItem, participants: map<AccountId, ParticipantInfo>) {
    && item.account in participants
    && participants[item.account].stake == item.stake
    && participants[item.account].prepareExitAt.None?
    && participants[item.account].activeLock <= item.consumedStake <= item.stake
  }

  ghost predicate DelegationsOk(cfg: Config, who: AccountId, delegations: Option<seq<AccountId>>) {
    delegations.Some? ==>
      && Increasing(delegations.value)
      && 0 < |delegations.value| <= cfg.maxDelegations
      && who !in delegations.value
  }

  ghost predicate ParticipantOk(cfg: Config, who: AccountId, info: ParticipantInfo) {
    info.activeLock <= info.stake && DelegationsOk(cfg, who, info.delegations)
  }

  /** The participants, and the currency lock of each of them, which is exactly the stake. */
  ghost predicate ParticipantsOk(cfg: Config, b: Bench) {
    && (forall a :: a in b.participants ==> ParticipantOk(cfg, a, b.participants[a]))
    && b.locks.Keys == b.participants.Keys
    && (forall a :: a in b.participants ==> b.locks[a] == b.participants[a].stake)
  }

  ghost predicate PoolOk(cfg: Config, b: Bench) {
    && PoolSorted(b.pool)
    && |b.pool| <= cfg.maxCourtParticipants
    && (forall i :: 0 <= i < |b.pool| ==> ItemOk(b.pool[i], b.participants))
  }

  ghost predicate BenchOk(cfg: Config, b: Bench) {
    PoolOk(cfg, b) && ParticipantsOk(cfg, b)
  }

  /** Replacing one participant, and the lock with it. */
  lemma {:induction false} SetParticipant(cfg: Config, b: Bench, pool: seq<PoolItem>, who: AccountId, info: ParticipantInfo)
    requires ParticipantsOk(cfg, b) && ParticipantOk(cfg, who, info)
    ensures ParticipantsOk(cfg, Bench(pool, b.participants[who := info], b.locks[who := info.stake]))
  {
  }

  /** The index of an account in the pool, by looking at every item. */
  function IndexOf(pool: seq<PoolItem>, account: AccountId): (r: Option<nat>)
    ensures r.Some? ==> r.value < |pool| && pool[r.value].account == account
    ensures r.None? ==> forall i :: 0 <= i < |pool| ==> pool[i].account != account
  {
    if pool == [] then None
    else if pool[0].account == account then Some(0)
    else match IndexOf(pool[1..], account)
      case Some(i) => Some(i + 1)
      case None => None
  }

  /** An account is in the pool at most once: its items would have the same key. */
  lemma {:induction false} AccountsUnique(cfg: Config, b: Bench, i: nat, j: nat)
    requires PoolOk(cfg, b) && i < |b.pool| && j < |b.pool| && i != j
    ensures b.pool[i].account != b.pool[j].account
  {
    assert ItemOk(b.pool[i], b.participants) && ItemOk(b.pool[j], b.participants);
    assert Less(b.pool[i], b.pool[j]) || Less(b.pool[j], b.pool[i]);
  }

  ghost predicate UniqueAccounts(pool: seq<PoolItem>) {
    forall i, j :: 0 <= i < j < |pool| ==> pool[i].account != pool[j].account
  }

  lemma {:induction false} AllAccountsUnique(cfg: Config, b: Bench)
    requires PoolOk(cfg, b)
    ensures UniqueAccounts(b.pool)
  {
    forall i, j | 0 <= i < j < |b.pool|
      ensures b.pool[i].account != b.pool[j].account
    {
      AccountsUnique(cfg, b, i, j);
    }
  }

  /** The pool without an account's item. */
  function PoolWithout(pool: seq<PoolItem>, who: AccountId): seq<PoolItem> {
    match IndexOf(pool, who)
    case Some(i) => RemoveAt(pool, i)
    case None => pool
  }

  lemma {:induction false} RemovedItems(cfg: Config, b: Bench, k: nat)
    requires PoolOk(cfg, b) && k < |b.pool|
    ensures var rest := RemoveAt(b.pool, k);
            && PoolSorted(rest) && |rest| == |b.pool| - 1
            && (forall i :: 0 <= i < |rest| ==> ItemOk(rest[i], b.participants))
            && (forall i :: 0 <= i < |rest| ==> rest[i].account != b.pool[k].account)
  {
    var rest := RemoveAt(b.pool, k);
    RemoveKeepsOrder(b.pool, k);
    forall i | 0 <= i < |rest|
      ensures ItemOk(rest[i], b.participants) && rest[i].account != b.pool[k].account
    {
      var i' := if i < k then i else i + 1;
      assert rest[i] == b.pool[i'];
      AccountsUnique(cfg, b, i', k);
    }
  }

  /** Every item shows the stored stake of its participant. */
  ghost predicate StakesAgree(pool: seq<PoolItem>, participants: map<AccountId, ParticipantInfo>) {
    forall i :: 0 <= i < |pool| ==>
      pool[i].account in participants && participants[pool[i].account].stake == pool[i].stake
  }

  /** So the logarithmic search by the stored stake finds exactly the account's item. */
  lemma {:induction false} SearchFindsAccount(pool: seq<PoolItem>, participants: map<AccountId, ParticipantInfo>, who: AccountId)
    requires PoolSorted(pool) && StakesAgree(pool, participants) && who in participants
    ensures GetPoolItem(pool, participants[who].stake, who) == IndexOf(pool, who)
  {
    var index := IndexOf(pool, who);
    if index.Some? {
      var p := PoolPosition(pool, participants[who].stake, who);
      assert p == index.value;
    }
  }

  lemma {:induction false} PoolWithoutOk(cfg: Config, b: Bench, who: AccountId)
    requires PoolOk(cfg, b)
    ensures var rest := PoolWithout(b.pool, who);
            && PoolSorted(rest) && |rest| <= |b.pool|
            && (IndexOf(b.pool, who).Some? ==> |rest| < |b.pool|)
            && (forall i :: 0 <= i < |rest| ==> ItemOk(rest[i], b.participants))
            && (forall i :: 0 <= i < |rest| ==> rest[i].account != who)
  {
    if IndexOf(b.pool, who).Some? {
      RemovedItems(cfg, b, IndexOf(b.pool, who).value);
    }
  }

  // ---- Joining ----

  /** The pool the newcomer is inserted into: without the newcomer's own item, or without the
      lowest item if the pool is full. */
  function PoolForJoin(cfg: Config, pool: seq<PoolItem>, who: AccountId): seq<PoolItem> {
    if IndexOf(pool, who).None? && |pool| >= cfg.maxCourtParticipants && pool != [] then pool[1..]
    else PoolWithout(pool, who)
  }

  function JoinedItem(b: Bench, who: AccountId, amount: Balance, now: BlockNumber): PoolItem {
    match IndexOf(b.pool, who)
    case Some(i) => PoolItem(amount, who, b.pool[i].consumedStake, b.pool[i].joinedAt)
    case None =>
      PoolItem(amount, who, if who in b.participants then b.participants[who].activeLock else 0, now)
  }

  function Joined(cfg: Config, b: Bench, who: AccountId, amount: Balance,
                  delegations: Option<seq<AccountId>>, now: BlockNumber): Bench
  {
    var active := if who in b.participants then b.participants[who].activeLock else 0;
    Bench(InsertItem(PoolForJoin(cfg, b.pool, who), JoinedItem(b, who, amount, now)),
          b.participants[who := ParticipantInfo(amount, active, None, delegations)],
          b.locks[who := amount])
  }

  /** Why joining is refused. */
  function JoinError(cfg: Config, b: Bench, who: AccountId, amount: Balance, free: Balance): Option<Error> {
    if amount < cfg.minJurorStake then Some(BelowMinJurorStake)
    else if free < amount then Some(AmountExceedsBalance)
    else if who in b.participants && amount < b.participants[who].stake then Some(AmountBelowLastJoin)
    else if IndexOf(b.pool, who).None? && |b.pool| >= cfg.maxCourtParticipants
            && amount <= (if b.pool == [] then 0 else b.pool[0].stake) then Some(AmountBelowLowestJuror)
    else None
  }

  lemma {:induction false} PoolForJoinOk(cfg: Config, b: Bench, who: AccountId)
    requires PoolOk(cfg, b) && 0 < cfg.maxCourtParticipants
    ensures var rest := PoolForJoin(cfg, b.pool, who);
            && PoolSorted(rest) && |rest| < cfg.maxCourtParticipants
            && (forall i :: 0 <= i < |rest| ==> ItemOk(rest[i], b.participants))
            && (forall i :: 0 <= i < |rest| ==> rest[i].account != who)
  {
    PoolWithoutOk(cfg, b, who);
  }

  lemma {:induction false} JoinedItemOk(cfg: Config, b: Bench, who: AccountId, amount: Balance,
                     delegations: Option<seq<AccountId>>, free: Balance, now: BlockNumber)
    requires BenchOk(cfg, b) && JoinError(cfg, b, who, amount, free).None?
    ensures ItemOk(JoinedItem(b, who, amount, now), Joined(cfg, b, who, amount, delegations, now).participants)
  {
    if IndexOf(b.pool, who).Some? {
      assert ItemOk(b.pool[IndexOf(b.pool, who).value], b.participants);
    } else if who in b.participants {
      assert ParticipantOk(cfg, who, b.participants[who]);
    }
  }

  /** Joining keeps the pool and the participants in agreement; the new item is in the pool. */
  lemma {:induction false} JoinedOk(cfg: Config, b: Bench, who: AccountId, amount: Balance,
                 delegations: Option<seq<AccountId>>, free: Balance, now: BlockNumber)
    requires BenchOk(cfg, b) && 0 < cfg.maxCourtParticipants
    requires JoinError(cfg, b, who, amount, free).None?
    requires DelegationsOk(cfg, who, delegations)
    ensures BenchOk(cfg, Joined(cfg, b, who, amount, delegations, now))
    ensures JoinedItem(b, who, amount, now) in Joined(cfg, b, who, amount, delegations, now).pool
  {
    var b' := Joined(cfg, b, who, amount, delegations, now);
    var rest, item := PoolForJoin(cfg, b.pool, who), JoinedItem(b, who, amount, now);
    PoolForJoinOk(cfg, b, who);
    InsertKeepsOrder(rest, item);
    JoinedItemOk(cfg, b, who, amount, delegations, free, now);
    var p := PoolPosition(rest, item.stake, item.account);
    assert b'.pool[p] == item;
    forall i | 0 <= i < |b'.pool|
      ensures ItemOk(b'.pool[i], b'.participants)
    {
      if i != p {
        var i' := if i < p then i else i - 1;
        assert b'.pool[i] == rest[i'];
        assert ItemOk(rest[i'], b.participants);
      }
    }
    assert who in b.participants ==> ParticipantOk(cfg, who, b.participants[who]);
    SetParticipant(cfg, b, b'.pool, who, b'.participants[who]);
  }

  // ---- Leaving ----

  function Leaving(b: Bench, who: AccountId, now: BlockNumber): Bench
    requires who in b.participants
  {
    Bench(PoolWithout(b.pool, who),
          b.participants[who := b.participants[who].(prepareExitAt := Some(now))],
          b.locks)
  }

  lemma {:induction false} LeavingOk(cfg: Config, b: Bench, who: AccountId, now: BlockNumber)
    requires BenchOk(cfg, b) && who in b.participants
    ensures BenchOk(cfg, Leaving(b, who, now))
  {
    var b' := Leaving(b, who, now);
    PoolWithoutOk(cfg, b, who);
    forall i | 0 <= i < |b'.pool|
      ensures ItemOk(b'.pool[i], b'.participants)
    {
      assert ItemOk(b'.pool[i], b.participants);
    }
    assert ParticipantOk(cfg, who, b.participants[who]);
    SetParticipant(cfg, b, b'.pool, who, b'.participants[who]);
    assert b'.locks == b.locks[who := b'.participants[who].stake];
  }

  function ExitError(cfg: Config, b: Bench, who: AccountId, now: BlockNumber): Option<Error> {
    if who !in b.participants then Some(JurorDoesNotExist)
    else match b.participants[who].prepareExitAt
      case None => Some(PrepareExitAtNotPresent)
      case Some(at) => if SatSub(now, at) < cfg.inflationPeriod then Some(PrematureExit) else None
  }

  /** Everything is unlocked, or everything but what open courts still lock. */
  function Exited(b: Bench, who: AccountId): Bench
    requires who in b.participants
  {
    var info := b.participants[who];
    if info.activeLock == 0 then Bench(b.pool, b.participants - {who}, b.locks - {who})
    else Bench(b.pool, b.participants[who := info.(stake := info.activeLock)],
               b.locks[who := info.activeLock])
  }

  lemma {:induction false} ExitedOk(cfg: Config, b: Bench, who: AccountId, now: BlockNumber)
    requires BenchOk(cfg, b) && ExitError(cfg, b, who, now).None?
    ensures BenchOk(cfg, Exited(b, who))
  {
    var b' := Exited(b, who);
    forall i | 0 <= i < |b.pool|
      ensures ItemOk(b'.pool[i], b'.participants)
    {
      assert ItemOk(b.pool[i], b.participants);
      assert b.pool[i].account != who;
    }
  }

  // ---- The sections of the pool ----

  /** How many whole sections of an item can still be drawn. */
  function Sections(item: PoolItem, min: Balance): nat
    requires 0 < min
  {
    SatSub(item.stake, item.consumedStake) / min
  }

  /** The same in tokens, as the source computes it: the unconsumed stake without the remainder. */
  function Unconsumed(item: PoolItem, min: Balance): Balance
    requires 0 < min
  {
    var unconsumed := SatSub(item.stake, item.consumedStake);
    unconsumed - unconsumed % min
  }

  lemma {:induction false} UnconsumedIsSectioned(item: PoolItem, min: Balance)
    requires 0 < min
    ensures Unconsumed(item, min) == Times(Sections(item, min), min)
    ensures Times(Sections(item, min), min) <= SatSub(item.stake, item.consumedStake)
    ensures Unconsumed(item, min) == 0 <==> Sections(item, min) == 0
  {
    var unconsumed := SatSub(item.stake, item.consumedStake);
    TimesIsProduct(unconsumed / min, min);
    assert (unconsumed / min) * min == unconsumed - unconsumed % min;
    if unconsumed / min > 0 {
      TimesMono(1, unconsumed / min, min);
    }
  }

  function SectionCounts(pool: seq<PoolItem>, min: Balance): (counts: seq<nat>)
    requires 0 < min
    ensures |counts| == |pool|
    ensures forall k :: 0 <= k < |pool| ==> counts[k] == Sections(pool[k], min)
  {
    seq(|pool|, k requires 0 <= k < |pool| => Sections(pool[k], min))
  }

  /** The sum of the first `k` numbers. */
  function SumTo(counts: seq<nat>, k: nat): nat
    requires k <= |counts|
  {
    if k == 0 then 0 else SumTo(counts, k - 1) + counts[k - 1]
  }

  lemma {:induction false} SumToMonotone(counts: seq<nat>, i: nat, j: nat)
    requires i <= j <= |counts|
    ensures SumTo(counts, i) <= SumTo(counts, j)
    decreases j
  {
    if i < j {
      SumToMonotone(counts, i, j - 1);
    }
  }

  /** The running totals, as far as a balance can tell, each marked with whether its item has
      nothing left to draw. */
  ghost predicate RunningTotals(totals: seq<(nat, bool)>, counts: seq<nat>, min: nat) {
    && |totals| == |counts|
    && forall k :: 0 <= k < |counts| ==>
         totals[k] == (Min(Times(SumTo(counts, k + 1), min), U128_MAX), counts[k] == 0)
  }

  predicate TotalLess(a: (nat, bool), b: (nat, bool)) {
    a.0 < b.0 || (a.0 == b.0 && !a.1 && b.1)
  }

  /** Where the binary search for a section end ends up: the first entry that is not below it. */
  function SearchTotals(totals: seq<(nat, bool)>, key: (nat, bool)): (i: nat)
    ensures i <= |totals|
    ensures forall j :: 0 <= j < i ==> TotalLess(totals[j], key)
    ensures i < |totals| ==> !TotalLess(totals[i], key)
  {
    if totals == [] || !TotalLess(totals[0], key) then 0
    else 1 + SearchTotals(totals[1..], key)
  }

  /** The totals below a section end come first and at most one entry is equal to it, so every
      binary search ends up at the same place. This holds even for totals that saturate, unless
      the end is the largest balance itself. */
  lemma {:induction false} TotalsSearchable(totals: seq<(nat, bool)>, counts: seq<nat>, min: nat, end: nat, i: nat, j: nat)
    requires 0 < min && RunningTotals(totals, counts, min) && i < j < |counts|
    requires end < U128_MAX || Times(SumTo(counts, |counts|), min) <= U128_MAX
    ensures TotalLess(totals[j], (end, false)) ==> TotalLess(totals[i], (end, false))
    ensures totals[j] == (end, false) ==> TotalLess(totals[i], (end, false))
  {
    SumToMonotone(counts, i + 1, j);
    SumToMonotone(counts, j + 1, |counts|);
    TimesMono(SumTo(counts, i + 1), SumTo(counts, j + 1), min);
    TimesMono(SumTo(counts, j + 1), SumTo(counts, |counts|), min);
    if counts[j] > 0 {
      TimesMono(SumTo(counts, i + 1) + 1, SumTo(counts, j + 1), min);
    }
  }

  /** A section end hits the one item whose interval (previous total, own total] contains it,
      and that item has stake left: items with nothing left have an empty interval. */
  lemma {:induction false} HitInterval(totals: seq<(nat, bool)>, counts: seq<nat>, min: nat, section: nat)
    requires 0 < min && RunningTotals(totals, counts, min)
    requires 0 < section <= SumTo(counts, |counts|) && Times(section, min) <= U128_MAX
    ensures var k := SearchTotals(totals, (Times(section, min), false));
            && k < |counts| && SumTo(counts, k) < section <= SumTo(counts, k + 1)
            && 0 < counts[k]
  {
    var k := SearchTotals(totals, (Times(section, min), false));
    if k > 0 {
      assert TotalLess(totals[k - 1], (Times(section, min), false));
      if section <= SumTo(counts, k) {
        TimesMono(section, SumTo(counts, k), min);
      }
    }
    assert k < |counts|;
    if SumTo(counts, k + 1) < section {
      TimesMono(SumTo(counts, k + 1) + 1, section, min);
    }
  }

  /** The interval is the only one that contains the section. */
  lemma {:induction false} IntervalUnique(counts: seq<nat>, section: nat, i: nat, j: nat)
    requires i < |counts| && j < |counts|
    requires SumTo(counts, i) < section <= SumTo(counts, i + 1)
    requires SumTo(counts, j) < section <= SumTo(counts, j + 1)
    ensures i == j
  {
    if i < j {
      SumToMonotone(counts, i + 1, j);
    } else if j < i {
      SumToMonotone(counts, j + 1, i);
    }
  }
}
