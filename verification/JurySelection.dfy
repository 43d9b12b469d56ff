/** From the section ends to the draws: which participants the ends hit, how the hits are
    tallied into selections, and what the tally of any run of hits looks like. */
module JurySelection {
  import opened Numbers
  import opened Ordered
  import opened CourtTypes
  import opened CourtPool

  datatype SelectionValue = SelectionValue(weight: U32, slashable: Balance, stakes: Stakes)

  type Selections = seq<(AccountId, SelectionValue)>

  datatype SelectionAdd =
    | SelfStake(lock: Balance)
    | DelegationStake(juror: AccountId, lock: Balance)
    | DelegationWeight

  // ---- The operations on the selections ----

  /** Add `amount` to the juror's stake. A new juror does not fit a full vector, and is then
      dropped without an error. */
  function AddDelegatedJuror(cfg: Config, stakes: Stakes, juror: AccountId, amount: Balance): Stakes {
    match Get(stakes, juror)
    case Some(stake) => Put(stakes, juror, SatAdd(stake, amount))
    case None => if |stakes| < cfg.maxDelegations then Put(stakes, juror, amount) else stakes
  }

  /** The entry of one participant after `add`. */
  function UpdatedEntry(cfg: Config, entry: Option<SelectionValue>, add: SelectionAdd): SelectionValue {
    match (entry, add)
    case (Some(e), SelfStake(lock)) =>
      SelectionValue(SatAddAt(e.weight, 1, U32_MAX), SatAdd(e.slashable, lock), e.stakes)
    case (Some(e), DelegationStake(juror, lock)) =>
      SelectionValue(e.weight, SatAdd(e.slashable, lock), AddDelegatedJuror(cfg, e.stakes, juror, lock))
    case (Some(e), DelegationWeight) =>
      SelectionValue(SatAddAt(e.weight, 1, U32_MAX), e.slashable, e.stakes)
    case (None, SelfStake(lock)) => SelectionValue(1, lock, [])
    case (None, DelegationStake(juror, lock)) =>
      SelectionValue(0, lock, AddDelegatedJuror(cfg, [], juror, lock))
    case (None, DelegationWeight) => SelectionValue(1, 0, [])
  }

  function UpdateSelections(cfg: Config, sel: Selections, who: AccountId, add: SelectionAdd): Selections {
    Put(sel, who, UpdatedEntry(cfg, Get(sel, who), add))
  }

  // ---- Hits ----

  /** Whom a hit goes to: the participant's own vote, a juror the participant delegates to, or
      nobody, if the participant delegates and none of the delegates can be drawn. */
  datatype Target = Own | Via(juror: AccountId) | Nobody

  /** A section, the pool item it belongs to and where its vote weight goes. */
  datatype Hit = Hit(section: nat, index: nat, account: AccountId, target: Target)

  type Log = seq<Hit>

  /** A juror who is in the pool and not a delegator. */
  predicate CanBeDelegate(b: Bench, juror: AccountId) {
    && juror in b.participants
    && b.participants[juror].delegations.None?
    && IndexOf(b.pool, juror).Some?
  }

  /** The delegates that can be drawn, in the order of the delegations. */
  function ValidJurors(b: Bench, delegations: seq<AccountId>): (jurors: seq<AccountId>)
    ensures forall j :: j in jurors <==> j in delegations && CanBeDelegate(b, j)
  {
    if delegations == [] then []
    else if CanBeDelegate(b, delegations[0]) then [delegations[0]] + ValidJurors(b, delegations[1..])
    else ValidJurors(b, delegations[1..])
  }

  predicate IsDelegator(b: Bench, who: AccountId) {
    who in b.participants && b.participants[who].delegations.Some?
  }

  ghost predicate TargetOk(b: Bench, who: AccountId, target: Target) {
    && who in b.participants
    && match b.participants[who].delegations
       case None => target.Own?
       case Some(delegations) =>
         if ValidJurors(b, delegations) == [] then target.Nobody?
         else target.Via? && target.juror in ValidJurors(b, delegations)
  }

  /** The section lies in the interval of the pool item that it hits. */
  ghost predicate HitOk(pool: seq<PoolItem>, counts: seq<nat>, h: Hit)
    requires |counts| == |pool|
  {
    && h.index < |pool|
    && h.account == pool[h.index].account
    && SumTo(counts, h.index) < h.section <= SumTo(counts, h.index + 1)
  }

  /** The hits of ascending sections, for a pool with these numbers of sections. */
  ghost predicate HitsOk(pool: seq<PoolItem>, counts: seq<nat>, log: Log)
    requires |counts| == |pool|
  {
    && (forall t :: 0 <= t < |log| ==> HitOk(pool, counts, log[t]))
    && (forall s, t :: 0 <= s < t < |log| ==> log[s].section < log[t].section)
  }

  ghost predicate TargetsOk(b: Bench, log: Log) {
    forall t :: 0 <= t < |log| ==> TargetOk(b, log[t].account, log[t].target)
  }

  // ---- Counting hits ----

  datatype Query =
    | Of(a: AccountId)                        // hits on a participant
    | OwnOf(a: AccountId)                     // ... that go to the participant's own vote
    | Out(a: AccountId)                       // ... that go to a delegate
    | Pair(a: AccountId, juror: AccountId)    // ... that go to this delegate
    | FailedOf(a: AccountId)                  // ... that go to nobody
    | Into(juror: AccountId)                  // hits that delegators pass on to a juror
    | Placed                                  // hits that give a vote weight to somebody
    | Failed                                  // hits that do not

  predicate Counts(q: Query, h: Hit) {
    match q
    case Of(a) => h.account == a
    case OwnOf(a) => h.account == a && h.target.Own?
    case Out(a) => h.account == a && h.target.Via?
    case Pair(a, j) => h.account == a && h.target == Via(j)
    case FailedOf(a) => h.account == a && h.target.Nobody?
    case Into(j) => h.target == Via(j)
    case Placed => !h.target.Nobody?
    case Failed => h.target.Nobody?
  }

  function Count(log: Log, q: Query): (n: nat)
    ensures n <= |log|
  {
    if log == [] then 0
    else Count(log[..|log| - 1], q) + if Counts(q, log[|log| - 1]) then 1 else 0
  }

  lemma {:induction false} CountNext(log: Log, h: Hit, q: Query)
    ensures Count(log + [h], q) == Count(log, q) + if Counts(q, h) then 1 else 0
  {
    assert (log + [h])[..|log|] == log;
  }

  /** Every hit on a participant goes one of three ways, and every hit is placed or failed. */
  lemma {:induction false} CountSplits(log: Log, a: AccountId)
    ensures Count(log, Of(a)) == Count(log, OwnOf(a)) + Count(log, Out(a)) + Count(log, FailedOf(a))
    ensures |log| == Count(log, Placed) + Count(log, Failed)
  {
    if log != [] {
      CountSplits(log[..|log| - 1], a);
    }
  }

  // ---- The tally ----

  /** The selections after a participant is hit and locks `lock`. */
  function Place(cfg: Config, sel: Selections, who: AccountId, target: Target, lock: Balance): Selections {
    match target
    case Own => UpdateSelections(cfg, sel, who, SelfStake(lock))
    case Via(j) => UpdateSelections(cfg, UpdateSelections(cfg, sel, j, DelegationWeight), who, DelegationStake(j, lock))
    case Nobody => sel
  }

  function Apply(cfg: Config, sel: Selections, h: Hit): Selections {
    Place(cfg, sel, h.account, h.target, cfg.minJurorStake)
  }

  function Tally(cfg: Config, log: Log): Selections {
    if log == [] then [] else Apply(cfg, Tally(cfg, log[..|log| - 1]), log[|log| - 1])
  }

  lemma {:induction false} TallyNext(cfg: Config, log: Log, h: Hit)
    ensures Tally(cfg, log + [h]) == Apply(cfg, Tally(cfg, log), h)
  {
    assert (log + [h])[..|log|] == log;
  }

  function Id(x: Balance): nat { x }

  /** The stake of `n` hits: no entry, or `n` sections. */
  ghost function StakeFor(cfg: Config, n: nat): Option<nat> {
    if n == 0 then None else Some(Times(n, cfg.minJurorStake))
  }

  /** A delegator's stakes say how many hits went to which delegate. */
  ghost predicate StakesTallied(cfg: Config, log: Log, a: AccountId, stakes: Stakes) {
    && Ascending(stakes)
    && (forall j: AccountId :: Get(stakes, j) == StakeFor(cfg, Count(log, Pair(a, j))))
    && Sum(stakes, Id) == Times(Count(log, Out(a)), cfg.minJurorStake)
  }

  /** What the selections hold for a participant: a delegator has no weight and a stake at risk
      for every hit, a juror has the weight of all hits and risks only the own ones. */
  ghost predicate EntryTallied(cfg: Config, b: Bench, log: Log, a: AccountId, entry: Option<SelectionValue>) {
    if IsDelegator(b, a) then
      if Count(log, Out(a)) == 0 then entry == None
      else
        && entry.Some?
        && entry.value.weight == 0
        && entry.value.slashable == Times(Count(log, Out(a)), cfg.minJurorStake)
        && StakesTallied(cfg, log, a, entry.value.stakes)
    else
      var weight := Count(log, OwnOf(a)) + Count(log, Into(a));
      if weight == 0 then entry == None
      else
        && entry.Some?
        && entry.value.weight == weight
        && entry.value.slashable == Times(Count(log, OwnOf(a)), cfg.minJurorStake)
        && entry.value.stakes == []
  }

  function WeightOf(v: SelectionValue): nat { v.weight }

  function SlashableOf(v: SelectionValue): nat { v.slashable }

  ghost predicate Tallied(cfg: Config, b: Bench, log: Log, sel: Selections) {
    && Ascending(sel)
    && (forall a: AccountId :: EntryTallied(cfg, b, log, a, Get(sel, a)))
  }

  ghost predicate Totals(cfg: Config, log: Log, sel: Selections) {
    && Sum(sel, WeightOf) == Count(log, Placed)
    && Sum(sel, SlashableOf) == Times(Count(log, Placed), cfg.minJurorStake)
    && |sel| <= 2 * Count(log, Placed)
  }

  // ---- Every run of hits is tallied that way ----

  /** The hits of a log have targets of their participants, and the whole log fits a balance and
      a draw weight. */
  ghost predicate Fits(cfg: Config, b: Bench, log: Log) {
    && ParticipantsOk(cfg, b)
    && 0 < cfg.minJurorStake
    && |log| <= U32_MAX
    && Times(|log|, cfg.minJurorStake) <= U128_MAX
    && TargetsOk(b, log)
  }

  lemma {:induction false} FitsPrefix(cfg: Config, b: Bench, log: Log, h: Hit)
    requires Fits(cfg, b, log + [h])
    ensures Fits(cfg, b, log) && TargetOk(b, h.account, h.target)
    ensures Times(|log|, cfg.minJurorStake) + cfg.minJurorStake <= U128_MAX && |log| < U32_MAX
  {
    var full := log + [h];
    assert full[|log|] == h;
    forall t | 0 <= t < |log|
      ensures TargetOk(b, log[t].account, log[t].target)
    {
      assert full[t] == log[t];
    }
  }

  /** Counts never exceed the log, so neither do the stakes made of them. */
  lemma {:induction false} CountBound(cfg: Config, log: Log, q: Query)
    ensures Times(Count(log, q), cfg.minJurorStake) <= Times(|log|, cfg.minJurorStake)
  {
    TimesMono(Count(log, q), |log|, cfg.minJurorStake);
  }

  lemma {:induction false} PairWithinOut(log: Log, a: AccountId, j: AccountId)
    ensures Count(log, Pair(a, j)) <= Count(log, Out(a))
  {
    if log != [] {
      PairWithinOut(log[..|log| - 1], a, j);
    }
  }

  lemma {:induction false} PairIsDelegate(cfg: Config, b: Bench, log: Log, a: AccountId, j: AccountId)
    requires Fits(cfg, b, log) && IsDelegator(b, a) && Count(log, Pair(a, j)) > 0
    ensures j in b.participants[a].delegations.value
  {
    var prefix, h := log[..|log| - 1], log[|log| - 1];
    assert log == prefix + [h];
    FitsPrefix(cfg, b, prefix, h);
    if !Counts(Pair(a, j), h) {
      PairIsDelegate(cfg, b, prefix, a, j);
    }
  }

  lemma {:induction false} KeysFit<V>(s: seq<(nat, V)>, d: seq<nat>, j: nat)
    requires Ascending(s) && j in d && Get(s, j).None?
    requires forall i :: 0 <= i < |s| ==> s[i].0 in d
    ensures |s| < |d|
  {
    KeyCount(s);
    ElementCount(d);
    forall k | k in KeySet(s) + {j}
      ensures k in Elements(d)
    {
    }
    forall i | 0 <= i < |s|
      ensures s[i].0 != j
    {
      GetAt(s, i);
    }
    SubsetSize(KeySet(s) + {j}, Elements(d));
  }

  lemma {:induction false} KeysWithin<V>(s: seq<(nat, V)>, d: seq<nat>)
    requires Ascending(s) && forall i :: 0 <= i < |s| ==> s[i].0 in d
    ensures |s| <= |d|
  {
    KeyCount(s);
    ElementCount(d);
    SubsetSize(KeySet(s), Elements(d));
  }

  ghost function KeySet<V>(s: seq<(nat, V)>): set<nat> { set i | 0 <= i < |s| :: s[i].0 }

  lemma {:induction false} KeyCount<V>(s: seq<(nat, V)>)
    requires Ascending(s)
    ensures |KeySet(s)| == |s|
  {
    if s != [] {
      var q := s[..|s| - 1];
      KeyCount(q);
      assert KeySet(s) == KeySet(q) + {s[|s| - 1].0};
    }
  }

  lemma {:induction false} SubsetSize(a: set<nat>, b: set<nat>)
    requires a <= b
    ensures |a| <= |b|
  {
    assert b == a + (b - a);
  }

  /** A hit leaves the entries alone that it has nothing to do with. */
  lemma {:induction false} EntryUnchanged(cfg: Config, b: Bench, log: Log, h: Hit, a: AccountId, entry: Option<SelectionValue>)
    requires EntryTallied(cfg, b, log, a, entry)
    requires h.account != a && h.target != Via(a)
    ensures EntryTallied(cfg, b, log + [h], a, entry)
  {
    CountNext(log, h, Out(a));
    CountNext(log, h, OwnOf(a));
    CountNext(log, h, Into(a));
    forall j: AccountId
      ensures Count(log + [h], Pair(a, j)) == Count(log, Pair(a, j))
    {
      CountNext(log, h, Pair(a, j));
    }
  }

  /** A hit that a delegator passes on adds one section to the stake of that delegate. */
  lemma {:induction false} StakesNext(cfg: Config, log: Log, h: Hit, stakes: Stakes)
    requires h.target.Via? && StakesTallied(cfg, log, h.account, stakes)
    requires Times(|log| + 1, cfg.minJurorStake) <= U128_MAX
    requires Get(stakes, h.target.juror).None? ==> |stakes| < cfg.maxDelegations
    ensures StakesTallied(cfg, log + [h], h.account,
                          AddDelegatedJuror(cfg, stakes, h.target.juror, cfg.minJurorStake))
  {
    hide Put, Get, Sum, Ascending, AddDelegatedJuror, Count;
    var a, j := h.account, h.target.juror;
    assert Get(stakes, j) == StakeFor(cfg, Count(log, Pair(a, j)));
    var added: Balance := StakeAdded(cfg, log, h, stakes);
    PutAscending(stakes, j, added);
    PutSum<Balance>(stakes, j, added, Id);
    CountNext(log, h, Out(a));
    forall k: AccountId
      ensures Get(Put(stakes, j, added), k) == StakeFor(cfg, Count(log + [h], Pair(a, k)))
    {
      CountNext(log, h, Pair(a, k));
      PutGet(stakes, j, added, k);
      assert Get(stakes, k) == StakeFor(cfg, Count(log, Pair(a, k)));
    }
  }

  lemma {:induction false} StakeAdded(cfg: Config, log: Log, h: Hit, stakes: Stakes) returns (added: Balance)
    requires h.target.Via? && Times(|log| + 1, cfg.minJurorStake) <= U128_MAX
    requires Get(stakes, h.target.juror) == StakeFor(cfg, Count(log, Pair(h.account, h.target.juror)))
    requires Get(stakes, h.target.juror).None? ==> |stakes| < cfg.maxDelegations
    ensures var j, before := h.target.juror, Get(stakes, h.target.juror);
            && AddDelegatedJuror(cfg, stakes, j, cfg.minJurorStake) == Put(stakes, j, added)
            && added == cfg.minJurorStake + (if before.Some? then before.value else 0)
            && added == Times(Count(log, Pair(h.account, j)) + 1, cfg.minJurorStake)
  {
    CountBound(cfg, log, Pair(h.account, h.target.juror));
    var before := Get(stakes, h.target.juror);
    added := cfg.minJurorStake + if before.Some? then before.value else 0;
  }

  /** The delegates of a delegator fit the vector: nothing is ever dropped. */
  lemma {:induction false} StakesHaveRoom(cfg: Config, b: Bench, log: Log, h: Hit, stakes: Stakes)
    requires Fits(cfg, b, log + [h]) && h.target.Via?
    requires StakesTallied(cfg, log, h.account, stakes)
    ensures Get(stakes, h.target.juror).None? ==> |stakes| < cfg.maxDelegations
  {
    FitsPrefix(cfg, b, log, h);
    var d := b.participants[h.account].delegations.value;
    assert ParticipantOk(cfg, h.account, b.participants[h.account]);
    if Get(stakes, h.target.juror).None? {
      forall i | 0 <= i < |stakes|
        ensures stakes[i].0 in d
      {
        GetAt(stakes, i);
        PairIsDelegate(cfg, b, log, h.account, stakes[i].0);
      }
      KeysFit(stakes, d, h.target.juror);
    }
  }

  /** The entry of a juror who is hit: one more weight, one more section at risk. */
  lemma {:induction false} OwnEntry(cfg: Config, b: Bench, log: Log, h: Hit, entry: Option<SelectionValue>)
    requires Fits(cfg, b, log + [h]) && h.target.Own? && EntryTallied(cfg, b, log, h.account, entry)
    ensures var entry' := UpdatedEntry(cfg, entry, SelfStake(cfg.minJurorStake));
            && EntryTallied(cfg, b, log + [h], h.account, Some(entry'))
            && entry'.weight == 1 + (if entry.Some? then entry.value.weight else 0)
            && entry'.slashable == cfg.minJurorStake + (if entry.Some? then entry.value.slashable else 0)
  {
    var a := h.account;
    FitsPrefix(cfg, b, log, h);
    CountBound(cfg, log, OwnOf(a));
    CountNext(log, h, OwnOf(a));
    CountNext(log, h, Into(a));
    OwnPlusInto(log, a);
  }

  lemma {:induction false} OwnNext(cfg: Config, b: Bench, log: Log, h: Hit, sel: Selections)
    requires Fits(cfg, b, log + [h]) && h.target.Own? && Tallied(cfg, b, log, sel) && Totals(cfg, log, sel)
    ensures Tallied(cfg, b, log + [h], Apply(cfg, sel, h)) && Totals(cfg, log + [h], Apply(cfg, sel, h))
  {
    var a := h.account;
    assert EntryTallied(cfg, b, log, a, Get(sel, a));
    OwnEntry(cfg, b, log, h, Get(sel, a));
    var entry := UpdatedEntry(cfg, Get(sel, a), SelfStake(cfg.minJurorStake));
    CountNext(log, h, Placed);
    PutAscending(sel, a, entry);
    PutSum(sel, a, entry, WeightOf);
    PutSum(sel, a, entry, SlashableOf);
    PutLength(sel, a, entry);
    forall q: AccountId
      ensures EntryTallied(cfg, b, log + [h], q, Get(Apply(cfg, sel, h), q))
    {
      PutGet(sel, a, entry, q);
      if q != a {
        EntryUnchanged(cfg, b, log, h, q, Get(sel, q));
      }
    }
  }

  /** The entry of a juror who is hit through a delegator: one more weight, nothing at risk. */
  lemma {:induction false} IntoEntry(cfg: Config, b: Bench, log: Log, h: Hit, entry: Option<SelectionValue>)
    requires Fits(cfg, b, log + [h]) && h.target.Via? && EntryTallied(cfg, b, log, h.target.juror, entry)
    ensures var entry' := UpdatedEntry(cfg, entry, DelegationWeight);
            && EntryTallied(cfg, b, log + [h], h.target.juror, Some(entry'))
            && entry'.weight == 1 + (if entry.Some? then entry.value.weight else 0)
            && entry'.slashable == (if entry.Some? then entry.value.slashable else 0)
  {
    var j := h.target.juror;
    FitsPrefix(cfg, b, log, h);
    assert CanBeDelegate(b, j);
    CountBound(cfg, log, OwnOf(j));
    CountNext(log, h, OwnOf(j));
    CountNext(log, h, Into(j));
    OwnPlusInto(log, j);
  }

  function StakesIn(entry: Option<SelectionValue>): Stakes {
    match entry
    case Some(e) => e.stakes
    case None => []
  }

  lemma {:induction false} StakesInTallied(cfg: Config, b: Bench, log: Log, a: AccountId, entry: Option<SelectionValue>)
    requires IsDelegator(b, a) && EntryTallied(cfg, b, log, a, entry)
    ensures StakesTallied(cfg, log, a, StakesIn(entry))
  {
    if entry.None? {
      NoStakesTallied(cfg, log, a);
    }
  }

  /** The entry of a delegator who is hit: no weight, one more section at risk. */
  lemma {:induction false} OutEntry(cfg: Config, b: Bench, log: Log, h: Hit, entry: Option<SelectionValue>)
    requires h.target.Via? && IsDelegator(b, h.account) && EntryTallied(cfg, b, log, h.account, entry)
    requires Times(|log| + 1, cfg.minJurorStake) <= U128_MAX
    requires Get(StakesIn(entry), h.target.juror).None? ==> |StakesIn(entry)| < cfg.maxDelegations
    ensures var entry' := UpdatedEntry(cfg, entry, DelegationStake(h.target.juror, cfg.minJurorStake));
            && EntryTallied(cfg, b, log + [h], h.account, Some(entry'))
            && entry'.weight == 0 && (entry.Some? ==> entry.value.weight == 0)
            && entry'.slashable == cfg.minJurorStake + (if entry.Some? then entry.value.slashable else 0)
  {
    StakesInTallied(cfg, b, log, h.account, entry);
    StakesNext(cfg, log, h, StakesIn(entry));
    CountBound(cfg, log, Out(h.account));
    CountNext(log, h, Out(h.account));
    assert Times(|log| + 1, cfg.minJurorStake) == Times(|log|, cfg.minJurorStake) + cfg.minJurorStake;
  }

  lemma {:induction false} NoStakesTallied(cfg: Config, log: Log, a: AccountId)
    requires Count(log, Out(a)) == 0
    ensures StakesTallied(cfg, log, a, [])
  {
    forall j: AccountId
      ensures Get<Balance>([], j) == StakeFor(cfg, Count(log, Pair(a, j)))
    {
      PairWithinOut(log, a, j);
    }
  }

  lemma {:induction false} ViaNext(cfg: Config, b: Bench, log: Log, h: Hit, sel: Selections)
    requires Fits(cfg, b, log + [h]) && h.target.Via? && Tallied(cfg, b, log, sel) && Totals(cfg, log, sel)
    ensures Tallied(cfg, b, log + [h], Apply(cfg, sel, h)) && Totals(cfg, log + [h], Apply(cfg, sel, h))
  {
    var a, j := h.account, h.target.juror;
    FitsPrefix(cfg, b, log, h);
    assert CanBeDelegate(b, j) && a != j;
    assert EntryTallied(cfg, b, log, a, Get(sel, a)) && EntryTallied(cfg, b, log, j, Get(sel, j));
    IntoEntry(cfg, b, log, h, Get(sel, j));
    StakesInTallied(cfg, b, log, a, Get(sel, a));
    StakesHaveRoom(cfg, b, log, h, StakesIn(Get(sel, a)));
    OutEntry(cfg, b, log, h, Get(sel, a));
    var into := UpdatedEntry(cfg, Get(sel, j), DelegationWeight);
    var out := UpdatedEntry(cfg, Get(sel, a), DelegationStake(j, cfg.minJurorStake));
    PutGet(sel, j, into, a);
    assert Apply(cfg, sel, h) == Put(Put(sel, j, into), a, out);
    ViaEntries(cfg, b, log, h, sel, into, out);
    ViaTotals(cfg, log, h, sel, into, out);
  }

  lemma {:induction false} ViaEntries(cfg: Config, b: Bench, log: Log, h: Hit, sel: Selections, into: SelectionValue, out: SelectionValue)
    requires Tallied(cfg, b, log, sel) && h.target.Via? && h.account != h.target.juror
    requires EntryTallied(cfg, b, log + [h], h.target.juror, Some(into))
    requires EntryTallied(cfg, b, log + [h], h.account, Some(out))
    ensures Tallied(cfg, b, log + [h], Put(Put(sel, h.target.juror, into), h.account, out))
  {
    var a, j := h.account, h.target.juror;
    var mid := Put(sel, j, into);
    PutAscending(sel, j, into);
    PutAscending(mid, a, out);
    forall q: AccountId
      ensures EntryTallied(cfg, b, log + [h], q, Get(Put(mid, a, out), q))
    {
      PutGet(sel, j, into, q);
      PutGet(mid, a, out, q);
      if q != a && q != j {
        assert EntryTallied(cfg, b, log, q, Get(sel, q));
        EntryUnchanged(cfg, b, log, h, q, Get(sel, q));
      }
    }
  }

  lemma {:induction false} ViaTotals(cfg: Config, log: Log, h: Hit, sel: Selections, into: SelectionValue, out: SelectionValue)
    requires Totals(cfg, log, sel) && Ascending(sel) && h.target.Via? && h.account != h.target.juror
    requires var e := Get(sel, h.target.juror);
             && into.weight == 1 + (if e.Some? then e.value.weight else 0)
             && into.slashable == (if e.Some? then e.value.slashable else 0)
    requires var e := Get(sel, h.account);
             && out.weight == (if e.Some? then e.value.weight else 0)
             && out.slashable == cfg.minJurorStake + (if e.Some? then e.value.slashable else 0)
    ensures Totals(cfg, log + [h], Put(Put(sel, h.target.juror, into), h.account, out))
  {
    var a, j := h.account, h.target.juror;
    var mid := Put(sel, j, into);
    PutGet(sel, j, into, a);
    CountNext(log, h, Placed);
    PutSum(sel, j, into, WeightOf);
    PutSum(sel, j, into, SlashableOf);
    PutLength(sel, j, into);
    PutSum(mid, a, out, WeightOf);
    PutSum(mid, a, out, SlashableOf);
    PutLength(mid, a, out);
  }

  lemma {:induction false} NobodyNext(cfg: Config, b: Bench, log: Log, h: Hit, sel: Selections)
    requires Fits(cfg, b, log + [h]) && h.target.Nobody? && Tallied(cfg, b, log, sel) && Totals(cfg, log, sel)
    ensures Tallied(cfg, b, log + [h], sel) && Totals(cfg, log + [h], sel)
  {
    CountNext(log, h, Placed);
    FitsPrefix(cfg, b, log, h);
    forall q: AccountId
      ensures EntryTallied(cfg, b, log + [h], q, Get(sel, q))
    {
      assert EntryTallied(cfg, b, log, q, Get(sel, q));
      CountNext(log, h, Out(q));
      CountNext(log, h, OwnOf(q));
      CountNext(log, h, Into(q));
      forall j: AccountId
        ensures Count(log + [h], Pair(q, j)) == Count(log, Pair(q, j))
      {
        CountNext(log, h, Pair(q, j));
      }
    }
  }

  /** For every bench and every run of hits: who is selected, with which weight, stake at risk
      and delegations, and what all selections amount to. */
  lemma {:induction false} SelectionTheorem(cfg: Config, b: Bench, log: Log)
    requires Fits(cfg, b, log)
    ensures Tallied(cfg, b, log, Tally(cfg, log)) && Totals(cfg, log, Tally(cfg, log))
  {
    if log != [] {
      var prefix, h := log[..|log| - 1], log[|log| - 1];
      assert log == prefix + [h];
      FitsPrefix(cfg, b, prefix, h);
      SelectionTheorem(cfg, b, prefix);
      match h.target
      case Own => OwnNext(cfg, b, prefix, h, Tally(cfg, prefix));
      case Via(_) => ViaNext(cfg, b, prefix, h, Tally(cfg, prefix));
      case Nobody => NobodyNext(cfg, b, prefix, h, Tally(cfg, prefix));
    }
  }

  lemma {:induction false} OwnPlusInto(log: Log, a: AccountId)
    ensures Count(log, OwnOf(a)) + Count(log, Into(a)) <= |log|
  {
    if log != [] {
      OwnPlusInto(log[..|log| - 1], a);
    }
  }
}
