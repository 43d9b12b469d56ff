/** The whole draw of a jury: what it does to the pool and to the locks, which pool items it
    removes, and the shape of the draws it returns. */
module JuryDraws {
  import opened Numbers
  import opened Ordered
  import opened CourtTypes
  import opened CourtPool
  import opened JurySelection

  // ---- The consumed stake and the active locks ----

  /** The pool after the hits of `log`, before any item is removed. */
  function AfterHits(cfg: Config, pool: seq<PoolItem>, log: Log): (pool': seq<PoolItem>)
    ensures |pool'| == |pool|
  {
    seq(|pool|, k requires 0 <= k < |pool| => pool[k].(consumedStake :=
      Min(pool[k].consumedStake + Times(Count(log, Of(pool[k].account)), cfg.minJurorStake), U128_MAX)))
  }

  /** The participants after the hits of `log`. */
  function WithLocks(cfg: Config, participants: map<AccountId, ParticipantInfo>, log: Log)
    : map<AccountId, ParticipantInfo>
  {
    map a | a in participants :: participants[a].(activeLock :=
      Min(participants[a].activeLock + Times(Count(log, Of(a)), cfg.minJurorStake), U128_MAX))
  }

  /** The hits on an item are different sections above the items before it. */
  lemma {:induction false} CountBelowLast(pool: seq<PoolItem>, counts: seq<nat>, log: Log, k: nat)
    requires |counts| == |pool| && UniqueAccounts(pool) && HitsOk(pool, counts, log) && k < |pool| && log != []
    ensures var hits := Count(log, Of(pool[k].account));
            hits == 0 || SumTo(counts, k) + hits <= log[|log| - 1].section
  {
    var prefix, h := log[..|log| - 1], log[|log| - 1];
    assert HitOk(pool, counts, h);
    if prefix != [] {
      CountBelowLast(pool, counts, prefix, k);
      assert log[|log| - 2].section < h.section;
    }
  }

  /** No item is hit more often than it has whole sections left. */
  lemma {:induction false} HitsFit(pool: seq<PoolItem>, counts: seq<nat>, log: Log, k: nat)
    requires |counts| == |pool| && UniqueAccounts(pool) && HitsOk(pool, counts, log) && k < |pool|
    ensures Count(log, Of(pool[k].account)) <= counts[k]
  {
    if log != [] {
      var prefix, h := log[..|log| - 1], log[|log| - 1];
      assert HitOk(pool, counts, h);
      if h.index == k {
        CountBelowLast(pool, counts, log, k);
      } else {
        HitsFit(pool, counts, prefix, k);
      }
    }
  }

  /** So the stake behind the hits is there. */
  lemma {:induction false} HitsCovered(min: Balance, pool: seq<PoolItem>, log: Log, k: nat)
    requires 0 < min && UniqueAccounts(pool) && HitsOk(pool, SectionCounts(pool, min), log) && k < |pool|
    ensures Times(Count(log, Of(pool[k].account)), min) <= SatSub(pool[k].stake, pool[k].consumedStake)
  {
    HitsFit(pool, SectionCounts(pool, min), log, k);
    UnconsumedIsSectioned(pool[k], min);
    TimesMono(Count(log, Of(pool[k].account)), Sections(pool[k], min), min);
  }

  /** What the next hit locks is exactly one section: the unconsumed stake never runs short. */
  lemma {:induction false} NextLock(cfg: Config, pool: seq<PoolItem>, log: Log, h: Hit)
    requires 0 < cfg.minJurorStake && UniqueAccounts(pool)
    requires HitsOk(pool, SectionCounts(pool, cfg.minJurorStake), log + [h])
    ensures h.index < |pool| && h.account == pool[h.index].account
    ensures var item := AfterHits(cfg, pool, log)[h.index];
            && Min(SatSub(item.stake, item.consumedStake), cfg.minJurorStake) == cfg.minJurorStake
            && item.consumedStake == pool[h.index].consumedStake + Times(Count(log, Of(h.account)), cfg.minJurorStake)
  {
    assert (log + [h])[|log|] == h;
    assert HitOk(pool, SectionCounts(pool, cfg.minJurorStake), h);
    HitsCovered(cfg.minJurorStake, pool, log + [h], h.index);
    CountNext(log, h, Of(h.account));
  }

  lemma {:induction false} NotHitOutsidePool(pool: seq<PoolItem>, counts: seq<nat>, log: Log, a: AccountId)
    requires |counts| == |pool| && HitsOk(pool, counts, log)
    requires forall i :: 0 <= i < |pool| ==> pool[i].account != a
    ensures Count(log, Of(a)) == 0
  {
    if log != [] {
      assert HitOk(pool, counts, log[|log| - 1]);
      NotHitOutsidePool(pool, counts, log[..|log| - 1], a);
    }
  }

  // ---- The removal of items at the collected indices ----

  /** Remove one index after the other. Every index was collected before the first removal;
      an index beyond the end is a panic. */
  function RemoveEach<T>(s: seq<T>, indices: seq<nat>): Option<seq<T>> {
    if indices == [] then Some(s)
    else
      var i := indices[|indices| - 1];
      match RemoveEach(s, indices[..|indices| - 1])
      case None => None
      case Some(r) => if i < |r| then Some(RemoveAt(r, i)) else None
  }

  /** The position that the k-th removal takes away: each earlier removal has moved it by one. */
  ghost predicate Dropped(indices: seq<nat>, p: nat) {
    exists k :: 0 <= k < |indices| && p == indices[k] + k
  }

  /** The first position behind all taken ones. */
  ghost function Behind(indices: seq<nat>): nat {
    if indices == [] then 0 else indices[|indices| - 1] + |indices|
  }

  ghost predicate RemovalFits(indices: seq<nat>, n: nat) {
    Nondecreasing(indices) && Behind(indices) <= n
  }

  /** The elements in front of `Behind(indices)` that are left. */
  ghost function KeptPart<T>(s: seq<T>, indices: seq<nat>): (kept: seq<T>)
    requires RemovalFits(indices, |s|)
    ensures |kept| == Behind(indices) - |indices|
  {
    if indices == [] then []
    else
      var before := indices[..|indices| - 1];
      KeptPart(s, before) + s[Behind(before)..Behind(indices) - 1]
  }

  /** `kept` holds the elements of `s` below `p` that were not taken away, and no others. */
  ghost predicate Keeps<T(!new)>(kept: seq<T>, s: seq<T>, indices: seq<nat>, p: nat)
    requires p <= |s|
  {
    forall x :: x in kept <==> exists q :: 0 <= q < p && !Dropped(indices, q) && x == s[q]
  }

  /** What is left after the removals: a part without the taken positions, and an untouched rest. */
  lemma {:induction false} RemovalShape<T>(s: seq<T>, indices: seq<nat>)
    requires RemovalFits(indices, |s|)
    ensures RemoveEach(s, indices) == Some(KeptPart(s, indices) + s[Behind(indices)..])
  {
    if indices == [] {
      assert KeptPart(s, indices) + s[0..] == s;
    } else {
      var before := indices[..|indices| - 1];
      RemovalShape(s, before);
      RemoveBehind(KeptPart(s, before), s, Behind(before), indices[|indices| - 1]);
    }
  }

  lemma {:induction false} KeptPartKeeps<T(!new)>(s: seq<T>, indices: seq<nat>)
    requires RemovalFits(indices, |s|)
    ensures Keeps(KeptPart(s, indices), s, indices, Behind(indices))
  {
    if indices != [] {
      KeptPartKeeps(s, indices[..|indices| - 1]);
      KeepsNext(KeptPart(s, indices[..|indices| - 1]), s, indices);
    }
  }

  lemma {:induction false} RemoveBehind<T>(kept: seq<T>, s: seq<T>, p: nat, i: nat)
    requires |kept| <= i < |kept| + |s| - p && p <= |s|
    ensures RemoveAt(kept + s[p..], i) == kept + s[p..p + i - |kept|] + s[p + i - |kept| + 1..]
  {
  }

  lemma {:induction false} KeepsNext<T(!new)>(kept: seq<T>, s: seq<T>, indices: seq<nat>)
    requires indices != [] && RemovalFits(indices, |s|)
    requires var before := indices[..|indices| - 1];
             Behind(before) <= |s| && Keeps(kept, s, before, Behind(before))
    ensures Keeps(kept + s[Behind(indices[..|indices| - 1])..Behind(indices) - 1], s, indices, Behind(indices))
  {
    var before := indices[..|indices| - 1];
    var p, end := Behind(before), Behind(indices) - 1;
    DroppedNext(indices);
    forall q | p <= q < end
      ensures !Dropped(indices, q) && s[q] in s[p..end]
    {
      DroppedBound(before, q);
      assert s[q] == s[p..end][q - p];
    }
    forall x | x in s[p..end]
      ensures exists q :: 0 <= q < end + 1 && !Dropped(indices, q) && x == s[q]
    {
      var k :| 0 <= k < end - p && x == s[p..end][k];
      assert x == s[p + k];
    }
    forall x | x in kept
      ensures exists q :: 0 <= q < end + 1 && !Dropped(indices, q) && x == s[q]
    {
      var q :| 0 <= q < p && !Dropped(before, q) && x == s[q];
      assert !Dropped(indices, q);
    }
  }

  lemma {:induction false} DroppedNext(indices: seq<nat>)
    requires indices != []
    ensures forall q: nat :: Dropped(indices, q) <==> Dropped(indices[..|indices| - 1], q) || q == Behind(indices) - 1
  {
    var before := indices[..|indices| - 1];
    forall q: nat
      ensures Dropped(indices, q) <==> Dropped(before, q) || q == Behind(indices) - 1
    {
      if Dropped(before, q) {
        var k :| 0 <= k < |before| && q == before[k] + k;
        assert q == indices[k] + k;
      }
      if Dropped(indices, q) {
        var k :| 0 <= k < |indices| && q == indices[k] + k;
        assert k < |before| ==> q == before[k] + k;
      }
    }
  }

  lemma {:induction false} DroppedBound(indices: seq<nat>, q: nat)
    requires Nondecreasing(indices) && Behind(indices) <= q
    ensures !Dropped(indices, q)
  {
  }

  /** Too many removals run past the end: exactly then the code panics. */
  lemma {:induction false} RemovalPanics<T>(s: seq<T>, indices: seq<nat>)
    requires Nondecreasing(indices)
    ensures RemoveEach(s, indices).None? <==> Behind(indices) > |s|
  {
    if Behind(indices) <= |s| {
      RemovalShape(s, indices);
    } else {
      var before := indices[..|indices| - 1];
      RemovalPanics(s, before);
      if Behind(before) <= |s| {
        RemovalShape(s, before);
      }
    }
  }

  /** The removal takes away the items at the positions `indices[k] + k`, and only those. */
  lemma {:induction false} RemovalTheorem<T(!new)>(s: seq<T>, indices: seq<nat>, p: nat)
    requires Distinct(s) && RemovalFits(indices, |s|) && p < |s|
    ensures RemoveEach(s, indices).Some?
    ensures s[p] in RemoveEach(s, indices).value <==> !Dropped(indices, p)
  {
    RemovalShape(s, indices);
    KeptPartKeeps(s, indices);
    var kept, end := KeptPart(s, indices), Behind(indices);
    if p < end {
      assert s[p] !in s[end..] by {
        assert forall i :: 0 <= i < |s| - end ==> s[end..][i] == s[end + i];
      }
      KeptOrDropped(kept, s, indices, end, p);
    } else {
      assert s[p] == s[end..][p - end];
      DroppedBound(indices, p);
    }
  }

  lemma {:induction false} KeptOrDropped<T(!new)>(kept: seq<T>, s: seq<T>, indices: seq<nat>, end: nat, p: nat)
    requires Distinct(s) && p < end <= |s| && Keeps(kept, s, indices, end)
    ensures s[p] in kept <==> !Dropped(indices, p)
  {
    if s[p] in kept {
      var q :| 0 <= q < end && !Dropped(indices, q) && s[p] == s[q];
      assert p == q;
    }
  }

  /** So the removal does what it is meant to do, taking away exactly the items at the collected
      indices, if and only if at most one index was collected. */
  lemma {:induction false} RemovalIsExactIff<T(!new)>(s: seq<T>, indices: seq<nat>)
    requires Distinct(s) && Nondecreasing(indices)
    requires forall k :: 0 <= k < |indices| ==> indices[k] < |s|
    ensures (RemoveEach(s, indices).Some?
              && forall p :: 0 <= p < |s| ==> (s[p] in RemoveEach(s, indices).value <==> p !in indices))
            <==> |indices| <= 1
  {
    RemovalPanics(s, indices);
    if RemovalFits(indices, |s|) {
      forall p | 0 <= p < |s|
        ensures s[p] in RemoveEach(s, indices).value <==> !Dropped(indices, p)
      {
        RemovalTheorem(s, indices, p);
      }
      if |indices| <= 1 {
        assert forall p: nat :: Dropped(indices, p) <==> p in indices;
      } else {
        var last := |indices| - 1;
        var p := indices[last] + last;
        assert Dropped(indices, p);
        assert p !in indices;
      }
    }
  }

  /** Removals keep the order and add nothing. */
  lemma {:induction false} RemovalKeepsPool(pool: seq<PoolItem>, indices: seq<nat>)
    requires PoolSorted(pool) && RemoveEach(pool, indices).Some?
    ensures var rest := RemoveEach(pool, indices).value;
            && PoolSorted(rest) && |rest| <= |pool|
            && (forall i :: 0 <= i < |rest| ==> rest[i] in pool)
  {
    if indices != [] {
      var before, i := indices[..|indices| - 1], indices[|indices| - 1];
      RemovalKeepsPool(pool, before);
      var mid := RemoveEach(pool, before).value;
      RemoveKeepsOrder(mid, i);
      assert forall k :: 0 <= k < |mid| - 1 ==> RemoveAt(mid, i)[k] == mid[if k < i then k else k + 1];
    }
  }

  // ---- The draw ----

  /** The pool indices of the hits that found nobody to vote. */
  function FailedIndices(log: Log): seq<nat> {
    if log == [] then []
    else
      var h := log[|log| - 1];
      FailedIndices(log[..|log| - 1]) + if h.target.Nobody? then [h.index] else []
  }

  lemma {:induction false} AppendIndex(indices: seq<nat>, last: nat)
    requires Nondecreasing(indices) && forall k :: 0 <= k < |indices| ==> indices[k] <= last
    ensures Nondecreasing(indices + [last]) && Nondecreasing(indices + [])
  {
    assert indices + [] == indices;
  }

  /** A later section lies in the same item or in a later one. */
  lemma {:induction false} LaterIndex(pool: seq<PoolItem>, counts: seq<nat>, g: Hit, h: Hit)
    requires |counts| == |pool| && HitOk(pool, counts, g) && HitOk(pool, counts, h) && g.section < h.section
    ensures g.index <= h.index
  {
    if h.index < g.index {
      SumToMonotone(counts, h.index + 1, g.index);
    }
  }

  /** The collected indices are in ascending order, possibly repeated. */
  lemma {:induction false} FailedIndicesAscend(pool: seq<PoolItem>, counts: seq<nat>, log: Log)
    requires |counts| == |pool| && HitsOk(pool, counts, log)
    ensures Nondecreasing(FailedIndices(log)) && |FailedIndices(log)| == Count(log, Failed)
    ensures forall k :: 0 <= k < |FailedIndices(log)| ==>
              FailedIndices(log)[k] < |pool| && FailedIndices(log)[k] <= log[|log| - 1].index
  {
    if log != [] {
      var prefix, h := log[..|log| - 1], log[|log| - 1];
      assert HitOk(pool, counts, h);
      FailedIndicesAscend(pool, counts, prefix);
      if prefix != [] {
        var g := prefix[|prefix| - 1];
        assert HitOk(pool, counts, g) && g.section < h.section;
        LaterIndex(pool, counts, g, h);
      }
      assert h.index < |pool|;
      hide HitsOk, HitOk, SumTo, Count;
      AppendIndex(FailedIndices(prefix), h.index);
    }
  }

  function DrawOf(entry: (AccountId, SelectionValue)): Draw {
    Draw(entry.0, entry.1.weight, if entry.1.stakes != [] then Delegated(entry.1.stakes) else Drawn,
         entry.1.slashable)
  }

  /** The selections as draws, in account order. */
  function DrawsOf(sel: Selections): (draws: seq<Draw>)
    ensures |draws| == |sel|
  {
    seq(|sel|, i requires 0 <= i < |sel| => DrawOf(sel[i]))
  }

  /** `b'` and `draws` are an outcome of drawing `n` sections from `b`, through the hits `log`. */
  ghost predicate Chosen(cfg: Config, b: Bench, b': Bench, n: nat, log: Log, draws: seq<Draw>)
    requires 0 < cfg.minJurorStake
  {
    && |log| == n
    && HitsOk(b.pool, SectionCounts(b.pool, cfg.minJurorStake), log)
    && TargetsOk(b, log)
    && RemoveEach(AfterHits(cfg, b.pool, log), FailedIndices(log)) == Some(b'.pool)
    && b'.participants == WithLocks(cfg, b.participants, log)
    && b'.locks == b.locks
    && draws == DrawsOf(Tally(cfg, log))
  }

  /** The hits move the consumed stake and the lock of a participant by the same amount. */
  lemma {:induction false} AfterHitsOk(cfg: Config, b: Bench, log: Log, k: nat)
    requires 0 < cfg.minJurorStake && PoolOk(cfg, b) && k < |b.pool|
    requires HitsOk(b.pool, SectionCounts(b.pool, cfg.minJurorStake), log)
    ensures ItemOk(AfterHits(cfg, b.pool, log)[k], WithLocks(cfg, b.participants, log))
  {
    AllAccountsUnique(cfg, b);
    HitsCovered(cfg.minJurorStake, b.pool, log, k);
    assert ItemOk(b.pool[k], b.participants);
  }

  lemma {:induction false} LocksCovered(cfg: Config, b: Bench, log: Log, a: AccountId)
    requires 0 < cfg.minJurorStake && BenchOk(cfg, b) && a in b.participants
    requires HitsOk(b.pool, SectionCounts(b.pool, cfg.minJurorStake), log)
    ensures b.participants[a].activeLock + Times(Count(log, Of(a)), cfg.minJurorStake) <= b.participants[a].stake
    ensures ParticipantOk(cfg, a, WithLocks(cfg, b.participants, log)[a])
  {
    hide Increasing, PoolSorted, HitsOk;
    assert ParticipantOk(cfg, a, b.participants[a]);
    match IndexOf(b.pool, a)
    case Some(k) =>
      AllAccountsUnique(cfg, b);
      HitsCovered(cfg.minJurorStake, b.pool, log, k);
      assert ItemOk(b.pool[k], b.participants);
    case None =>
      NotHitOutsidePool(b.pool, SectionCounts(b.pool, cfg.minJurorStake), log, a);
  }

  lemma {:induction false} AfterHitsSorted(cfg: Config, pool: seq<PoolItem>, log: Log)
    requires PoolSorted(pool)
    ensures PoolSorted(AfterHits(cfg, pool, log))
  {
    var mid := AfterHits(cfg, pool, log);
    forall i, j | 0 <= i < j < |mid|
      ensures Less(mid[i], mid[j])
    {
      assert Less(pool[i], pool[j]);
    }
  }

  lemma {:induction false} ChosenPoolOk(cfg: Config, b: Bench, b': Bench, n: nat, log: Log, draws: seq<Draw>)
    requires 0 < cfg.minJurorStake && PoolOk(cfg, b) && Chosen(cfg, b, b', n, log, draws)
    ensures PoolOk(cfg, b')
  {
    var mid := AfterHits(cfg, b.pool, log);
    AfterHitsSorted(cfg, b.pool, log);
    RemovalKeepsPool(mid, FailedIndices(log));
    forall i | 0 <= i < |b'.pool|
      ensures ItemOk(b'.pool[i], b'.participants)
    {
      var k :| 0 <= k < |mid| && mid[k] == b'.pool[i];
      AfterHitsOk(cfg, b, log, k);
    }
  }

  /** Drawing a jury keeps the pool and the participants in agreement. */
  lemma {:induction false} ChosenOk(cfg: Config, b: Bench, b': Bench, n: nat, log: Log, draws: seq<Draw>)
    requires 0 < cfg.minJurorStake && BenchOk(cfg, b) && Chosen(cfg, b, b', n, log, draws)
    ensures BenchOk(cfg, b')
  {
    ChosenPoolOk(cfg, b, b', n, log, draws);
    WithLocksOk(cfg, b, b', log);
  }

  lemma {:induction false} WithLocksOk(cfg: Config, b: Bench, b': Bench, log: Log)
    requires 0 < cfg.minJurorStake && BenchOk(cfg, b)
    requires HitsOk(b.pool, SectionCounts(b.pool, cfg.minJurorStake), log)
    requires b'.participants == WithLocks(cfg, b.participants, log) && b'.locks == b.locks
    ensures ParticipantsOk(cfg, b')
  {
    forall a | a in b'.participants
      ensures ParticipantOk(cfg, a, b'.participants[a])
    {
      LocksCovered(cfg, b, log, a);
    }
  }

  // ---- The shape of the draws ----

  ghost predicate DrawsSorted(draws: seq<Draw>) {
    forall i, j :: 0 <= i < j < |draws| ==> draws[i].participant < draws[j].participant
  }

  /** A draw belongs to a delegator without weight, whose delegated stakes are what is at risk,
      or to a juror with a weight. */
  ghost predicate DrawShape(cfg: Config, d: Draw) {
    match d.vote
    case Delegated(stakes) =>
      && d.weight == 0
      && 0 < |stakes| <= cfg.maxDelegations
      && Ascending(stakes)
      && Sum(stakes, Id) == d.slashable
    case _ => d.weight >= 1
  }

  function TotalWeight(draws: seq<Draw>): nat {
    if draws == [] then 0 else TotalWeight(draws[..|draws| - 1]) + draws[|draws| - 1].weight
  }

  function TotalSlashable(draws: seq<Draw>): nat {
    if draws == [] then 0 else TotalSlashable(draws[..|draws| - 1]) + draws[|draws| - 1].slashable
  }

  /** What an account has at risk in `draws`. */
  function SlashFor(draws: seq<Draw>, a: AccountId): nat {
    if draws == [] then 0
    else SlashFor(draws[..|draws| - 1], a)
         + if draws[|draws| - 1].participant == a then draws[|draws| - 1].slashable else 0
  }

  /** The draw of a delegator who has put something behind juror `j`. */
  predicate Backs(d: Draw, j: AccountId) {
    d.vote.Delegated? && Get(d.vote.stakes, j).Some? && 0 < Get(d.vote.stakes, j).value
  }

  /** Behind every juror is something: an own stake, or that of a delegator. */
  ghost predicate JurorsBacked(draws: seq<Draw>) {
    forall i :: 0 <= i < |draws| && !draws[i].vote.Delegated? ==>
      0 < draws[i].slashable || exists k :: 0 <= k < |draws| && Backs(draws[k], draws[i].participant)
  }

  ghost predicate DrawsOk(cfg: Config, draws: seq<Draw>) {
    && DrawsSorted(draws)
    && JurorsBacked(draws)
    && TotalSlashable(draws) <= U128_MAX
    && (forall i :: 0 <= i < |draws| ==> DrawShape(cfg, draws[i]))
  }

  lemma {:induction false} SlashForAbsent(draws: seq<Draw>, a: AccountId)
    requires forall i :: 0 <= i < |draws| ==> draws[i].participant != a
    ensures SlashFor(draws, a) == 0
  {
    if draws != [] {
      SlashForAbsent(draws[..|draws| - 1], a);
    }
  }

  lemma {:induction false} SlashForAt(draws: seq<Draw>, i: nat)
    requires DrawsSorted(draws) && i < |draws|
    ensures SlashFor(draws, draws[i].participant) == draws[i].slashable
  {
    if i == |draws| - 1 {
      SlashForAbsent(draws[..i], draws[i].participant);
    } else {
      SlashForAt(draws[..|draws| - 1], i);
    }
  }

  lemma {:induction false} SlashForSelection(sel: Selections, a: AccountId)
    requires Ascending(sel)
    ensures SlashFor(DrawsOf(sel), a) == match Get(sel, a) case Some(e) => e.slashable as nat case None => 0
  {
    var draws, p := DrawsOf(sel), Position(sel, a);
    if p < |sel| && sel[p].0 == a {
      SlashForAt(draws, p);
    } else {
      forall i | 0 <= i < |draws|
        ensures draws[i].participant != a
      {
        if sel[i].0 == a {
          GetAt(sel, i);
        }
      }
      SlashForAbsent(draws, a);
    }
  }

  lemma {:induction false} TotalsOfSelections(sel: Selections)
    ensures TotalWeight(DrawsOf(sel)) == Sum(sel, WeightOf)
    ensures TotalSlashable(DrawsOf(sel)) == Sum(sel, SlashableOf)
  {
    if sel != [] {
      var prefix, last := sel[..|sel| - 1], sel[|sel| - 1];
      TotalsOfSelections(prefix);
      assert sel == prefix + [last];
      SumConcat(prefix, [last], WeightOf);
      SumConcat(prefix, [last], SlashableOf);
      assert DrawsOf(sel)[..|sel| - 1] == DrawsOf(prefix);
    }
  }

  /** The draw of a delegator or a juror has the shape of one. */
  lemma {:induction false} EntryShape(cfg: Config, b: Bench, log: Log, a: AccountId, v: SelectionValue)
    requires Fits(cfg, b, log) && EntryTallied(cfg, b, log, a, Some(v))
    ensures DrawShape(cfg, DrawOf((a, v))) && DrawOf((a, v)).vote in {Drawn, Delegated(v.stakes)}
  {
    if IsDelegator(b, a) {
      var d := b.participants[a].delegations.value;
      assert ParticipantOk(cfg, a, b.participants[a]);
      TimesMono(1, Count(log, Out(a)), cfg.minJurorStake);
      forall i | 0 <= i < |v.stakes|
        ensures v.stakes[i].0 in d
      {
        GetAt(v.stakes, i);
        PairIsDelegate(cfg, b, log, a, v.stakes[i].0);
      }
      KeysWithin(v.stakes, d);
    }
  }

  lemma {:induction false} ChosenFits(cfg: Config, b: Bench, b': Bench, n: nat, log: Log, draws: seq<Draw>)
    requires 0 < cfg.minJurorStake && BenchOk(cfg, b) && Chosen(cfg, b, b', n, log, draws)
    requires n <= U32_MAX && n * cfg.minJurorStake <= U128_MAX
    ensures Fits(cfg, b, log)
  {
    TimesIsProduct(n, cfg.minJurorStake);
  }

  lemma {:induction false} DrawIsShaped(cfg: Config, b: Bench, log: Log, i: nat)
    requires Fits(cfg, b, log) && i < |Tally(cfg, log)|
    ensures var d := DrawOf(Tally(cfg, log)[i]);
            DrawShape(cfg, d) && (d.vote.Drawn? || d.vote.Delegated?)
  {
    hide Fits, DrawShape, EntryTallied;
    var sel := Tally(cfg, log);
    SelectionTheorem(cfg, b, log);
    GetAt(sel, i);
    assert EntryTallied(cfg, b, log, sel[i].0, Get(sel, sel[i].0));
    EntryShape(cfg, b, log, sel[i].0, sel[i].1);
  }

  lemma {:induction false} DrawsShaped(cfg: Config, b: Bench, log: Log)
    requires Fits(cfg, b, log)
    ensures var draws := DrawsOf(Tally(cfg, log));
            && DrawsSorted(draws)
            && (forall i :: 0 <= i < |draws| ==> DrawShape(cfg, draws[i]))
            && (forall i :: 0 <= i < |draws| ==> draws[i].vote.Drawn? || draws[i].vote.Delegated?)
  {
    hide Fits, DrawShape, Tally, EntryTallied;
    SelectionTheorem(cfg, b, log);
    forall i | 0 <= i < |Tally(cfg, log)|
      ensures var d := DrawOf(Tally(cfg, log)[i]);
              DrawShape(cfg, d) && (d.vote.Drawn? || d.vote.Delegated?)
    {
      DrawIsShaped(cfg, b, log, i);
    }
  }

  lemma {:induction false} SomeHit(log: Log, q: Query) returns (t: nat)
    requires 0 < Count(log, q)
    ensures t < |log| && Counts(q, log[t])
  {
    t := |log| - 1;
    if !Counts(q, log[t]) {
      t := SomeHit(log[..t], q);
    }
  }

  lemma {:induction false} HitCounts(log: Log, q: Query, t: nat)
    requires t < |log| && Counts(q, log[t])
    ensures 0 < Count(log, q)
  {
    if t < |log| - 1 {
      HitCounts(log[..|log| - 1], q, t);
    }
  }

  /** A juror who gets a hit of a delegator has that delegator among the draws. */
  lemma {:induction false} BackerDrawn(cfg: Config, b: Bench, log: Log, j: AccountId) returns (k: nat)
    requires Fits(cfg, b, log) && 0 < Count(log, Into(j))
    ensures k < |Tally(cfg, log)| && Backs(DrawOf(Tally(cfg, log)[k]), j)
  {
    var sel := Tally(cfg, log);
    var t := SomeHit(log, Into(j));
    var d := log[t].account;
    assert TargetOk(b, d, log[t].target);
    HitCounts(log, Pair(d, j), t);
    HitCounts(log, Out(d), t);
    SelectionTheorem(cfg, b, log);
    assert EntryTallied(cfg, b, log, d, Get(sel, d));
    k := Position(sel, d);
    TimesMono(1, Count(log, Pair(d, j)), cfg.minJurorStake);
    hide Tally, Fits, TargetOk, Count;
    assert Get(Get(sel, d).value.stakes, j) == StakeFor(cfg, Count(log, Pair(d, j)));
  }

  lemma {:induction false} DrawIsBacked(cfg: Config, b: Bench, log: Log, i: nat)
    requires Fits(cfg, b, log) && i < |Tally(cfg, log)| && Tally(cfg, log)[i].1.stakes == []
    ensures 0 < Tally(cfg, log)[i].1.slashable
            || exists k :: 0 <= k < |Tally(cfg, log)| && Backs(DrawOf(Tally(cfg, log)[k]), Tally(cfg, log)[i].0)
  {
    var sel := Tally(cfg, log);
    SelectionTheorem(cfg, b, log);
    GetAt(sel, i);
    var j := sel[i].0;
    assert EntryTallied(cfg, b, log, j, Get(sel, j));
    hide Tally, Fits, Backs, DrawOf, Count;
    if IsDelegator(b, j) {
      TimesMono(1, Count(log, Out(j)), cfg.minJurorStake);
    } else if Count(log, OwnOf(j)) > 0 {
      TimesMono(1, Count(log, OwnOf(j)), cfg.minJurorStake);
    } else {
      var k := BackerDrawn(cfg, b, log, j);
    }
  }

  lemma {:induction false} DrawsBacked(cfg: Config, b: Bench, log: Log)
    requires Fits(cfg, b, log)
    ensures JurorsBacked(DrawsOf(Tally(cfg, log)))
  {
    hide Fits, Tally, Backs;
    var sel, draws := Tally(cfg, log), DrawsOf(Tally(cfg, log));
    forall i | 0 <= i < |draws| && !draws[i].vote.Delegated?
      ensures 0 < draws[i].slashable || exists k :: 0 <= k < |draws| && Backs(draws[k], draws[i].participant)
    {
      DrawIsBacked(cfg, b, log, i);
      if draws[i].slashable == 0 {
        var k :| 0 <= k < |sel| && Backs(DrawOf(sel[k]), sel[i].0);
        assert Backs(draws[k], draws[i].participant);
      }
    }
  }

  /** One weight and one section at risk for every hit that goes to somebody. */
  lemma {:induction false} DrawTotals(cfg: Config, b: Bench, log: Log)
    requires Fits(cfg, b, log)
    ensures var draws, placed := DrawsOf(Tally(cfg, log)), Count(log, Placed);
            && placed + Count(log, Failed) == |log|
            && TotalWeight(draws) == placed
            && TotalSlashable(draws) == Times(placed, cfg.minJurorStake) <= U128_MAX
            && |draws| <= 2 * placed
  {
    hide Fits, Tally, EntryTallied, Tallied;
    SelectionTheorem(cfg, b, log);
    TotalsOfSelections(Tally(cfg, log));
    CountSplits(log, 0);
    CountBound(cfg, log, Placed);
    FitsMoney(cfg, b, log);
  }

  lemma {:induction false} FitsMoney(cfg: Config, b: Bench, log: Log)
    requires Fits(cfg, b, log)
    ensures Times(|log|, cfg.minJurorStake) <= U128_MAX
  {
  }

  ghost predicate JuryOk(cfg: Config, log: Log, draws: seq<Draw>) {
    var f := Count(log, Failed);
    && f <= |log|
    && TotalWeight(draws) == |log| - f
    && TotalSlashable(draws) == (|log| - f) * cfg.minJurorStake
    && |draws| <= 2 * (|log| - f)
    && DrawsOk(cfg, draws)
    && forall i :: 0 <= i < |draws| ==> draws[i].vote.Drawn? || draws[i].vote.Delegated?
  }

  lemma {:induction false} DrawsMakeJury(cfg: Config, b: Bench, log: Log)
    requires Fits(cfg, b, log)
    ensures JuryOk(cfg, log, DrawsOf(Tally(cfg, log)))
  {
    hide Fits, DrawShape, Tally, Times, TotalWeight, TotalSlashable, Count, DrawsOf, JurorsBacked;
    DrawsBacked(cfg, b, log);
    DrawsShaped(cfg, b, log);
    DrawTotals(cfg, b, log);
    TimesIsProduct(Count(log, Placed), cfg.minJurorStake);
  }

  /** For every bench and every outcome of the random choices: the draws are in account order and
      have the shape of delegators or jurors who have not voted, there are at most two for each
      section, and together they have one weight and one section at risk for every section that
      did not fall on a delegator without a valid juror. */
  lemma {:induction false} JuryTheorem(cfg: Config, b: Bench, b': Bench, n: nat, log: Log, draws: seq<Draw>)
    requires 0 < cfg.minJurorStake && BenchOk(cfg, b) && Chosen(cfg, b, b', n, log, draws)
    requires n <= U32_MAX && n * cfg.minJurorStake <= U128_MAX
    ensures var f := Count(log, Failed);
            && f <= n
            && TotalWeight(draws) == n - f
            && TotalSlashable(draws) == (n - f) * cfg.minJurorStake
            && |draws| <= 2 * (n - f)
    ensures DrawsOk(cfg, draws)
    ensures forall i :: 0 <= i < |draws| ==> draws[i].vote.Drawn? || draws[i].vote.Delegated?
  {
    hide BenchOk, DrawShape, Tally, HitsOk, TargetsOk, RemoveEach, AfterHits, FailedIndices, WithLocks, DrawsOf, DrawsSorted, JurorsBacked;
    ChosenFits(cfg, b, b', n, log, draws);
    DrawsMakeJury(cfg, b, log);
  }

  /** What the draw locks for an account is what the account has at risk in the draws, plus one
      section for every time it was hit as a delegator without a valid juror. */
  lemma {:induction false} LockAccounting(cfg: Config, b: Bench, b': Bench, n: nat, log: Log, draws: seq<Draw>, a: AccountId)
    requires 0 < cfg.minJurorStake && BenchOk(cfg, b) && Chosen(cfg, b, b', n, log, draws)
    requires n <= U32_MAX && n * cfg.minJurorStake <= U128_MAX
    ensures Times(Count(log, Of(a)), cfg.minJurorStake)
         == SlashFor(draws, a) + Times(Count(log, FailedOf(a)), cfg.minJurorStake)
  {
    ChosenFits(cfg, b, b', n, log, draws);
    SelectionTheorem(cfg, b, log);
    SlashForSelection(Tally(cfg, log), a);
    assert EntryTallied(cfg, b, log, a, Get(Tally(cfg, log), a));
    AtRisk(cfg, b, log, a, Get(Tally(cfg, log), a));
  }

  lemma {:induction false} AtRisk(cfg: Config, b: Bench, log: Log, a: AccountId, entry: Option<SelectionValue>)
    requires TargetsOk(b, log) && EntryTallied(cfg, b, log, a, entry)
    ensures Times(Count(log, Of(a)), cfg.minJurorStake)
         == (match entry case Some(e) => e.slashable as nat case None => 0)
            + Times(Count(log, FailedOf(a)), cfg.minJurorStake)
  {
    CountSplits(log, a);
    TargetsSplit(b, log, a);
    TimesAdds(Count(log, OwnOf(a)) + Count(log, Out(a)), Count(log, FailedOf(a)), cfg.minJurorStake);
  }

  /** The hits of a delegator never go to the own vote, those of a juror always. */
  lemma {:induction false} TargetsSplit(b: Bench, log: Log, a: AccountId)
    requires TargetsOk(b, log)
    ensures if IsDelegator(b, a) then Count(log, OwnOf(a)) == 0
            else Count(log, Out(a)) == 0 && Count(log, FailedOf(a)) == 0
  {
    if log != [] {
      assert TargetOk(b, log[|log| - 1].account, log[|log| - 1].target);
      TargetsSplit(b, log[..|log| - 1], a);
    }
  }
}
