/** The locks of the voters: each list of entries, the currency lock behind it, and the votes it
    stands for. */
module GdVoters {
  import opened Numbers
  import opened Ordered
  import opened Ledger
  import opened GlobalDisputes
  import opened GdHistory
  import opened GdSteps

  /** What a voter has put on the outcomes of a market. */
  function Voted(h: History, a: AccountId): nat {
    if h == [] then 0
    else Voted(h[..|h| - 1], a) + if h[|h| - 1].source == Ballot(a) then h[|h| - 1].amount else 0
  }

  /** The lists are sorted and bounded, and the currency lock is the largest entry. */
  ghost predicate VoterOk(cfg: Config, s: Storage, a: AccountId) {
    var list := LocksOf(s, a);
    && Ascending(list) && |list| <= cfg.maxVotes
    && CurrencyLockOf(s, a) == MaxEntry(list)
    && forall i :: 0 <= i < |list| ==> list[i].0 in s.infos
  }

  /** The entry of an active dispute is all that the voter has put on it. */
  ghost predicate EntryOk(s: Storage, h: History, a: AccountId, m: MarketId) {
    && (IsActive(DisputeOf(s, m)) ==> EntryFor(LocksOf(s, a), m) == Min(Voted(h, a), U128_MAX))
    && (m !in s.infos ==> EntryFor(LocksOf(s, a), m) == 0)
  }

  // ---- The largest entry ----

  lemma {:induction false} MaxEntryBounds(list: LockList)
    ensures forall i :: 0 <= i < |list| ==> list[i].1 <= MaxEntry(list)
    ensures MaxEntry(list) == 0 || exists i :: 0 <= i < |list| && list[i].1 == MaxEntry(list)
  {
    if list != [] {
      var prefix := list[..|list| - 1];
      MaxEntryBounds(prefix);
      forall i | 0 <= i < |list|
        ensures list[i].1 <= MaxEntry(list)
      {
        assert i < |prefix| ==> prefix[i] == list[i];
      }
      if MaxEntry(list) != 0 {
        if MaxEntry(list) == list[|list| - 1].1 {
        } else {
          var i :| 0 <= i < |prefix| && prefix[i].1 == MaxEntry(prefix);
          assert list[i].1 == MaxEntry(list);
        }
      }
    }
  }

  lemma {:induction false} MaxEntryConcat(list: LockList, more: LockList)
    ensures MaxEntry(list + more) == Max(MaxEntry(list), MaxEntry(more))
  {
    if more == [] {
      assert list + more == list;
    } else {
      MaxEntryConcat(list, more[..|more| - 1]);
      assert (list + more)[..|list + more| - 1] == list + more[..|more| - 1];
    }
  }

  /** A growing entry moves the maximum as extending the currency lock does. */
  lemma {:induction false} MaxEntryPut(list: LockList, m: MarketId, x: Balance)
    requires EntryFor(list, m) <= x
    ensures MaxEntry(Put(list, m, x)) == Max(MaxEntry(list), x)
  {
    hide MaxEntry, Put, Get;
    var front, kept, back := PutParts<Balance>(list, m, x);
    MaxEntryConcat(front + kept, back);
    MaxEntryConcat(front, kept);
    MaxEntryConcat(front + [(m, x)], back);
    MaxEntryConcat(front, [(m, x)]);
    OneEntry(m, x);
    OneEntry(m, EntryFor(list, m));
    NoEntry();
  }

  lemma {:induction false} OneEntry(m: MarketId, x: Balance)
    ensures MaxEntry([(m, x)]) == x
  {
    var list: LockList := [(m, x)];
    assert list[..0] == [];
  }

  lemma {:induction false} NoEntry()
    ensures MaxEntry([]) == 0
  {
  }

  lemma {:induction false} EntryWithin(list: LockList, m: MarketId)
    ensures EntryFor(list, m) <= MaxEntry(list)
  {
    MaxEntryBounds(list);
  }

  // ---- Retaining entries ----

  lemma {:induction false} RetainedIn(infos: map<MarketId, DisputeInfo>, list: LockList, x: (MarketId, Balance))
    requires x in Retained(infos, list)
    ensures x in list && Unresolved(infos, x.0)
  {
    var prefix, last := list[..|list| - 1], list[|list| - 1];
    assert list == prefix + [last];
    if x in Retained(infos, prefix) {
      RetainedIn(infos, prefix, x);
    }
  }

  lemma {:induction false} RetainedFrom(infos: map<MarketId, DisputeInfo>, list: LockList)
    requires Ascending(list)
    ensures Ascending(Retained(infos, list)) && |Retained(infos, list)| <= |list|
  {
    if list != [] {
      var prefix, last := list[..|list| - 1], list[|list| - 1];
      RetainedFrom(infos, prefix);
      var kept := Retained(infos, prefix);
      forall i | 0 <= i < |kept|
        ensures kept[i].0 < last.0
      {
        RetainedIn(infos, prefix, kept[i]);
        var k :| 0 <= k < |prefix| && prefix[k] == kept[i];
        assert list[k].0 < last.0;
      }
    }
  }

  lemma {:induction false} RetainedHas(infos: map<MarketId, DisputeInfo>, list: LockList, x: (MarketId, Balance))
    requires x in list && Unresolved(infos, x.0)
    ensures x in Retained(infos, list)
  {
    var prefix, last := list[..|list| - 1], list[|list| - 1];
    assert list == prefix + [last];
    if x != last {
      RetainedHas(infos, prefix, x);
    }
  }

  /** Unlocking does not touch the entries of unresolved disputes. */
  lemma {:induction false} RetainedEntry(infos: map<MarketId, DisputeInfo>, list: LockList, m: MarketId)
    requires Ascending(list) && Unresolved(infos, m)
    ensures EntryFor(Retained(infos, list), m) == EntryFor(list, m)
  {
    hide Retained;
    RetainedFrom(infos, list);
    var kept := Retained(infos, list);
    if Get(list, m).Some? {
      GetIn(list, m);
      RetainedHas(infos, list, (m, Get(list, m).value));
      var i :| 0 <= i < |kept| && kept[i] == (m, Get(list, m).value);
      GetAt(kept, i);
    } else if Get(kept, m).Some? {
      GetIn(kept, m);
      RetainedIn(infos, list, (m, Get(kept, m).value));
      var i :| 0 <= i < |list| && list[i] == (m, Get(kept, m).value);
      GetAt(list, i);
      assert false;
    }
  }

  // ---- Steps ----

  ghost predicate KeepsLocks(s: Storage, s': Storage) { s'.locks == s.locks && s'.currencyLocks == s.currencyLocks }

  lemma {:induction false} InfosGrow(cfg: Config, s: Storage, e: Event, s': Storage)
    requires StoreStep(cfg, s, e, s')
    ensures s.infos.Keys <= s'.infos.Keys
    ensures !e.Vote? && !e.Unlock? ==> KeepsLocks(s, s')
  {
    hide AfterVote, AfterAddOutcome, AfterRefund, AfterPurge, AfterReward, StartCall, AfterUnlock, IsBatch, VoteError, AddOutcomeError, DisputeOf, WinnerTaken;
    match e {
      case Start(_, _) => StartGrows(cfg, s, e, s');
      case AddOutcome(who, m, o) => hide StoreStep; AddGrows(cfg, s, who, m, o);
      case Vote(who, m, o, amount) => hide StoreStep; VoteGrows(cfg, s, who, m, o, amount);
      case Refund(m, batch) => hide StoreStep; RefundGrows(cfg, s, m, batch);
      case Purge(m, batch) => hide StoreStep; PurgeGrows(cfg, s, m, batch);
      case Reward(m) => hide StoreStep; RewardGrows(s, m);
      case Unlock(voter) => hide StoreStep; assert AfterUnlock(s, voter).infos == s.infos by { UnlockGrows(s, voter); }
      case _ =>
    }
  }

  lemma {:induction false} AddGrows(cfg: Config, s: Storage, who: AccountId, m: MarketId, o: OutcomeReport)
    requires AddOutcomeError(cfg, s, who, m, o).None?
    ensures s.infos.Keys <= AfterAddOutcome(cfg, s, who, m, o).infos.Keys && KeepsLocks(s, AfterAddOutcome(cfg, s, who, m, o))
  {
    hide Credit, Slash, DisputeOf;
  }

  lemma {:induction false} VoteGrows(cfg: Config, s: Storage, who: AccountId, m: MarketId, o: OutcomeReport, amount: Balance)
    requires VoteError(cfg, s, who, m, o, amount).None?
    ensures s.infos.Keys <= AfterVote(cfg, s, who, m, o, amount).infos.Keys
  {
    hide UpdateWinner, Put, EntryFor;
  }

  lemma {:induction false} RefundGrows(cfg: Config, s: Storage, m: MarketId, batch: seq<OutcomeReport>)
    requires m in s.infos && IsBatch(cfg, DisputeOf(s, m).outcomes, batch)
    ensures s.infos.Keys <= AfterRefund(cfg, s, m, batch).infos.Keys && KeepsLocks(s, AfterRefund(cfg, s, m, batch))
  {
    hide RefundAll, Elements;
  }

  lemma {:induction false} PurgeGrows(cfg: Config, s: Storage, m: MarketId, batch: seq<OutcomeReport>)
    requires m in s.infos && IsBatch(cfg, WinnerTaken(DisputeOf(s, m)).outcomes, batch)
    ensures s.infos.Keys <= AfterPurge(cfg, s, m, batch).infos.Keys && KeepsLocks(s, AfterPurge(cfg, s, m, batch))
  {
    hide Elements;
  }

  lemma {:induction false} RewardGrows(s: Storage, m: MarketId)
    requires m in s.infos
    ensures AfterReward(s, m).infos == s.infos && KeepsLocks(s, AfterReward(s, m))
  {
    hide PayEach, Deposit, Part, Rest;
  }

  lemma {:induction false} UnlockGrows(s: Storage, voter: AccountId)
    ensures AfterUnlock(s, voter).infos == s.infos
  {
    hide Retained, MaxEntry;
  }

  lemma {:induction false} StartGrows(cfg: Config, s: Storage, e: Event, s': Storage)
    requires e.Start? && StoreStep(cfg, s, e, s')
    ensures s.infos.Keys <= s'.infos.Keys && s'.locks == s.locks && s'.currencyLocks == s.currencyLocks
  {
    hide StartItems, DisputeOf;
  }

  lemma {:induction false} VoteVoter(cfg: Config, s: Storage, s': Storage, who: AccountId, m: MarketId, o: OutcomeReport, amount: Balance)
    requires VoterOk(cfg, s, who) && StoreStep(cfg, s, Vote(who, m, o, amount), s')
    ensures VoterOk(cfg, s', who)
  {
    hide Ascending, MaxEntry, Credit, UpdateWinner;
    var list, entry := LocksOf(s, who), SatAdd(amount, EntryFor(LocksOf(s, who), m));
    var list' := Put(list, m, entry);
    assert LocksOf(s', who) == list' && s.infos.Keys <= s'.infos.Keys && m in s'.infos;
    PutAscending(list, m, entry);
    PutLength(list, m, entry);
    MaxEntryPut(list, m, entry);
    forall i | 0 <= i < |list'|
      ensures list'[i].0 in s'.infos
    {
      PutKeys(list, m, entry, i);
    }
  }

  lemma {:induction false} PutKeys(list: LockList, m: MarketId, x: Balance, i: nat)
    requires i < |Put(list, m, x)|
    ensures Put(list, m, x)[i].0 == m || exists k :: 0 <= k < |list| && list[k].0 == Put(list, m, x)[i].0
  {
    var p := Position(list, m);
    if i != p {
      var k := if i < p || Has(list, m) then i else i - 1;
      assert list[k] == Put(list, m, x)[i];
    }
  }

  lemma {:induction false} UnlockVoter(cfg: Config, s: Storage, s': Storage, voter: AccountId)
    requires VoterOk(cfg, s, voter) && s' == AfterUnlock(s, voter)
    ensures VoterOk(cfg, s', voter)
  {
    hide Ascending, MaxEntry, Retained;
    var list := Retained(s.infos, LocksOf(s, voter));
    RetainedFrom(s.infos, LocksOf(s, voter));
    forall i | 0 <= i < |list|
      ensures list[i].0 in s'.infos
    {
      RetainedIn(s.infos, LocksOf(s, voter), list[i]);
    }
  }

  lemma {:induction false} VoterKept(cfg: Config, s: Storage, e: Event, s': Storage, a: AccountId)
    requires VoterOk(cfg, s, a) && StoreStep(cfg, s, e, s')
    ensures VoterOk(cfg, s', a)
  {
    InfosGrow(cfg, s, e, s');
    hide Ascending, MaxEntry;
    if e.Vote? && e.who == a {
      VoteVoter(cfg, s, s', a, e.m, e.o, e.amount);
    } else if e.Unlock? && e.voter == a {
      UnlockVoter(cfg, s, s', a);
    } else {
      assert LocksOf(s', a) == LocksOf(s, a) && CurrencyLockOf(s', a) == CurrencyLockOf(s, a);
    }
  }

  lemma {:induction false} VotedNext(h: History, c: Contribution, a: AccountId)
    ensures Voted(h + [c], a) == Voted(h, a) + if c.source == Ballot(a) then c.amount else 0
  {
    assert (h + [c])[..|h|] == h;
  }

  lemma {:induction false} NobodyVoted(h: History, a: AccountId)
    requires forall i :: 0 <= i < |h| ==> h[i].source.Initial?
    ensures Voted(h, a) == 0
  {
    if h != [] {
      NobodyVoted(h[..|h| - 1], a);
    }
  }

  /** What a vote does to the entries and to the dispute it is about. */
  lemma {:induction false} VoteFacts(cfg: Config, w: World, w': World, e: Event, a: AccountId, m: MarketId)
    requires e.Vote? && VoterOk(cfg, w.s, a) && Step(cfg, w, e, w')
    ensures IsActive(DisputeOf(w.s, e.m)) && e.m in w'.s.infos && e.m in w.s.infos
    ensures EntryFor(LocksOf(w'.s, a), m)
         == if e.who == a && e.m == m then SatAdd(e.amount, EntryFor(LocksOf(w.s, a), m)) else EntryFor(LocksOf(w.s, a), m)
  {
    hide MaxEntry, UpdateWinner, Put, Get;
    if e.who == a {
      var list, entry := LocksOf(w.s, a), SatAdd(e.amount, EntryFor(LocksOf(w.s, a), e.m));
      PutGet(list, e.m, entry, m);
      assert LocksOf(w'.s, a) == Put(list, e.m, entry);
    }
  }

  lemma {:induction false} VoteEntryHere(cfg: Config, w: World, w': World, e: Event, a: AccountId)
    requires e.Vote? && VoterOk(cfg, w.s, a) && EntryOk(w.s, HistoryOf(w, e.m), a, e.m) && Step(cfg, w, e, w')
    ensures EntryOk(w'.s, HistoryOf(w', e.m), a, e.m)
  {
    VoteFacts(cfg, w, w', e, a, e.m);
    hide StoreStep, Voted, EntryFor, DisputeOf, VoterOk;
    VotedNext(HistoryOf(w, e.m), Contribution(e.o, e.amount, Ballot(e.who)), a);
  }

  lemma {:induction false} VoteEntry(cfg: Config, w: World, w': World, e: Event, a: AccountId, m: MarketId)
    requires e.Vote? && VoterOk(cfg, w.s, a) && EntryOk(w.s, HistoryOf(w, m), a, m) && Step(cfg, w, e, w')
    ensures EntryOk(w'.s, HistoryOf(w', m), a, m)
  {
    hide Step, Voted, EntryFor, VoterOk;
    if e.m == m {
      hide EntryOk;
      VoteEntryHere(cfg, w, w', e, a);
    } else {
      VoteFacts(cfg, w, w', e, a, m);
      OthersUntouched(cfg, w, e, w', m);
      OtherInfos(w.s, w'.s, m);
    }
  }

  lemma {:induction false} StartEntry(cfg: Config, w: World, w': World, e: Event, a: AccountId, m: MarketId)
    requires e.Start? && EntryOk(w.s, HistoryOf(w, m), a, m) && Step(cfg, w, e, w')
    requires m !in w.s.infos ==> HistoryOf(w, m) == []
    ensures EntryOk(w'.s, HistoryOf(w', m), a, m)
  {
    InfosGrow(cfg, w.s, e, w'.s);
    hide StoreStep, Voted, DisputeOf;
    if e.m == m {
      StartFresh(cfg, w.s, e, w'.s);
      NobodyVoted(HistoryOf(w', m), a);
    } else {
      OthersUntouched(cfg, w, e, w', m);
      OtherInfos(w.s, w'.s, m);
    }
  }

  lemma {:induction false} OtherInfos(s: Storage, s': Storage, m: MarketId)
    requires DisputeOf(s', m) == DisputeOf(s, m)
    ensures m in s.infos <==> m in s'.infos
  {
  }

  lemma {:induction false} StartFresh(cfg: Config, s: Storage, e: Event, s': Storage)
    requires e.Start? && StoreStep(cfg, s, e, s')
    ensures e.m !in s.infos && e.m in s'.infos
  {
    hide StartItems;
  }

  lemma {:induction false} OtherEntry(cfg: Config, w: World, w': World, e: Event, a: AccountId, m: MarketId)
    requires !e.Start? && !e.Vote? && VoterOk(cfg, w.s, a) && EntryOk(w.s, HistoryOf(w, m), a, m) && Step(cfg, w, e, w')
    ensures EntryOk(w'.s, HistoryOf(w', m), a, m)
  {
    InfosGrow(cfg, w.s, e, w'.s);
    StillActive(cfg, w, e, w', m, a);
    if e.Unlock? && e.voter == a {
      if IsActive(DisputeOf(w.s, m)) {
        RetainedEntry(w.s.infos, LocksOf(w.s, a), m);
      } else if m !in w.s.infos {
        RetainedNone(w.s.infos, LocksOf(w.s, a), m);
      }
    }
  }

  lemma {:induction false} RetainedNone(infos: map<MarketId, DisputeInfo>, list: LockList, m: MarketId)
    requires Ascending(list) && !Unresolved(infos, m)
    ensures EntryFor(Retained(infos, list), m) == 0
  {
    hide Retained;
    RetainedFrom(infos, list);
    var kept := Retained(infos, list);
    if Get(kept, m).Some? {
      GetIn(kept, m);
      RetainedIn(infos, list, (m, Get(kept, m).value));
      assert false;
    }
  }

  /** Nothing but a start makes a dispute active, and the votes in its history stay the same. */
  lemma {:induction false} StillActive(cfg: Config, w: World, e: Event, w': World, m: MarketId, a: AccountId)
    requires !e.Start? && !e.Vote? && Step(cfg, w, e, w')
    ensures IsActive(DisputeOf(w'.s, m)) ==> IsActive(DisputeOf(w.s, m))
    ensures m !in w'.s.infos ==> m !in w.s.infos
    ensures Voted(HistoryOf(w', m), a) == Voted(HistoryOf(w, m), a)
  {
    hide Voted;
    if Concerned(e) != Some(m) {
      OthersUntouched(cfg, w, e, w', m);
    } else if e.AddOutcome? {
      VotedNext(HistoryOf(w, m), Contribution(e.o, cfg.fee, Fee), a);
    }
    InfosGrow(cfg, w.s, e, w'.s);
  }

  lemma {:induction false} EntryKept(cfg: Config, w: World, w': World, e: Event, a: AccountId, m: MarketId)
    requires VoterOk(cfg, w.s, a) && EntryOk(w.s, HistoryOf(w, m), a, m) && Step(cfg, w, e, w')
    requires m !in w.s.infos ==> HistoryOf(w, m) == []
    ensures EntryOk(w'.s, HistoryOf(w', m), a, m)
  {
    hide Step, VoterOk, EntryOk;
    if e.Vote? {
      VoteEntry(cfg, w, w', e, a, m);
    } else if e.Start? {
      StartEntry(cfg, w, w', e, a, m);
    } else {
      OtherEntry(cfg, w, w', e, a, m);
    }
  }
}
