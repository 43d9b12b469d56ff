/** Runs of the global disputes pallet: what holds after any sequence of calls. */
module GdRuns {
  import opened Numbers
  import opened Ordered
  import opened Ledger
  import opened GlobalDisputes
  import opened GdHistory
  import opened GdSteps
  import opened GdVoters
  import opened GdEscrow

  /** Nobody has voted, nothing is disputed and all reward accounts are empty. */
  ghost predicate InitialWorld(w: World) {
    && w.s.locks == map[] && w.s.outcomes == map[] && w.s.infos == map[] && w.s.currencyLocks == map[]
    && w.s.pots == map[] && w.histories == map[] && Total(w.s.balances) <= U128_MAX
  }

  ghost predicate Run(cfg: Config, ws: seq<World>, es: seq<Event>) {
    && cfg.Valid()
    && |ws| == |es| + 1
    && InitialWorld(ws[0])
    && forall i :: 0 <= i < |es| ==> Step(cfg, ws[i], es[i], ws[i + 1])
  }

  ghost predicate WorldOk(cfg: Config, w: World) {
    && Issued(w.s) <= U128_MAX
    && (forall m: MarketId :: DisputeOk(DisputeOf(w.s, m), HistoryOf(w, m)))
    && (forall a: AccountId :: VoterOk(cfg, w.s, a))
    && (forall a: AccountId, m: MarketId :: EntryOk(w.s, HistoryOf(w, m), a, m))
  }

  lemma {:induction false} InitialOk(cfg: Config, w: World)
    requires InitialWorld(w)
    ensures WorldOk(cfg, w)
  {
    forall m: MarketId
      ensures DisputeOk(DisputeOf(w.s, m), HistoryOf(w, m))
    {
      assert Fees(map[]) == map[];
    }
  }

  lemma {:induction false} IssuedKept(cfg: Config, w: World, e: Event, w': World)
    requires WorldOk(cfg, w) && Step(cfg, w, e, w')
    ensures Issued(w'.s) <= U128_MAX && (e.Elsewhere? || Issued(w'.s) == Issued(w.s))
  {
    hide DisputeOk, VoterOk, EntryOk;
    if e.Elsewhere? {
      assert w'.s.pots == w.s.pots;
    } else {
      hide Step, Issued;
      MoneyKept(cfg, w, e, w', if Concerned(e).Some? then e.m else 0);
    }
  }

  lemma {:induction false} WorldStep(cfg: Config, w: World, e: Event, w': World)
    requires WorldOk(cfg, w) && Step(cfg, w, e, w')
    ensures WorldOk(cfg, w')
  {
    IssuedKept(cfg, w, e, w');
    assert StoreStep(cfg, w.s, e, w'.s);
    hide Step, StoreStep, DisputeOk, VoterOk, EntryOk, Issued;
    forall m: MarketId
      ensures DisputeOk(DisputeOf(w'.s, m), HistoryOf(w', m))
    {
      DisputeKept(cfg, w, e, w', m);
    }
    forall a: AccountId
      ensures VoterOk(cfg, w'.s, a)
    {
      VoterKept(cfg, w.s, e, w'.s, a);
    }
    forall a: AccountId, m: MarketId
      ensures EntryOk(w'.s, HistoryOf(w', m), a, m)
    {
      EntryStep(cfg, w, e, w', a, m);
    }
  }

  lemma {:induction false} EntryStep(cfg: Config, w: World, e: Event, w': World, a: AccountId, m: MarketId)
    requires WorldOk(cfg, w) && Step(cfg, w, e, w')
    ensures EntryOk(w'.s, HistoryOf(w', m), a, m)
  {
    hide Step, VoterOk, EntryOk, Issued, CacheOk, SumsOk, AllStored, PotOk, AllOwned;
    assert DisputeOk(DisputeOf(w.s, m), HistoryOf(w, m));
    EntryKept(cfg, w, w', e, a, m);
  }

  /** Every reachable state is in order. */
  lemma {:induction false} RunTheorem(cfg: Config, ws: seq<World>, es: seq<Event>, i: nat)
    requires Run(cfg, ws, es) && i < |ws|
    ensures WorldOk(cfg, ws[i])
  {
    hide Step, WorldOk;
    if i == 0 {
      InitialOk(cfg, ws[0]);
    } else {
      RunTheorem(cfg, ws, es, i - 1);
      assert Step(cfg, ws[i - 1], es[i - 1], ws[i]);
      WorldStep(cfg, ws[i - 1], es[i - 1], ws[i]);
    }
  }

  // ---- The winner ----

  /** The cached winner is the leader of all contributions so far, whatever the status. While the
      dispute is active the cached sum is the largest of all stored sums and the winner has it. */
  lemma {:induction false} WinnerTheorem(cfg: Config, ws: seq<World>, es: seq<Event>, i: nat, m: MarketId)
    requires Run(cfg, ws, es) && i < |ws| && m in ws[i].s.infos
    ensures Leads(HistoryOf(ws[i], m), ws[i].s.infos[m].winner)
    ensures ws[i].s.infos[m].outcomeInfo.sum == Score(HistoryOf(ws[i], m), ws[i].s.infos[m].winner)
    ensures ws[i].s.infos[m].status.Active? ==>
              var info, outcomes := ws[i].s.infos[m], DisputeOf(ws[i].s, m).outcomes;
              && info.winner in outcomes && outcomes[info.winner].sum == info.outcomeInfo.sum
              && forall o :: o in outcomes ==> outcomes[o].sum <= info.outcomeInfo.sum
  {
    hide Step;
    RunTheorem(cfg, ws, es, i);
    assert DisputeOk(DisputeOf(ws[i].s, m), HistoryOf(ws[i], m));
    hide VoterOk, EntryOk, Issued, PotOk, AllOwned;
    var h, info, outcomes := HistoryOf(ws[i], m), ws[i].s.infos[m], DisputeOf(ws[i].s, m).outcomes;
    if info.status.Active? {
      forall o | o in outcomes
        ensures outcomes[o].sum <= info.outcomeInfo.sum
      {
        assert 0 < LastTouched(h, o);
      }
    }
  }

  // ---- The locks ----

  /** The tokens behind every unresolved dispute are locked: lists are strictly sorted, the
      currency lock is the largest entry and covers every one of them. */
  lemma {:induction false} LockTheorem(cfg: Config, ws: seq<World>, es: seq<Event>, i: nat, a: AccountId, m: MarketId)
    requires Run(cfg, ws, es) && i < |ws|
    ensures Ascending(LocksOf(ws[i].s, a))
    ensures CurrencyLockOf(ws[i].s, a) == MaxEntry(LocksOf(ws[i].s, a))
    ensures IsActive(DisputeOf(ws[i].s, m)) ==>
              Min(Voted(HistoryOf(ws[i], m), a), U128_MAX) == EntryFor(LocksOf(ws[i].s, a), m) <= CurrencyLockOf(ws[i].s, a)
  {
    hide Step, DisputeOk, Issued;
    RunTheorem(cfg, ws, es, i);
    assert VoterOk(cfg, ws[i].s, a) && EntryOk(ws[i].s, HistoryOf(ws[i], m), a, m);
    EntryWithin(LocksOf(ws[i].s, a), m);
  }

  lemma {:induction false} VotedGrows(h: History, more: History, a: AccountId)
    ensures Voted(h, a) <= Voted(h + more, a)
  {
    if more == [] {
      assert h + more == h;
    } else {
      VotedGrows(h, more[..|more| - 1], a);
      assert (h + more)[..|h + more| - 1] == h + more[..|more| - 1];
    }
  }

  lemma {:induction false} HistoryGrows(cfg: Config, w: World, e: Event, w': World, a: AccountId, m: MarketId)
    requires Step(cfg, w, e, w')
    ensures Voted(HistoryOf(w, m), a) <= Voted(HistoryOf(w', m), a)
  {
    hide StoreStep, Voted, Added;
    VotedGrows(HistoryOf(w, m), Added(cfg, e), a);
  }

  lemma {:induction false} VotesStay(cfg: Config, ws: seq<World>, es: seq<Event>, i: nat, j: nat, a: AccountId, m: MarketId)
    requires Run(cfg, ws, es) && i <= j < |ws|
    ensures Voted(HistoryOf(ws[i], m), a) <= Voted(HistoryOf(ws[j], m), a)
    decreases j
  {
    hide Step, Voted;
    if i < j {
      VotesStay(cfg, ws, es, i, j - 1, a, m);
      assert Step(cfg, ws[j - 1], es[j - 1], ws[j]);
      HistoryGrows(cfg, ws[j - 1], es[j - 1], ws[j], a, m);
    }
  }

  /** What a voter has put on a dispute stays locked for as long as the dispute is active. */
  lemma {:induction false} NeverReleased(cfg: Config, ws: seq<World>, es: seq<Event>, i: nat, j: nat, a: AccountId, m: MarketId)
    requires Run(cfg, ws, es) && i <= j < |ws|
    requires IsActive(DisputeOf(ws[i].s, m)) && IsActive(DisputeOf(ws[j].s, m))
    ensures EntryFor(LocksOf(ws[i].s, a), m) <= CurrencyLockOf(ws[j].s, a)
  {
    hide Step, Voted, DisputeOf;
    LockTheorem(cfg, ws, es, i, a, m);
    LockTheorem(cfg, ws, es, j, a, m);
    VotesStay(cfg, ws, es, i, j, a, m);
  }

  // ---- What the sums consist of ----

  function AmountOf(h: History): nat { if h == [] then 0 else AmountOf(h[..|h| - 1]) + h[|h| - 1].amount }

  function InitialAmount(h: History): nat {
    if h == [] then 0 else InitialAmount(h[..|h| - 1]) + if h[|h| - 1].source.Initial? then h[|h| - 1].amount else 0
  }

  function FeeAmount(h: History): nat {
    if h == [] then 0 else FeeAmount(h[..|h| - 1]) + if h[|h| - 1].source.Fee? then h[|h| - 1].amount else 0
  }

  ghost function Contributions(keys: set<OutcomeReport>, h: History): map<OutcomeReport, nat> {
    map o | o in keys :: Contributed(h, o)
  }

  ghost function Votes(voters: set<AccountId>, h: History): map<AccountId, nat> { map a | a in voters :: Voted(h, a) }

  function Sums(outcomes: Outcomes): map<OutcomeReport, nat> { map o | o in outcomes :: outcomes[o].sum as nat }

  function Entries(locks: map<AccountId, LockList>, m: MarketId): map<AccountId, nat> {
    map a | a in locks :: EntryFor(locks[a], m) as nat
  }

  lemma {:induction false} AllZero<K>(l: map<K, nat>)
    requires forall k :: k in l ==> l[k] == 0
    ensures Total(l) == 0
    decreases |l|
  {
    if l != map[] {
      var k :| k in l;
      TotalRemove(l, k);
      AllZero(l - {k});
    }
  }

  /** Adding the contributions up outcome by outcome, or one after the other. */
  lemma {:induction false} TotalContributed(keys: set<OutcomeReport>, h: History)
    requires forall o :: 0 < LastTouched(h, o) ==> o in keys
    ensures Total(Contributions(keys, h)) == AmountOf(h)
  {
    if h == [] {
      AllZero(Contributions(keys, h));
    } else {
      var before, c := h[..|h| - 1], h[|h| - 1];
      assert 0 < LastTouched(h, c.outcome);
      forall o | 0 < LastTouched(before, o)
        ensures o in keys
      {
        assert 0 < LastTouched(h, o);
      }
      TotalContributed(keys, before);
      TotalUpdate(Contributions(keys, before), c.outcome, Contributed(h, c.outcome));
      assert Contributions(keys, h) == Contributions(keys, before)[c.outcome := Contributed(h, c.outcome)];
    }
  }

  lemma {:induction false} TotalVoted(voters: set<AccountId>, h: History)
    requires forall a: AccountId :: 0 < Voted(h, a) ==> a in voters
    ensures Total(Votes(voters, h)) + InitialAmount(h) + FeeAmount(h) == AmountOf(h)
  {
    if h == [] {
      AllZero(Votes(voters, h));
    } else {
      var before, c := h[..|h| - 1], h[|h| - 1];
      forall a: AccountId | 0 < Voted(before, a)
        ensures a in voters
      {
        assert 0 < Voted(h, a);
      }
      TotalVoted(voters, before);
      if c.source.Ballot? {
        var a := c.source.voter;
        if a in voters {
          TotalUpdate(Votes(voters, before), a, Voted(h, a));
          assert Votes(voters, h) == Votes(voters, before)[a := Voted(h, a)];
        } else {
          assert Voted(h, a) == 0;
          assert Votes(voters, h) == Votes(voters, before);
        }
      } else {
        assert Votes(voters, h) == Votes(voters, before);
      }
    }
  }

  lemma {:induction false} ContributedWithin(h: History, o: OutcomeReport)
    ensures Contributed(h, o) <= AmountOf(h)
  {
    if h != [] {
      ContributedWithin(h[..|h| - 1], o);
    }
  }

  lemma {:induction false} VotedWithin(h: History, a: AccountId)
    ensures Voted(h, a) <= AmountOf(h)
  {
    if h != [] {
      VotedWithin(h[..|h| - 1], a);
    }
  }

  lemma {:induction false} SumsAreContributions(outcomes: Outcomes, h: History)
    requires SumsOk(outcomes, h) && AllStored(outcomes, h) && AmountOf(h) <= U128_MAX
    ensures Total(Sums(outcomes)) == AmountOf(h)
  {
    hide AmountOf;
    forall o | o in outcomes
      ensures outcomes[o].sum == Contributed(h, o)
    {
      ContributedWithin(h, o);
    }
    assert Sums(outcomes) == Contributions(outcomes.Keys, h);
    TotalContributed(outcomes.Keys, h);
  }

  lemma {:induction false} EntriesAreVotes(cfg: Config, w: World, m: MarketId)
    requires WorldOk(cfg, w) && IsActive(DisputeOf(w.s, m)) && AmountOf(HistoryOf(w, m)) <= U128_MAX
    ensures Total(Entries(w.s.locks, m)) + InitialAmount(HistoryOf(w, m)) + FeeAmount(HistoryOf(w, m))
         == AmountOf(HistoryOf(w, m))
  {
    hide AmountOf, InitialAmount, FeeAmount, DisputeOk, VoterOk, Issued, DisputeOf, HistoryOf;
    var h := HistoryOf(w, m);
    forall a: AccountId
      ensures EntryFor(LocksOf(w.s, a), m) == Voted(h, a)
    {
      assert EntryOk(w.s, h, a, m);
      VotedWithin(h, a);
    }
    assert Entries(w.s.locks, m) == Votes(w.s.locks.Keys, h) by {
      forall a | a in w.s.locks
        ensures EntryFor(w.s.locks[a], m) == Voted(h, a)
      {
        assert EntryFor(LocksOf(w.s, a), m) == Voted(h, a);
      }
    }
    forall a: AccountId | 0 < Voted(h, a)
      ensures a in w.s.locks
    {
      assert EntryFor(LocksOf(w.s, a), m) == Voted(h, a);
    }
    TotalVoted(w.s.locks.Keys, h);
  }

  /** As long as all contributions together fit a balance, the sums of an active dispute's outcomes
      are the initial amounts, the fees of added outcomes and all voters' entries for it. */
  lemma {:induction false} SumTheorem(cfg: Config, ws: seq<World>, es: seq<Event>, i: nat, m: MarketId)
    requires Run(cfg, ws, es) && i < |ws| && IsActive(DisputeOf(ws[i].s, m))
    requires AmountOf(HistoryOf(ws[i], m)) <= U128_MAX
    ensures Total(Sums(DisputeOf(ws[i].s, m).outcomes))
         == InitialAmount(HistoryOf(ws[i], m)) + FeeAmount(HistoryOf(ws[i], m)) + Total(Entries(ws[i].s.locks, m))
  {
    hide Step, AmountOf, InitialAmount, FeeAmount;
    RunTheorem(cfg, ws, es, i);
    EntriesAreVotes(cfg, ws[i], m);
    hide VoterOk, EntryOk, Issued, PotOk, AllOwned, CacheOk, SumsOk, AllStored;
    assert DisputeOk(DisputeOf(ws[i].s, m), HistoryOf(ws[i], m));
    SumsAreContributions(DisputeOf(ws[i].s, m).outcomes, HistoryOf(ws[i], m));
  }
}
