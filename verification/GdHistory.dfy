/** The history of a global dispute, and what the incrementally kept records of the dispute have
    to agree with at any time. */
module GdHistory {
  import opened Numbers
  import opened Ordered
  import opened Ledger
  import opened GlobalDisputes

  datatype Source = Initial | Fee | Ballot(voter: AccountId)

  datatype Contribution = Contribution(outcome: OutcomeReport, amount: Balance, source: Source)

  /** All contributions to the outcomes of one market, in order. */
  type History = seq<Contribution>

  // ---- The winner, recomputed from the whole history ----

  function Contributed(h: History, o: OutcomeReport): nat {
    if h == [] then 0
    else Contributed(h[..|h| - 1], o) + if h[|h| - 1].outcome == o then h[|h| - 1].amount else 0
  }

  /** The sum of an outcome as far as a balance can tell. */
  function Score(h: History, o: OutcomeReport): nat { Min(Contributed(h, o), U128_MAX) }

  /** When the outcome got its last contribution; 0 if it never got one. */
  function LastTouched(h: History, o: OutcomeReport): (t: nat)
    ensures t <= |h|
  {
    if h == [] then 0
    else if h[|h| - 1].outcome == o then |h|
    else LastTouched(h[..|h| - 1], o)
  }

  /** The outcome with the highest sum; of several with the highest sum the last one to reach it. */
  ghost predicate Leads(h: History, w: OutcomeReport) {
    && 0 < LastTouched(h, w)
    && forall o :: o != w && 0 < LastTouched(h, o) ==>
         Score(h, o) < Score(h, w) || (Score(h, o) == Score(h, w) && LastTouched(h, o) < LastTouched(h, w))
  }

  lemma {:induction false} LeaderUnique(h: History, v: OutcomeReport, w: OutcomeReport)
    requires Leads(h, v) && v != w
    ensures !Leads(h, w)
  {
    assert 0 < LastTouched(h, w) ==> Score(h, w) <= Score(h, v);
  }

  lemma {:induction false} HistoryNext(h: History, c: Contribution, o: OutcomeReport)
    ensures Contributed(h + [c], o) == Contributed(h, o) + if c.outcome == o then c.amount else 0
    ensures Score(h + [c], o) == if c.outcome == o then SatAdd(Score(h, o), c.amount) else Score(h, o)
    ensures LastTouched(h + [c], o) == if c.outcome == o then |h| + 1 else LastTouched(h, o)
  {
    assert (h + [c])[..|h|] == h;
  }

  lemma {:induction false} FirstLeads(c: Contribution)
    ensures Leads([c], c.outcome) && Score([c], c.outcome) == c.amount
  {
    assert [c] == [] + [c];
    forall o
      ensures LastTouched([c], o) == if c.outcome == o then 1 else 0
      ensures Score([c], o) == if c.outcome == o then c.amount else 0
    {
      HistoryNext([], c, o);
    }
  }

  /** Comparing with the cached sum alone keeps the leader. */
  lemma {:induction false} LeaderNext(h: History, c: Contribution, w: OutcomeReport)
    requires Leads(h, w)
    ensures if Score(h + [c], c.outcome) >= Score(h, w) then Leads(h + [c], c.outcome)
            else Leads(h + [c], w) && Score(h + [c], w) == Score(h, w)
  {
    forall o
      ensures Score(h + [c], o) == if c.outcome == o then SatAdd(Score(h, o), c.amount) else Score(h, o)
      ensures LastTouched(h + [c], o) == if c.outcome == o then |h| + 1 else LastTouched(h, o)
    {
      HistoryNext(h, c, o);
    }
  }

  // ---- The records of a dispute ----

  /** A shared possession has owners. */
  predicate Owned(p: Possession) { p.Shared? ==> p.owners != [] }

  function FeeIn(oi: OutcomeInfo): nat { if oi.possession.Paid? then oi.possession.fee else 0 }

  function Fees(outcomes: Outcomes): map<OutcomeReport, nat> { map o | o in outcomes :: FeeIn(outcomes[o]) }

  /** The fees of all stored outcomes that were paid for. */
  ghost function FeeSum(outcomes: Outcomes): nat { Total(Fees(outcomes)) }

  /** Every stored outcome has the sum of its history. */
  ghost predicate SumsOk(outcomes: Outcomes, h: History) {
    forall o :: o in outcomes ==> 0 < LastTouched(h, o) && outcomes[o].sum == Score(h, o)
  }

  /** Every outcome of the history is stored. */
  ghost predicate AllStored(outcomes: Outcomes, h: History) {
    forall o :: 0 < LastTouched(h, o) ==> o in outcomes
  }

  /** The cached winner is the leader of the history and the cached sum is its sum. */
  ghost predicate CacheOk(info: DisputeInfo, h: History) {
    Leads(h, info.winner) && info.outcomeInfo.sum == Score(h, info.winner)
  }

  ghost predicate AllOwned(d: Dispute) {
    && (d.info.Some? ==> Owned(d.info.value.outcomeInfo.possession))
    && (forall o :: o in d.outcomes ==> Owned(d.outcomes[o].possession))
  }

  /** Until the dispute is finished, the reward account covers the fees of the stored outcomes. */
  ghost predicate PotOk(d: Dispute) {
    (d.info.Some? ==> !d.info.value.status.Finished?) ==> FeeSum(d.outcomes) <= d.pot
  }

  ghost predicate DisputeOk(d: Dispute, h: History) {
    && (d.info.None? ==> d.outcomes == map[] && h == [])
    && (d.info.Some? ==> CacheOk(d.info.value, h))
    && SumsOk(d.outcomes, h)
    && (IsActive(d) ==> AllStored(d.outcomes, h))
    && AllOwned(d)
    && PotOk(d)
  }

  // ---- One more contribution ----

  lemma {:induction false} UpdateWinnerOk(info: Option<DisputeInfo>, h: History, o: OutcomeReport, oi: OutcomeInfo, c: Contribution)
    requires c.outcome == o && oi.sum == Score(h + [c], o)
    requires if info.None? then h == [] else CacheOk(info.value, h)
    ensures CacheOk(UpdateWinner(info, o, oi), h + [c])
  {
    if info.None? {
      assert h + [c] == [c];
      FirstLeads(c);
    } else {
      hide Leads;
      LeaderNext(h, c, info.value.winner);
    }
  }

  lemma {:induction false} SumsNext(outcomes: Outcomes, h: History, o: OutcomeReport, oi: OutcomeInfo, c: Contribution)
    requires SumsOk(outcomes, h) && AllStored(outcomes, h) && c.outcome == o && oi.sum == Score(h + [c], o)
    ensures SumsOk(outcomes[o := oi], h + [c]) && AllStored(outcomes[o := oi], h + [c])
  {
    forall p
      ensures Score(h + [c], p) == if o == p then SatAdd(Score(h, p), c.amount) else Score(h, p)
      ensures LastTouched(h + [c], p) == if o == p then |h| + 1 else LastTouched(h, p)
    {
      HistoryNext(h, c, p);
    }
  }

  /** The stored sum grows as the history does. */
  lemma {:induction false} StoredSum(outcomes: Outcomes, h: History, c: Contribution)
    requires SumsOk(outcomes, h) && AllStored(outcomes, h)
    ensures Score(h + [c], c.outcome)
         == SatAdd(if c.outcome in outcomes then outcomes[c.outcome].sum else 0, c.amount)
  {
    HistoryNext(h, c, c.outcome);
    if c.outcome !in outcomes {
      Untouched(h, c.outcome);
    }
  }

  lemma {:induction false} Untouched(h: History, o: OutcomeReport)
    requires LastTouched(h, o) == 0
    ensures Contributed(h, o) == 0
  {
    if h != [] {
      Untouched(h[..|h| - 1], o);
    }
  }

  lemma {:induction false} EmptySums(h: History)
    requires h == []
    ensures SumsOk(map[], h) && AllStored(map[], h)
  {
  }

  /** Crediting an outcome of a dispute that is active, or about to start. */
  lemma {:induction false} CreditOk(d: Dispute, h: History, oi: OutcomeInfo, c: Contribution, pot: Balance)
    requires DisputeOk(d, h) && (d.info.None? || IsActive(d))
    requires oi.sum == SatAdd(if c.outcome in d.outcomes then d.outcomes[c.outcome].sum else 0, c.amount)
    requires Owned(oi.possession) && FeeSum(d.outcomes[c.outcome := oi]) <= pot
    ensures DisputeOk(Credit(d.(pot := pot), c.outcome, oi), h + [c])
    ensures IsActive(Credit(d.(pot := pot), c.outcome, oi))
  {
    hide SumsOk, AllStored, CacheOk, FeeSum, Owned;
    if d.info.None? {
      EmptySums(h);
    }
    StoredSum(d.outcomes, h, c);
    UpdateWinnerOk(d.info, h, c.outcome, oi, c);
    SumsNext(d.outcomes, h, c.outcome, oi, c);
    UpdateKeepsActive(d.info, c.outcome, oi);
  }

  lemma {:induction false} UpdateKeepsActive(info: Option<DisputeInfo>, o: OutcomeReport, oi: OutcomeInfo)
    ensures (info.None? || info.value.status.Active?) ==> UpdateWinner(info, o, oi).status.Active?
    ensures Owned(oi.possession) && (info.Some? ==> Owned(info.value.outcomeInfo.possession)) ==>
              Owned(UpdateWinner(info, o, oi).outcomeInfo.possession)
  {
  }

  /** What a new record does to the stored fees. */
  lemma {:induction false} FeeSumUpdate(outcomes: Outcomes, o: OutcomeReport, oi: OutcomeInfo)
    ensures FeeSum(outcomes[o := oi])
         == FeeSum(outcomes) - (if o in outcomes then FeeIn(outcomes[o]) else 0) + FeeIn(oi)
  {
    assert Fees(outcomes[o := oi]) == Fees(outcomes)[o := FeeIn(oi)];
    TotalUpdate(Fees(outcomes), o, FeeIn(oi));
  }

  lemma {:induction false} FeeSumRemove(outcomes: Outcomes, o: OutcomeReport)
    requires o in outcomes
    ensures FeeSum(outcomes) == FeeIn(outcomes[o]) + FeeSum(outcomes - {o})
  {
    assert Fees(outcomes - {o}) == Fees(outcomes) - {o};
    TotalRemove(Fees(outcomes), o);
  }
}
