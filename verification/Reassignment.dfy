/** Reassigning the stakes of a court: jurors who did not reveal the winning item, and whoever
    delegated to them, pay those who did. */
module Reassignment {
  import opened Numbers
  import opened Ordered
  import opened CourtTypes
  import opened JurySelection
  import opened JuryDraws
  import opened Ledger
  import opened Payouts

  // ---- Who backs whom ----

  datatype SelfInfo = SelfInfo(slashable: Balance, item: VoteItem)

  /** A juror's own vote, if it was revealed, and the stakes delegated to the juror. */
  datatype JurorVote = JurorVote(juror: AccountId, self: Option<SelfInfo>, delegations: Stakes)

  type JurorVotes = seq<(AccountId, JurorVote)>

  function EntryOf(votes: JurorVotes, j: AccountId): JurorVote {
    match Get(votes, j)
    case Some(v) => v
    case None => JurorVote(j, None, [])
  }

  function AddSelf(votes: JurorVotes, j: AccountId, info: SelfInfo): JurorVotes {
    Put(votes, j, EntryOf(votes, j).(self := Some(info)))
  }

  function StakeAt(stakes: Stakes, a: AccountId): Balance {
    match Get(stakes, a)
    case Some(x) => x
    case None => 0
  }

  function AddDelegation(votes: JurorVotes, j: AccountId, delegator: AccountId, x: Balance): JurorVotes {
    var e := EntryOf(votes, j);
    Put(votes, j, e.(delegations := Put(e.delegations, delegator, SatAdd(StakeAt(e.delegations, delegator), x))))
  }

  function AddDelegations(votes: JurorVotes, stakes: Stakes, delegator: AccountId): JurorVotes {
    if stakes == [] then votes
    else
      var last := stakes[|stakes| - 1];
      AddDelegation(AddDelegations(votes, stakes[..|stakes| - 1], delegator), last.0, delegator, last.1)
  }

  predicate IsTardy(d: Draw) { d.vote.Drawn? || d.vote.Secret? || d.vote.Denounced? }

  function AddDraw(votes: JurorVotes, d: Draw): JurorVotes {
    match d.vote
    case Revealed(_, item, _) => AddSelf(votes, d.participant, SelfInfo(d.slashable, item))
    case Delegated(stakes) => AddDelegations(votes, stakes, d.participant)
    case _ => votes
  }

  /** The revealed votes and delegations of the first `n` draws, by juror. */
  function Collect(draws: seq<Draw>, n: nat): JurorVotes
    requires n <= |draws|
  {
    if n == 0 then [] else AddDraw(Collect(draws, n - 1), draws[n - 1])
  }

  ghost predicate VotesOk(votes: JurorVotes) {
    && Ascending(votes)
    && forall i :: 0 <= i < |votes| ==> votes[i].1.juror == votes[i].0 && Ascending(votes[i].1.delegations)
  }

  lemma {:induction false} PutVotesOk(votes: JurorVotes, j: AccountId, v: JurorVote)
    requires VotesOk(votes) && v.juror == j && Ascending(v.delegations)
    ensures VotesOk(Put(votes, j, v))
  {
    PutAscending(votes, j, v);
  }

  lemma {:induction false} EntryOk(votes: JurorVotes, j: AccountId)
    requires VotesOk(votes)
    ensures EntryOf(votes, j).juror == j && Ascending(EntryOf(votes, j).delegations)
  {
  }

  // ---- Measuring stakes ----

  /** The juror revealed the winning item. */
  ghost predicate WinningJuror(draws: seq<Draw>, w: VoteItem, j: AccountId) {
    exists i :: 0 <= i < |draws| && draws[i].participant == j && draws[i].vote.Revealed? && draws[i].vote.item == w
  }

  /** Which stakes to add up: those behind winning or behind other jurors, of everybody or of one account. */
  datatype Kind = Kind(winning: Option<bool>, who: Option<AccountId>)

  ghost predicate Picks(draws: seq<Draw>, w: VoteItem, k: Kind, j: AccountId) {
    k.winning.None? || WinningJuror(draws, w, j) == k.winning.value
  }

  predicate Concerns(k: Kind, a: AccountId) { k.who.None? || k.who.value == a }

  /** The stakes of an entry. */
  ghost function PartIn(v: JurorVote, k: Kind): nat {
    (if v.self.Some? && Concerns(k, v.juror) then v.self.value.slashable else 0)
    + (if k.who.Some? then StakeAt(v.delegations, k.who.value) else Sum(v.delegations, Id))
  }

  ghost function Measure(draws: seq<Draw>, w: VoteItem, k: Kind): JurorVote -> nat {
    (v: JurorVote) => if Picks(draws, w, k, v.juror) then PartIn(v, k) else 0
  }

  /** The same stakes, read off the draws. */
  ghost function StakesPart(draws: seq<Draw>, w: VoteItem, k: Kind, stakes: Stakes): nat {
    if stakes == [] then 0
    else StakesPart(draws, w, k, stakes[..|stakes| - 1])
         + if Picks(draws, w, k, stakes[|stakes| - 1].0) then stakes[|stakes| - 1].1 else 0
  }

  ghost function DrawPart(draws: seq<Draw>, w: VoteItem, k: Kind, d: Draw): nat {
    if !Concerns(k, d.participant) then 0
    else match d.vote
      case Revealed(_, _, _) => if Picks(draws, w, k, d.participant) then d.slashable else 0
      case Delegated(stakes) => StakesPart(draws, w, k, stakes)
      case _ => 0
  }

  ghost function PartsTo(draws: seq<Draw>, n: nat, w: VoteItem, k: Kind): nat
    requires n <= |draws|
  {
    if n == 0 then 0 else PartsTo(draws, n - 1, w, k) + DrawPart(draws, w, k, draws[n - 1])
  }

  const ALL := Kind(None, None)

  lemma {:induction false} AddSelfMeasure(draws: seq<Draw>, w: VoteItem, k: Kind, votes: JurorVotes, j: AccountId, info: SelfInfo)
    requires VotesOk(votes) && EntryOf(votes, j).self.None?
    ensures VotesOk(AddSelf(votes, j, info))
    ensures Sum(AddSelf(votes, j, info), Measure(draws, w, k)) == Sum(votes, Measure(draws, w, k))
            + if Picks(draws, w, k, j) && Concerns(k, j) then info.slashable else 0
  {
    EntryOk(votes, j);
    var v := EntryOf(votes, j).(self := Some(info));
    PutVotesOk(votes, j, v);
    PutSum(votes, j, v, Measure(draws, w, k));
  }

  lemma {:induction false} AddDelegationMeasure(draws: seq<Draw>, w: VoteItem, k: Kind, votes: JurorVotes,
                                                j: AccountId, delegator: AccountId, x: Balance)
    requires VotesOk(votes) && StakeAt(EntryOf(votes, j).delegations, delegator) + x <= U128_MAX
    ensures VotesOk(AddDelegation(votes, j, delegator, x))
    ensures Sum(AddDelegation(votes, j, delegator, x), Measure(draws, w, k)) == Sum(votes, Measure(draws, w, k))
            + if Picks(draws, w, k, j) && Concerns(k, delegator) then x else 0
  {
    hide Put, VotesOk;
    EntryOk(votes, j);
    var e := EntryOf(votes, j);
    var v := Backed(e, delegator, x);
    BackedPart(e, delegator, x, k);
    PutVotesOk(votes, j, v);
    EntryPut(votes, j, v, Measure(draws, w, k));
    assert AddDelegation(votes, j, delegator, x) == Put(votes, j, v);
  }

  /** An entry with one more delegated stake. */
  function Backed(e: JurorVote, delegator: AccountId, x: Balance): JurorVote {
    e.(delegations := Put(e.delegations, delegator, SatAdd(StakeAt(e.delegations, delegator), x)))
  }

  lemma {:induction false} BackedPart(e: JurorVote, delegator: AccountId, x: Balance, k: Kind)
    requires Ascending(e.delegations) && StakeAt(e.delegations, delegator) + x <= U128_MAX
    ensures Ascending(Backed(e, delegator, x).delegations)
    ensures PartIn(Backed(e, delegator, x), k) == PartIn(e, k) + if Concerns(k, delegator) then x else 0
  {
    hide Put, Get, Sum, Ascending;
    var y: Balance := StakeAt(e.delegations, delegator) + x;
    PutAscending(e.delegations, delegator, y);
    PutSum<Balance>(e.delegations, delegator, y, Id);
    if k.who.Some? {
      PutGet(e.delegations, delegator, y, k.who.value);
    }
  }

  /** Replacing an entry of a measure that is zero on empty entries. */
  lemma {:induction false} EntryPut(votes: JurorVotes, j: AccountId, v: JurorVote, f: JurorVote -> nat)
    requires f(JurorVote(j, None, [])) == 0
    ensures Sum(Put(votes, j, v), f) == Sum(votes, f) - f(EntryOf(votes, j)) + f(v)
  {
    PutSum(votes, j, v, f);
  }

  /** A single stake is part of all stakes. */
  lemma {:induction false} StakeWithinAll(draws: seq<Draw>, w: VoteItem, votes: JurorVotes, j: AccountId, delegator: AccountId)
    requires VotesOk(votes)
    ensures StakeAt(EntryOf(votes, j).delegations, delegator) <= Sum(votes, Measure(draws, w, ALL))
  {
    if Get(votes, j).Some? && Get(EntryOf(votes, j).delegations, delegator).Some? {
      SumContains(votes, j, Measure(draws, w, ALL));
      SumContains<Balance>(EntryOf(votes, j).delegations, delegator, Id);
    }
  }

  lemma {:induction false} SumContains<V>(s: seq<(nat, V)>, k: nat, f: V -> nat)
    requires Get(s, k).Some?
    ensures f(Get(s, k).value) <= Sum(s, f)
  {
    var i := Position(s, k);
    assert s == s[..i] + [s[i]] + s[i + 1..];
    SumConcat(s[..i] + [s[i]], s[i + 1..], f);
    SumConcat(s[..i], [s[i]], f);
  }

  lemma {:induction false} AddDelegationsMeasure(draws: seq<Draw>, w: VoteItem, k: Kind, votes: JurorVotes,
                                                 stakes: Stakes, delegator: AccountId)
    requires VotesOk(votes)
    requires Sum(votes, Measure(draws, w, ALL)) + StakesPart(draws, w, ALL, stakes) <= U128_MAX
    ensures VotesOk(AddDelegations(votes, stakes, delegator))
    ensures Sum(AddDelegations(votes, stakes, delegator), Measure(draws, w, k)) == Sum(votes, Measure(draws, w, k))
            + if Concerns(k, delegator) then StakesPart(draws, w, k, stakes) else 0
    ensures Sum(AddDelegations(votes, stakes, delegator), Measure(draws, w, ALL))
            == Sum(votes, Measure(draws, w, ALL)) + StakesPart(draws, w, ALL, stakes)
  {
    if stakes != [] {
      var prefix, last := stakes[..|stakes| - 1], stakes[|stakes| - 1];
      AddDelegationsMeasure(draws, w, k, votes, prefix, delegator);
      var mid := AddDelegations(votes, prefix, delegator);
      StakeWithinAll(draws, w, mid, last.0, delegator);
      AddDelegationMeasure(draws, w, k, mid, last.0, delegator, last.1);
      AddDelegationMeasure(draws, w, ALL, mid, last.0, delegator, last.1);
    }
  }

  // ---- Collecting the draws ----

  /** Whose own vote was collected: exactly the jurors among the first `n` draws who revealed. */
  ghost predicate SelfsOf(votes: JurorVotes, draws: seq<Draw>, n: nat)
    requires n <= |draws|
  {
    && (forall j: AccountId :: EntryOf(votes, j).self.Some? ==>
          exists i :: 0 <= i < n && draws[i].participant == j && draws[i].vote.Revealed?)
    && (forall i :: 0 <= i < n && draws[i].vote.Revealed? ==>
          EntryOf(votes, draws[i].participant).self == Some(SelfInfo(draws[i].slashable, draws[i].vote.item)))
  }

  lemma {:induction false} AddDelegationsSelf(votes: JurorVotes, stakes: Stakes, delegator: AccountId, j: AccountId)
    requires Ascending(votes)
    ensures Ascending(AddDelegations(votes, stakes, delegator))
    ensures EntryOf(AddDelegations(votes, stakes, delegator), j).self == EntryOf(votes, j).self
  {
    if stakes != [] {
      var prefix, last := stakes[..|stakes| - 1], stakes[|stakes| - 1];
      AddDelegationsSelf(votes, prefix, delegator, j);
      AddDelegationsSelf(votes, prefix, delegator, last.0);
      var mid := AddDelegations(votes, prefix, delegator);
      var v := Backed(EntryOf(mid, last.0), delegator, last.1);
      PutAscending(mid, last.0, v);
      PutGet(mid, last.0, v, j);
    }
  }

  lemma {:induction false} AddSelfEntry(votes: JurorVotes, d: Draw, j: AccountId)
    requires Ascending(votes) && d.vote.Revealed?
    ensures Ascending(AddDraw(votes, d))
    ensures EntryOf(AddDraw(votes, d), j).self
         == if j == d.participant then Some(SelfInfo(d.slashable, d.vote.item)) else EntryOf(votes, j).self
  {
    var v := EntryOf(votes, d.participant).(self := Some(SelfInfo(d.slashable, d.vote.item)));
    PutAscending(votes, d.participant, v);
    PutGet(votes, d.participant, v, j);
  }

  lemma {:induction false} CollectSelfs(draws: seq<Draw>, n: nat)
    requires DrawsSorted(draws) && n <= |draws|
    ensures Ascending(Collect(draws, n)) && SelfsOf(Collect(draws, n), draws, n)
  {
    hide Ascending, EntryOf, AddDraw;
    if n > 0 {
      CollectSelfs(draws, n - 1);
      var votes, d := Collect(draws, n - 1), draws[n - 1];
      forall j: AccountId
        ensures Ascending(AddDraw(votes, d))
        ensures EntryOf(AddDraw(votes, d), j).self
             == if j == d.participant && d.vote.Revealed? then Some(SelfInfo(d.slashable, d.vote.item))
                else EntryOf(votes, j).self
      {
        AddDrawSelf(votes, d, j);
      }
      AddDrawSelf(votes, d, 0);
    } else {
      EmptySelfs(draws);
    }
  }

  lemma {:induction false} EmptySelfs(draws: seq<Draw>)
    ensures Ascending(Collect(draws, 0)) && SelfsOf(Collect(draws, 0), draws, 0)
  {
  }

  lemma {:induction false} AddDrawSelf(votes: JurorVotes, d: Draw, j: AccountId)
    requires Ascending(votes)
    ensures Ascending(AddDraw(votes, d))
    ensures EntryOf(AddDraw(votes, d), j).self
         == if j == d.participant && d.vote.Revealed? then Some(SelfInfo(d.slashable, d.vote.item))
            else EntryOf(votes, j).self
  {
    match d.vote
    case Revealed(_, _, _) => AddSelfEntry(votes, d, j);
    case Delegated(stakes) => AddDelegationsSelf(votes, stakes, d.participant, j);
    case _ =>
  }

  lemma {:induction false} AddDrawMeasure(draws: seq<Draw>, w: VoteItem, k: Kind, votes: JurorVotes, d: Draw)
    requires VotesOk(votes) && (d.vote.Revealed? ==> EntryOf(votes, d.participant).self.None?)
    requires Sum(votes, Measure(draws, w, ALL)) + DrawPart(draws, w, ALL, d) <= U128_MAX
    ensures VotesOk(AddDraw(votes, d))
    ensures Sum(AddDraw(votes, d), Measure(draws, w, k))
         == Sum(votes, Measure(draws, w, k)) + DrawPart(draws, w, k, d)
  {
    hide VotesOk, Sum, Measure, EntryOf, AddSelf, AddDelegations;
    match d.vote
    case Revealed(_, item, _) => AddSelfMeasure(draws, w, k, votes, d.participant, SelfInfo(d.slashable, item));
    case Delegated(stakes) => AddDelegationsMeasure(draws, w, k, votes, stakes, d.participant);
    case _ =>
  }

  /** The collected stakes are the stakes of the draws, however they are picked. */
  lemma {:induction false} CollectMeasure(cfg: Config, draws: seq<Draw>, n: nat, w: VoteItem, k: Kind)
    requires DrawsOk(cfg, draws) && n <= |draws|
    ensures VotesOk(Collect(draws, n))
    ensures Sum(Collect(draws, n), Measure(draws, w, k)) == PartsTo(draws, n, w, k)
    ensures Sum(Collect(draws, n), Measure(draws, w, ALL)) == PartsTo(draws, n, w, ALL)
  {
    hide VotesOk, Measure, EntryOf, AddDraw, DrawPart;
    if n > 0 {
      CollectMeasure(cfg, draws, n - 1, w, k);
      NoSelfYet(draws, n - 1);
      PartsWithinSlashable(cfg, draws, n, w, ALL);
      AddDrawMeasure(draws, w, k, Collect(draws, n - 1), draws[n - 1]);
      AddDrawMeasure(draws, w, ALL, Collect(draws, n - 1), draws[n - 1]);
    } else {
      EmptyVotesOk();
    }
  }

  lemma {:induction false} EmptyVotesOk()
    ensures VotesOk([])
  {
  }

  lemma {:induction false} NoSelfYet(draws: seq<Draw>, n: nat)
    requires DrawsSorted(draws) && n < |draws|
    ensures EntryOf(Collect(draws, n), draws[n].participant).self.None?
  {
    CollectSelfs(draws, n);
  }

  lemma {:induction false} SlashableGrows(draws: seq<Draw>, n: nat, m: nat)
    requires n <= m <= |draws|
    ensures TotalSlashable(draws[..n]) <= TotalSlashable(draws[..m])
    decreases m
  {
    if n < m {
      SlashableGrows(draws, n, m - 1);
      assert draws[..m][..m - 1] == draws[..m - 1];
    }
    assert draws[..|draws|] == draws;
  }

  /** What one draw contributes is at most what it has at risk; everything is, unless it is tardy. */
  lemma {:induction false} DrawPartWithin(cfg: Config, draws: seq<Draw>, w: VoteItem, k: Kind, d: Draw)
    requires DrawShape(cfg, d)
    ensures DrawPart(draws, w, k, d) <= d.slashable
    ensures k == ALL && !IsTardy(d) ==> DrawPart(draws, w, k, d) == d.slashable
  {
    if d.vote.Delegated? {
      StakesPartWithin(draws, w, k, d.vote.stakes);
    }
  }

  lemma {:induction false} StakesPartWithin(draws: seq<Draw>, w: VoteItem, k: Kind, stakes: Stakes)
    ensures StakesPart(draws, w, k, stakes) <= Sum(stakes, Id)
    ensures k.winning.None? ==> StakesPart(draws, w, k, stakes) == Sum(stakes, Id)
  {
    if stakes != [] {
      var prefix, last := stakes[..|stakes| - 1], stakes[|stakes| - 1];
      StakesPartWithin(draws, w, k, prefix);
      assert stakes == prefix + [last];
      SumConcat<Balance>(prefix, [last], Id);
    }
  }

  lemma {:induction false} PartsWithinSlashable(cfg: Config, draws: seq<Draw>, n: nat, w: VoteItem, k: Kind)
    requires DrawsOk(cfg, draws) && n <= |draws|
    ensures PartsTo(draws, n, w, k) <= TotalSlashable(draws[..n]) <= U128_MAX
  {
    SlashableGrows(draws, n, |draws|);
    assert draws[..|draws|] == draws;
    if n > 0 {
      PartsWithinSlashable(cfg, draws, n - 1, w, k);
      assert draws[..n][..n - 1] == draws[..n - 1];
      DrawPartWithin(cfg, draws, w, k, draws[n - 1]);
    }
  }

  // ---- Lists of stakes ----

  lemma {:induction false} ListConcat(list: Stakes, more: Stakes, a: AccountId)
    ensures ListSum(list + more) == ListSum(list) + ListSum(more)
    ensures ListFor(list + more, a) == ListFor(list, a) + ListFor(more, a)
  {
    if more == [] {
      assert list + more == list;
    } else {
      ListConcat(list, more[..|more| - 1], a);
      assert (list + more)[..|list + more| - 1] == list + more[..|more| - 1];
    }
  }

  lemma {:induction false} ListSumOfStakes(stakes: Stakes)
    ensures ListSum(stakes) == Sum(stakes, Id)
  {
    if stakes != [] {
      var prefix, last := stakes[..|stakes| - 1], stakes[|stakes| - 1];
      ListSumOfStakes(prefix);
      assert stakes == prefix + [last];
      SumConcat<Balance>(prefix, [last], Id);
    }
  }

  /** In ascending stakes, what the list holds for an account is its entry. */
  lemma {:induction false} ListForOfStakes(stakes: Stakes, a: AccountId)
    requires Ascending(stakes)
    ensures ListFor(stakes, a) == StakeAt(stakes, a)
  {
    if stakes != [] {
      hide StakeAt;
      ListForOfStakes(stakes[..|stakes| - 1], a);
      LastStake(stakes, a);
    }
  }

  lemma {:induction false} LastStake(stakes: Stakes, a: AccountId)
    requires Ascending(stakes) && stakes != []
    ensures StakeAt(stakes, a) == StakeAt(stakes[..|stakes| - 1], a)
            + if stakes[|stakes| - 1].0 == a then stakes[|stakes| - 1].1 else 0
  {
    var prefix := stakes[..|stakes| - 1];
    var p := Position(prefix, a);
    assert Position(stakes, a) == p || p == |prefix|;
    if p < |prefix| {
      assert stakes[p] == prefix[p];
      assert forall i :: 0 <= i < p ==> stakes[i] == prefix[i];
    }
  }

  /** The stakes behind one juror: the juror's own, if revealed, then the delegated ones. */
  function EntryList(v: JurorVote): Stakes {
    (if v.self.Some? then [(v.juror, v.self.value.slashable)] else []) + v.delegations
  }

  predicate Wins(v: JurorVote, w: VoteItem) { v.self.Some? && v.self.value.item == w }

  /** The stakes behind all winning jurors, or behind all others, in the order of the jurors. */
  function Listed(votes: JurorVotes, w: VoteItem, wins: bool): Stakes {
    if votes == [] then []
    else
      var v := votes[|votes| - 1].1;
      Listed(votes[..|votes| - 1], w, wins) + if Wins(v, w) == wins then EntryList(v) else []
  }

  lemma {:induction false} EntryListPart(v: JurorVote, a: AccountId)
    requires Ascending(v.delegations)
    ensures ListSum(EntryList(v)) == PartIn(v, ALL)
    ensures ListFor(EntryList(v), a) == PartIn(v, Kind(None, Some(a)))
  {
    var own: Stakes := if v.self.Some? then [(v.juror, v.self.value.slashable)] else [];
    ListConcat(own, v.delegations, a);
    ListSumOfStakes(v.delegations);
    ListForOfStakes(v.delegations, a);
    if v.self.Some? {
      assert own[..0] == [];
    }
  }

  /** The entries know who wins. */
  ghost predicate Classified(votes: JurorVotes, draws: seq<Draw>, w: VoteItem) {
    forall i :: 0 <= i < |votes| ==> (Wins(votes[i].1, w) <==> WinningJuror(draws, w, votes[i].1.juror))
  }

  lemma {:induction false} ListedMeasure(votes: JurorVotes, draws: seq<Draw>, w: VoteItem, wins: bool, a: AccountId)
    requires VotesOk(votes) && Classified(votes, draws, w)
    ensures ListSum(Listed(votes, w, wins)) == Sum(votes, Measure(draws, w, Kind(Some(wins), None)))
    ensures ListFor(Listed(votes, w, wins), a) == Sum(votes, Measure(draws, w, Kind(Some(wins), Some(a))))
  {
    if votes != [] {
      hide EntryList, PartIn, WinningJuror, ListSum, ListFor, Listed, Sum, Measure;
      var last := votes[|votes| - 1].1;
      ListedMeasure(votes[..|votes| - 1], draws, w, wins, a);
      SumLast(votes, Measure(draws, w, Kind(Some(wins), None)));
      SumLast(votes, Measure(draws, w, Kind(Some(wins), Some(a))));
      EntryListPart(last, a);
      PickedPart(draws, w, wins, last, a);
      ListedLast(votes, w, wins, a);
    }
  }

  lemma {:induction false} ListedLast(votes: JurorVotes, w: VoteItem, wins: bool, a: AccountId)
    requires votes != []
    ensures var prefix, v := Listed(votes[..|votes| - 1], w, wins), votes[|votes| - 1].1;
            && ListSum(Listed(votes, w, wins)) == ListSum(prefix) + (if Wins(v, w) == wins then ListSum(EntryList(v)) else 0)
            && ListFor(Listed(votes, w, wins), a) == ListFor(prefix, a) + (if Wins(v, w) == wins then ListFor(EntryList(v), a) else 0)
  {
    hide EntryList, Wins, ListSum, ListFor;
    var prefix := Listed(votes[..|votes| - 1], w, wins);
    ListConcat(prefix, EntryList(votes[|votes| - 1].1), a);
    assert prefix + [] == prefix;
  }

  lemma {:induction false} PickedPart(draws: seq<Draw>, w: VoteItem, wins: bool, v: JurorVote, a: AccountId)
    ensures Measure(draws, w, Kind(Some(wins), None))(v) == if WinningJuror(draws, w, v.juror) == wins then PartIn(v, ALL) else 0
    ensures Measure(draws, w, Kind(Some(wins), Some(a)))(v)
         == if WinningJuror(draws, w, v.juror) == wins then PartIn(v, Kind(None, Some(a))) else 0
  {
  }

  lemma {:induction false} CollectClassified(cfg: Config, draws: seq<Draw>, w: VoteItem)
    requires DrawsOk(cfg, draws)
    ensures Classified(Collect(draws, |draws|), draws, w)
  {
    var votes := Collect(draws, |draws|);
    CollectSelfs(draws, |draws|);
    CollectMeasure(cfg, draws, |draws|, w, ALL);
    forall i | 0 <= i < |votes|
      ensures Wins(votes[i].1, w) <==> WinningJuror(draws, w, votes[i].1.juror)
    {
      GetAt(votes, i);
      assert EntryOf(votes, votes[i].0) == votes[i].1;
      JurorWins(votes, draws, w, votes[i].0);
    }
  }

  lemma {:induction false} JurorWins(votes: JurorVotes, draws: seq<Draw>, w: VoteItem, j: AccountId)
    requires DrawsSorted(draws) && SelfsOf(votes, draws, |draws|)
    ensures Wins(EntryOf(votes, j), w) <==> WinningJuror(draws, w, j)
  {
    hide EntryOf;
    if EntryOf(votes, j).self.Some? {
      var i :| 0 <= i < |draws| && draws[i].participant == j && draws[i].vote.Revealed?;
      assert forall k :: 0 <= k < |draws| && draws[k].participant == j ==> k == i;
    }
  }

  // ---- The ledger ----

  /** Slash every stake of the list; what is taken is in flight. */
  function SlashAll(l: Ledger, list: Stakes): Ledger {
    if list == [] then l
    else Slash(SlashAll(l, list[..|list| - 1]), list[|list| - 1].0, list[|list| - 1].1)
  }

  function TakenAll(l: Ledger, list: Stakes): nat {
    if list == [] then 0
    else
      var prefix, last := list[..|list| - 1], list[|list| - 1];
      TakenAll(l, prefix) + Taken(SlashAll(l, prefix), last.0, last.1)
  }

  /** However often an account is slashed, it loses what it is slashed for, or all it has. */
  lemma {:induction false} SlashAllBalance(l: Ledger, list: Stakes, a: AccountId)
    ensures BalanceOf(SlashAll(l, list), a) == SatSub(BalanceOf(l, a), ListFor(list, a))
  {
    if list != [] {
      SlashAllBalance(l, list[..|list| - 1], a);
    }
  }

  lemma {:induction false} SlashAllTotal(l: Ledger, list: Stakes)
    ensures Total(SlashAll(l, list)) + TakenAll(l, list) == Total(l)
  {
    if list != [] {
      var prefix, last := list[..|list| - 1], list[|list| - 1];
      SlashAllTotal(l, prefix);
      SlashTotal(SlashAll(l, prefix), last.0, last.1);
    }
  }

  /** The stakes of the tardy jurors among the first `n` draws. */
  function TardyList(draws: seq<Draw>, n: nat): Stakes
    requires n <= |draws|
  {
    if n == 0 then []
    else TardyList(draws, n - 1) + if IsTardy(draws[n - 1]) then [(draws[n - 1].participant, draws[n - 1].slashable)] else []
  }

  /** A slash that goes to the reward pot at once. */
  function SlashInto(l: Ledger, pot: AccountId, a: AccountId, amount: Balance): Ledger {
    Deposit(Slash(l, a, amount), pot, Taken(l, a, amount))
  }

  function SlashAllInto(l: Ledger, pot: AccountId, list: Stakes): Ledger {
    if list == [] then l
    else SlashInto(SlashAllInto(l, pot, list[..|list| - 1]), pot, list[|list| - 1].0, list[|list| - 1].1)
  }

  lemma {:induction false} SlashAllIntoFacts(l: Ledger, pot: AccountId, list: Stakes, a: AccountId)
    requires Total(l) <= U128_MAX && a != pot
    ensures Total(SlashAllInto(l, pot, list)) == Total(l)
    ensures BalanceOf(SlashAllInto(l, pot, list), a) == SatSub(BalanceOf(l, a), ListFor(list, a))
  {
    if list != [] {
      var prefix, last := list[..|list| - 1], list[|list| - 1];
      SlashAllIntoFacts(l, pot, prefix, a);
      var mid := SlashAllInto(l, pot, prefix);
      SlashTotal(mid, last.0, last.1);
      DepositTotal(Slash(mid, last.0, last.1), pot, Taken(mid, last.0, last.1));
    }
  }

  function PayAll(l: Ledger, list: Stakes, total: nat, reward: Balance): Ledger {
    if list == [] then l
    else Deposit(PayAll(l, list[..|list| - 1], total, reward), list[|list| - 1].0, PaidLast(list, total, reward))
  }

  lemma {:induction false} PayAllFacts(l: Ledger, list: Stakes, total: nat, reward: Balance, a: AccountId)
    requires Total(l) + reward <= U128_MAX
    ensures Total(PayAll(l, list, total, reward)) + LeftAfter(list, total, reward) == Total(l) + reward
    ensures BalanceOf(PayAll(l, list, total, reward), a) == BalanceOf(l, a) + PaidTo(list, total, reward, a)
  {
    hide ShareOf;
    if list != [] {
      var prefix, last := list[..|list| - 1], list[|list| - 1];
      PayAllFacts(l, prefix, total, reward, a);
      DepositTotal(PayAll(l, prefix, total, reward), last.0, PaidLast(list, total, reward));
    }
  }

  // ---- The whole reassignment ----

  /** Tardy jurors are slashed into the pot; then everybody behind a juror who did not win is
      slashed, the pot is emptied, the winners are paid, and the rest goes to the treasury. */
  function AfterLosers(l: Ledger, draws: seq<Draw>, w: VoteItem, pot: AccountId): Ledger {
    var l1 := SlashAllInto(l, pot, TardyList(draws, |draws|));
    SlashAll(l1, Listed(Collect(draws, |draws|), w, false))
  }

  function Incentives(l: Ledger, draws: seq<Draw>, w: VoteItem, pot: AccountId): nat {
    var l1 := SlashAllInto(l, pot, TardyList(draws, |draws|));
    TakenAll(l1, Listed(Collect(draws, |draws|), w, false)) + BalanceOf(AfterLosers(l, draws, w, pot), pot)
  }

  function WinnersOf(draws: seq<Draw>, w: VoteItem): Stakes { Listed(Collect(draws, |draws|), w, true) }

  /** The losers are slashed, the pot is emptied, the winners are paid, and the rest goes to the treasury. */
  function Awarded(l: Ledger, losers: Stakes, winners: Stakes, pot: AccountId, treasury: AccountId): Ledger {
    var l2 := SlashAll(l, losers);
    var reward: Balance := Min(TakenAll(l, losers) + BalanceOf(l2, pot), U128_MAX);
    var total := Min(ListSum(winners), U128_MAX);
    var l3 := PayAll(l2[pot := 0], winners, total, reward);
    if LeftAfter(winners, total, reward) == 0 then l3 else Deposit(l3, treasury, LeftAfter(winners, total, reward))
  }

  function Reassigned(l: Ledger, draws: seq<Draw>, w: VoteItem, pot: AccountId, treasury: AccountId): Ledger {
    Awarded(SlashAllInto(l, pot, TardyList(draws, |draws|)), Listed(Collect(draws, |draws|), w, false),
            WinnersOf(draws, w), pot, treasury)
  }

  lemma {:induction false} ReassignedIs(l: Ledger, draws: seq<Draw>, w: VoteItem, pot: AccountId, treasury: AccountId)
    ensures var reward: Balance := Min(Incentives(l, draws, w, pot), U128_MAX);
            var total := Min(ListSum(WinnersOf(draws, w)), U128_MAX);
            var left := LeftAfter(WinnersOf(draws, w), total, reward);
            var l3 := PayAll(AfterLosers(l, draws, w, pot)[pot := 0], WinnersOf(draws, w), total, reward);
            Reassigned(l, draws, w, pot, treasury) == if left == 0 then l3 else Deposit(l3, treasury, left)
  {
    hide Collect, Listed, TardyList, SlashAll, TakenAll, SlashAllInto, WinnersOf, PayAll, LeftAfter, ListSum;
  }

  /** What an account, or everybody, loses: the stakes of tardy jurors and of those behind jurors
      who did not reveal the winning item. */
  ghost function LossFor(draws: seq<Draw>, w: VoteItem, a: AccountId): nat {
    ListFor(TardyList(draws, |draws|), a) + PartsTo(draws, |draws|, w, Kind(Some(false), Some(a)))
  }

  ghost function WinFor(draws: seq<Draw>, w: VoteItem, a: AccountId): nat {
    PartsTo(draws, |draws|, w, Kind(Some(true), Some(a)))
  }

  ghost function TotalLoss(draws: seq<Draw>, w: VoteItem): nat {
    ListSum(TardyList(draws, |draws|)) + PartsTo(draws, |draws|, w, Kind(Some(false), None))
  }

  ghost function TotalWin(draws: seq<Draw>, w: VoteItem): nat {
    PartsTo(draws, |draws|, w, Kind(Some(true), None))
  }

  // ---- Every stake is classified once ----

  lemma {:induction false} StakesSplit(draws: seq<Draw>, w: VoteItem, who: Option<AccountId>, stakes: Stakes)
    ensures StakesPart(draws, w, Kind(Some(true), who), stakes) + StakesPart(draws, w, Kind(Some(false), who), stakes)
         == Sum(stakes, Id)
  {
    if stakes != [] {
      var prefix, last := stakes[..|stakes| - 1], stakes[|stakes| - 1];
      StakesSplit(draws, w, who, prefix);
      assert stakes == prefix + [last];
      SumConcat<Balance>(prefix, [last], Id);
    }
  }

  lemma {:induction false} DrawSplit(cfg: Config, draws: seq<Draw>, w: VoteItem, who: Option<AccountId>, d: Draw)
    requires DrawShape(cfg, d)
    ensures DrawPart(draws, w, Kind(Some(true), who), d) + DrawPart(draws, w, Kind(Some(false), who), d)
         == if Concerns(Kind(None, who), d.participant) && !IsTardy(d) then d.slashable else 0
  {
    if d.vote.Delegated? {
      StakesSplit(draws, w, who, d.vote.stakes);
    }
  }

  lemma {:induction false} SplitTo(cfg: Config, draws: seq<Draw>, n: nat, w: VoteItem, a: AccountId)
    requires n <= |draws| && forall i :: 0 <= i < |draws| ==> DrawShape(cfg, draws[i])
    ensures ListSum(TardyList(draws, n)) + PartsTo(draws, n, w, Kind(Some(false), None)) + PartsTo(draws, n, w, Kind(Some(true), None))
         == TotalSlashable(draws[..n])
    ensures ListFor(TardyList(draws, n), a) + PartsTo(draws, n, w, Kind(Some(false), Some(a)))
            + PartsTo(draws, n, w, Kind(Some(true), Some(a)))
         == SlashFor(draws[..n], a)
  {
    hide DrawShape, DrawPart;
    if n > 0 {
      var d := draws[n - 1];
      SplitTo(cfg, draws, n - 1, w, a);
      DrawSplit(cfg, draws, w, None, d);
      DrawSplit(cfg, draws, w, Some(a), d);
      assert draws[..n][..n - 1] == draws[..n - 1];
      TardyNext(draws, n, a);
    }
  }

  lemma {:induction false} TardyNext(draws: seq<Draw>, n: nat, a: AccountId)
    requires 0 < n <= |draws|
    ensures ListSum(TardyList(draws, n)) == ListSum(TardyList(draws, n - 1)) + if IsTardy(draws[n - 1]) then draws[n - 1].slashable else 0
    ensures ListFor(TardyList(draws, n), a) == ListFor(TardyList(draws, n - 1), a)
            + if IsTardy(draws[n - 1]) && draws[n - 1].participant == a then draws[n - 1].slashable else 0
  {
    var one: Stakes := [(draws[n - 1].participant, draws[n - 1].slashable)];
    ListConcat(TardyList(draws, n - 1), one, a);
    assert one[..0] == [];
    assert TardyList(draws, n - 1) + [] == TardyList(draws, n - 1);
  }

  /** Every stake at risk is lost or wins, and none twice: in total and for every account. */
  lemma {:induction false} ClassifiedOnce(cfg: Config, draws: seq<Draw>, w: VoteItem, a: AccountId)
    requires DrawsOk(cfg, draws)
    ensures TotalLoss(draws, w) + TotalWin(draws, w) == TotalSlashable(draws)
    ensures LossFor(draws, w, a) + WinFor(draws, w, a) == SlashFor(draws, a)
  {
    SplitTo(cfg, draws, |draws|, w, a);
    assert draws[..|draws|] == draws;
  }

  // ---- Whether anybody wins ----

  ghost predicate SomebodyWins(draws: seq<Draw>, w: VoteItem) {
    exists i :: 0 <= i < |draws| && draws[i].vote.Revealed? && draws[i].vote.item == w
  }

  lemma {:induction false} NoStakesPart(draws: seq<Draw>, w: VoteItem, stakes: Stakes)
    requires !SomebodyWins(draws, w)
    ensures StakesPart(draws, w, Kind(Some(true), None), stakes) == 0
  {
    if stakes != [] {
      NoStakesPart(draws, w, stakes[..|stakes| - 1]);
    }
  }

  lemma {:induction false} NoParts(draws: seq<Draw>, n: nat, w: VoteItem)
    requires n <= |draws| && !SomebodyWins(draws, w)
    ensures PartsTo(draws, n, w, Kind(Some(true), None)) == 0
  {
    if n > 0 {
      NoParts(draws, n - 1, w);
      if draws[n - 1].vote.Delegated? {
        NoStakesPart(draws, w, draws[n - 1].vote.stakes);
      }
    }
  }

  lemma {:induction false} StakePicked(draws: seq<Draw>, w: VoteItem, k: Kind, stakes: Stakes, t: nat)
    requires t < |stakes| && Picks(draws, w, k, stakes[t].0)
    ensures stakes[t].1 <= StakesPart(draws, w, k, stakes)
  {
    hide Picks;
    if t < |stakes| - 1 {
      StakePicked(draws, w, k, stakes[..|stakes| - 1], t);
    }
  }

  lemma {:induction false} PartPicked(draws: seq<Draw>, n: nat, w: VoteItem, k: Kind, i: nat)
    requires i < n <= |draws|
    ensures DrawPart(draws, w, k, draws[i]) <= PartsTo(draws, n, w, k)
  {
    hide DrawPart;
    if i < n - 1 {
      PartPicked(draws, n - 1, w, k, i);
    }
  }

  /** The winning stakes add up to something exactly if a juror revealed the winning item: behind
      every juror of a jury is a stake, even if it is only that of a delegator. */
  lemma {:induction false} SomebodyWinsIff(cfg: Config, draws: seq<Draw>, w: VoteItem)
    requires DrawsOk(cfg, draws)
    ensures 0 < TotalWin(draws, w) <==> SomebodyWins(draws, w)
  {
    var kind := Kind(Some(true), None);
    if SomebodyWins(draws, w) {
      var i :| 0 <= i < |draws| && draws[i].vote.Revealed? && draws[i].vote.item == w;
      var j := draws[i].participant;
      assert WinningJuror(draws, w, j);
      PartPicked(draws, |draws|, w, kind, i);
      if draws[i].slashable == 0 {
        var k :| 0 <= k < |draws| && Backs(draws[k], j);
        PartPicked(draws, |draws|, w, kind, k);
        StakePicked(draws, w, kind, draws[k].vote.stakes, Position(draws[k].vote.stakes, j));
      }
    } else {
      NoParts(draws, |draws|, w);
    }
  }

  lemma {:induction false} NoneListed(votes: JurorVotes, w: VoteItem)
    requires forall i :: 0 <= i < |votes| ==> !Wins(votes[i].1, w)
    ensures Listed(votes, w, true) == []
  {
    if votes != [] {
      NoneListed(votes[..|votes| - 1], w);
    }
  }

  // ---- What the reassignment does to the balances ----

  lemma {:induction false} ListsOfDraws(cfg: Config, draws: seq<Draw>, w: VoteItem, a: AccountId)
    requires DrawsOk(cfg, draws)
    ensures var losers := Listed(Collect(draws, |draws|), w, false);
            && ListSum(losers) == PartsTo(draws, |draws|, w, Kind(Some(false), None))
            && ListFor(losers, a) == PartsTo(draws, |draws|, w, Kind(Some(false), Some(a)))
    ensures ListSum(WinnersOf(draws, w)) == TotalWin(draws, w) && ListFor(WinnersOf(draws, w), a) == WinFor(draws, w, a)
  {
    hide Measure, VotesOk, Classified, Collect, Sum, Listed, ListSum, ListFor, PartsTo, DrawsOk;
    var votes := Collect(draws, |draws|);
    CollectClassified(cfg, draws, w);
    CollectMeasure(cfg, draws, |draws|, w, Kind(Some(false), None));
    CollectMeasure(cfg, draws, |draws|, w, Kind(Some(false), Some(a)));
    CollectMeasure(cfg, draws, |draws|, w, Kind(Some(true), None));
    CollectMeasure(cfg, draws, |draws|, w, Kind(Some(true), Some(a)));
    ListedMeasure(votes, draws, w, false, a);
    ListedMeasure(votes, draws, w, true, a);
  }

  /** Everything that was taken is in flight. */
  lemma {:induction false} IncentivesTotal(l: Ledger, draws: seq<Draw>, w: VoteItem, pot: AccountId)
    requires Total(l) <= U128_MAX
    ensures Total(AfterLosers(l, draws, w, pot)[pot := 0]) + Incentives(l, draws, w, pot) == Total(l)
  {
    hide Collect, Listed, TardyList, SlashAll, TakenAll, SlashAllInto;
    var l1 := SlashAllInto(l, pot, TardyList(draws, |draws|));
    SlashAllIntoFacts(l, pot, TardyList(draws, |draws|), pot + 1);
    SlashAllTotal(l1, Listed(Collect(draws, |draws|), w, false));
    TotalUpdate(AfterLosers(l, draws, w, pot), pot, 0);
  }

  /** No token is made or lost. */
  lemma {:induction false} ReassignConserves(l: Ledger, draws: seq<Draw>, w: VoteItem, pot: AccountId, treasury: AccountId)
    requires Total(l) <= U128_MAX
    ensures Total(Reassigned(l, draws, w, pot, treasury)) == Total(l)
  {
    hide AfterLosers, Incentives, WinnersOf, PayAll, LeftAfter, Reassigned;
    ReassignedIs(l, draws, w, pot, treasury);
    IncentivesTotal(l, draws, w, pot);
    var reward: Balance := Incentives(l, draws, w, pot);
    var winners, l2 := WinnersOf(draws, w), AfterLosers(l, draws, w, pot)[pot := 0];
    var total := Min(ListSum(winners), U128_MAX);
    PayAllFacts(l2, winners, total, reward, 0);
    if LeftAfter(winners, total, reward) != 0 {
      DepositTotal(PayAll(l2, winners, total, reward), treasury, LeftAfter(winners, total, reward));
    }
  }

  /** What an account has after the reassignment: the pot is emptied, everybody else loses exactly
      its losing stakes, or all it has; winning stakes are paid, and the treasury gets the rest. */
  lemma {:induction false} ReassignBalance(cfg: Config, l: Ledger, draws: seq<Draw>, w: VoteItem, pot: AccountId, treasury: AccountId, a: AccountId)
    requires DrawsOk(cfg, draws) && Total(l) <= U128_MAX
    ensures Incentives(l, draws, w, pot) <= U128_MAX
    ensures var winners, total, reward := WinnersOf(draws, w), TotalWin(draws, w), Incentives(l, draws, w, pot);
            BalanceOf(Reassigned(l, draws, w, pot, treasury), a)
            == (if a == pot then 0 else SatSub(BalanceOf(l, a), LossFor(draws, w, a)))
               + PaidTo(winners, total, reward, a)
               + if a == treasury then LeftAfter(winners, total, reward) else 0
  {
    if a != pot {
      AfterLosersBalance(cfg, l, draws, w, pot, a);
    }
    hide AfterLosers, Incentives, WinnersOf, PayAll, LeftAfter, PaidTo, LossFor, TotalWin, DrawsOk, Reassigned;
    ReassignedIs(l, draws, w, pot, treasury);
    IncentivesTotal(l, draws, w, pot);
    var reward: Balance := Incentives(l, draws, w, pot);
    var winners, l2 := WinnersOf(draws, w), AfterLosers(l, draws, w, pot)[pot := 0];
    ListsOfDraws(cfg, draws, w, a);
    WinWithin(cfg, draws, w);
    PayAllFacts(l2, winners, TotalWin(draws, w), reward, a);
    DepositTotal(PayAll(l2, winners, TotalWin(draws, w), reward), treasury, LeftAfter(winners, TotalWin(draws, w), reward));
  }

  /** What an account gets for its winning stakes: its full shares up to the cut, and they are near
      its part of the reward. */
  lemma {:induction false} ReassignShares(cfg: Config, l: Ledger, draws: seq<Draw>, w: VoteItem, pot: AccountId, treasury: AccountId, a: AccountId)
    requires DrawsOk(cfg, draws) && Total(l) <= U128_MAX && a != pot && a != treasury && SomebodyWins(draws, w)
    ensures 0 < TotalWin(draws, w)
    ensures var winners, total, reward := WinnersOf(draws, w), TotalWin(draws, w), Incentives(l, draws, w, pot);
            var shares, mine := SharesSum(winners, total, reward), SharesFor(winners, total, reward, a);
            var got := BalanceOf(Reassigned(l, draws, w, pot, treasury), a) - SatSub(BalanceOf(l, a), LossFor(draws, w, a));
            && got <= mine <= got + SatSub(shares, reward)
            && 2 * SatSub(shares, reward) < |winners|
            && Near(mine, WinFor(draws, w, a), EntriesFor(winners, a), total, reward)
  {
    SomebodyWinsIff(cfg, draws, w);
    hide Incentives, WinnersOf, PaidTo, LossFor, WinFor, TotalWin, DrawsOk, Reassigned, Near, SharesFor, SharesSum, EntriesFor, ListFor, ListSum;
    ReassignBalance(cfg, l, draws, w, pot, treasury, a);
    ListsOfDraws(cfg, draws, w, a);
    PayoutTheorem(WinnersOf(draws, w), Incentives(l, draws, w, pot), a);
  }

  /** If nobody wins, the whole reward goes to the treasury. */
  lemma {:induction false} NobodyWins(cfg: Config, l: Ledger, draws: seq<Draw>, w: VoteItem, pot: AccountId, treasury: AccountId, a: AccountId)
    requires DrawsOk(cfg, draws) && Total(l) <= U128_MAX && !SomebodyWins(draws, w)
    ensures WinnersOf(draws, w) == []
    ensures BalanceOf(Reassigned(l, draws, w, pot, treasury), a)
         == (if a == pot then 0 else SatSub(BalanceOf(l, a), LossFor(draws, w, a)))
            + if a == treasury then Incentives(l, draws, w, pot) else 0
  {
    CollectClassified(cfg, draws, w);
    hide Incentives, LossFor, TotalWin, DrawsOk, Reassigned, Collect;
    var votes := Collect(draws, |draws|);
    forall i | 0 <= i < |votes|
      ensures !Wins(votes[i].1, w)
    {
      assert !WinningJuror(draws, w, votes[i].1.juror);
    }
    NoneListed(votes, w);
    ReassignBalance(cfg, l, draws, w, pot, treasury, a);
  }

  lemma {:induction false} WinWithin(cfg: Config, draws: seq<Draw>, w: VoteItem)
    requires DrawsOk(cfg, draws)
    ensures TotalWin(draws, w) <= U128_MAX
  {
    PartsWithinSlashable(cfg, draws, |draws|, w, Kind(Some(true), None));
  }

  lemma {:induction false} AfterLosersBalance(cfg: Config, l: Ledger, draws: seq<Draw>, w: VoteItem, pot: AccountId, a: AccountId)
    requires DrawsOk(cfg, draws) && Total(l) <= U128_MAX && a != pot
    ensures BalanceOf(AfterLosers(l, draws, w, pot), a) == SatSub(BalanceOf(l, a), LossFor(draws, w, a))
  {
    hide Collect, Listed, TardyList, SlashAll, SlashAllInto, ListFor, PartsTo, DrawsOk;
    var l1 := SlashAllInto(l, pot, TardyList(draws, |draws|));
    SlashAllIntoFacts(l, pot, TardyList(draws, |draws|), a);
    SlashAllBalance(l1, Listed(Collect(draws, |draws|), w, false), a);
    ListsOfDraws(cfg, draws, w, a);
  }

  /** No account loses more than it had at risk. */
  lemma {:induction false} LossWithinRisk(cfg: Config, l: Ledger, draws: seq<Draw>, w: VoteItem, pot: AccountId, treasury: AccountId, a: AccountId)
    requires DrawsOk(cfg, draws) && Total(l) <= U128_MAX && a != pot
    ensures BalanceOf(l, a) <= BalanceOf(Reassigned(l, draws, w, pot, treasury), a) + SlashFor(draws, a)
  {
    ReassignBalance(cfg, l, draws, w, pot, treasury, a);
    ClassifiedOnce(cfg, draws, w, a);
  }

  // ---- When everybody can pay ----

  lemma {:induction false} TakenAllExact(l: Ledger, list: Stakes)
    requires forall a: AccountId :: ListFor(list, a) <= BalanceOf(l, a)
    ensures TakenAll(l, list) == ListSum(list)
  {
    if list != [] {
      var prefix, last := list[..|list| - 1], list[|list| - 1];
      forall a: AccountId
        ensures ListFor(prefix, a) <= BalanceOf(l, a)
      {
        assert ListFor(list, a) <= BalanceOf(l, a);
      }
      TakenAllExact(l, prefix);
      SlashAllBalance(l, prefix, last.0);
      assert ListFor(list, last.0) <= BalanceOf(l, last.0);
    }
  }

  lemma {:induction false} PotGrows(l: Ledger, pot: AccountId, list: Stakes)
    requires Total(l) <= U128_MAX && ListFor(list, pot) == 0
    requires forall a: AccountId :: a != pot ==> ListFor(list, a) <= BalanceOf(l, a)
    ensures Total(SlashAllInto(l, pot, list)) == Total(l)
    ensures BalanceOf(SlashAllInto(l, pot, list), pot) == BalanceOf(l, pot) + ListSum(list)
  {
    if list != [] {
      var prefix, last := list[..|list| - 1], list[|list| - 1];
      forall a: AccountId | a != pot
        ensures ListFor(prefix, a) <= BalanceOf(l, a)
      {
        assert ListFor(list, a) <= BalanceOf(l, a);
      }
      PotGrows(l, pot, prefix);
      var mid := SlashAllInto(l, pot, prefix);
      if last.0 != pot {
        SlashAllIntoFacts(l, pot, prefix, last.0);
        assert ListFor(list, last.0) <= BalanceOf(l, last.0);
      }
      SlashTotal(mid, last.0, last.1);
      DepositTotal(Slash(mid, last.0, last.1), pot, Taken(mid, last.0, last.1));
    }
  }

  /** Taking everything means that everybody can pay. */
  lemma {:induction false} TakenAllBound(l: Ledger, list: Stakes, a: AccountId)
    ensures TakenAll(l, list) <= ListSum(list)
    ensures TakenAll(l, list) == ListSum(list) ==> ListFor(list, a) <= BalanceOf(l, a)
  {
    if list != [] {
      var prefix, last := list[..|list| - 1], list[|list| - 1];
      TakenAllBound(l, prefix, a);
      SlashAllBalance(l, prefix, last.0);
    }
  }

  lemma {:induction false} PotBound(l: Ledger, pot: AccountId, list: Stakes, a: AccountId)
    requires Total(l) <= U128_MAX && ListFor(list, pot) == 0 && a != pot
    ensures BalanceOf(SlashAllInto(l, pot, list), pot) <= BalanceOf(l, pot) + ListSum(list)
    ensures BalanceOf(SlashAllInto(l, pot, list), pot) == BalanceOf(l, pot) + ListSum(list) ==> ListFor(list, a) <= BalanceOf(l, a)
  {
    if list != [] {
      var prefix, last := list[..|list| - 1], list[|list| - 1];
      PotBound(l, pot, prefix, a);
      SlashAllIntoFacts(l, pot, prefix, a);
      var mid := SlashAllInto(l, pot, prefix);
      SlashTotal(mid, last.0, last.1);
      DepositTotal(Slash(mid, last.0, last.1), pot, Taken(mid, last.0, last.1));
    }
  }

  /** Then the winners share the old reward pot and exactly all losing stakes. */
  lemma {:induction false} IncentivesExact(cfg: Config, l: Ledger, draws: seq<Draw>, w: VoteItem, pot: AccountId)
    requires DrawsOk(cfg, draws) && Total(l) <= U128_MAX && SlashFor(draws, pot) == 0
    requires forall a: AccountId :: LossFor(draws, w, a) <= BalanceOf(l, a)
    ensures Incentives(l, draws, w, pot) == BalanceOf(l, pot) + TotalLoss(draws, w)
  {
    var tardy, losers := TardyList(draws, |draws|), Listed(Collect(draws, |draws|), w, false);
    var l1 := SlashAllInto(l, pot, tardy);
    hide Collect, Listed, TardyList, SlashAll, SlashAllInto, ListFor, PartsTo, DrawsOk, TakenAll, ListSum;
    ClassifiedOnce(cfg, draws, w, pot);
    ListsOfDraws(cfg, draws, w, pot);
    forall a: AccountId
      ensures a != pot ==> ListFor(tardy, a) <= BalanceOf(l, a)
    {
      assert LossFor(draws, w, a) <= BalanceOf(l, a);
    }
    PotGrows(l, pot, tardy);
    forall a: AccountId
      ensures ListFor(losers, a) <= BalanceOf(l1, a)
    {
      ListsOfDraws(cfg, draws, w, a);
      if a != pot {
        SlashAllIntoFacts(l, pot, tardy, a);
        assert LossFor(draws, w, a) <= BalanceOf(l, a);
      }
    }
    TakenAllExact(l1, losers);
    SlashAllBalance(l1, losers, pot);
  }

  lemma {:induction false} IncentivesWithin(cfg: Config, l: Ledger, draws: seq<Draw>, w: VoteItem, pot: AccountId, a: AccountId)
    requires DrawsOk(cfg, draws) && Total(l) <= U128_MAX && SlashFor(draws, pot) == 0
    ensures Incentives(l, draws, w, pot) <= BalanceOf(l, pot) + TotalLoss(draws, w)
    ensures Incentives(l, draws, w, pot) == BalanceOf(l, pot) + TotalLoss(draws, w) ==> LossFor(draws, w, a) <= BalanceOf(l, a)
  {
    var tardy, losers := TardyList(draws, |draws|), Listed(Collect(draws, |draws|), w, false);
    var l1 := SlashAllInto(l, pot, tardy);
    hide Collect, Listed, TardyList, SlashAll, SlashAllInto, ListFor, PartsTo, DrawsOk, TakenAll, ListSum;
    ClassifiedOnce(cfg, draws, w, pot);
    ListsOfDraws(cfg, draws, w, pot);
    ListsOfDraws(cfg, draws, w, a);
    SlashAllBalance(l1, losers, pot);
    TakenAllBound(l1, losers, a);
    PotBound(l, pot, tardy, if a == pot then pot + 1 else a);
    if a != pot {
      SlashAllIntoFacts(l, pot, tardy, a);
    }
  }

  /** The winners share the old reward pot and all losing stakes if and only if everybody can pay,
      and never more than that. */
  lemma {:induction false} IncentivesExactIff(cfg: Config, l: Ledger, draws: seq<Draw>, w: VoteItem, pot: AccountId)
    requires DrawsOk(cfg, draws) && Total(l) <= U128_MAX && SlashFor(draws, pot) == 0
    ensures Incentives(l, draws, w, pot) <= BalanceOf(l, pot) + TotalLoss(draws, w)
    ensures Incentives(l, draws, w, pot) == BalanceOf(l, pot) + TotalLoss(draws, w)
       <==> forall a: AccountId :: LossFor(draws, w, a) <= BalanceOf(l, a)
  {
    hide Incentives, TotalLoss, LossFor, DrawsOk;
    IncentivesWithin(cfg, l, draws, w, pot, pot);
    if forall a: AccountId :: LossFor(draws, w, a) <= BalanceOf(l, a) {
      IncentivesExact(cfg, l, draws, w, pot);
    } else {
      var a: AccountId :| LossFor(draws, w, a) > BalanceOf(l, a);
      IncentivesWithin(cfg, l, draws, w, pot, a);
    }
  }

  // ---- The loops of the source ----

  lemma {:induction false} SlashConcat(l: Ledger, list: Stakes, more: Stakes)
    ensures SlashAll(l, list + more) == SlashAll(SlashAll(l, list), more)
    ensures TakenAll(l, list + more) == TakenAll(l, list) + TakenAll(SlashAll(l, list), more)
  {
    if more == [] {
      assert list + more == list;
    } else {
      SlashConcat(l, list, more[..|more| - 1]);
      assert (list + more)[..|list + more| - 1] == list + more[..|more| - 1];
    }
  }

  /** Slash the stakes of a list and put the imbalances together. */
  method SlashStakes(l: Ledger, list: Stakes) returns (l': Ledger, taken: Balance)
    ensures l' == SlashAll(l, list) && taken == Min(TakenAll(l, list), U128_MAX)
  {
    l', taken := l, 0;
    for i := 0 to |list|
      invariant l' == SlashAll(l, list[..i]) && taken == Min(TakenAll(l, list[..i]), U128_MAX)
    {
      assert list[..i + 1][..i] == list[..i];
      taken := SatAdd(taken, Taken(l', list[i].0, list[i].1));
      l' := Slash(l', list[i].0, list[i].1);
    }
    assert list[..|list|] == list;
  }

  /** The sum of the stakes of a list, as far as a balance can tell. */
  method SumStakes(list: Stakes) returns (sum: Balance)
    ensures sum == Min(ListSum(list), U128_MAX)
  {
    sum := 0;
    for i := 0 to |list|
      invariant sum == Min(ListSum(list[..i]), U128_MAX)
    {
      assert list[..i + 1][..i] == list[..i];
      sum := SatAdd(sum, list[i].1);
    }
    assert list[..|list|] == list;
  }

  lemma {:induction false} ListedNext(l: Ledger, votes: JurorVotes, w: VoteItem, i: nat)
    requires i < |votes|
    ensures var v, losers, winners := votes[i].1, Listed(votes[..i], w, false), Listed(votes[..i], w, true);
            var losers', winners' := Listed(votes[..i + 1], w, false), Listed(votes[..i + 1], w, true);
            if Wins(v, w) then
              losers' == losers && winners' == winners + EntryList(v)
              && ListSum(winners') == ListSum(winners) + ListSum(EntryList(v))
            else
              && winners' == winners
              && SlashAll(l, losers') == SlashAll(SlashAll(l, losers), EntryList(v))
              && TakenAll(l, losers') == TakenAll(l, losers) + TakenAll(SlashAll(l, losers), EntryList(v))
  {
    hide SlashAll, TakenAll, ListSum, EntryList;
    assert votes[..i + 1][..i] == votes[..i];
    var v, losers, winners := votes[i].1, Listed(votes[..i], w, false), Listed(votes[..i], w, true);
    if Wins(v, w) {
      ListConcat(winners, EntryList(v), 0);
      assert losers + [] == losers;
    } else {
      SlashConcat(l, losers, EntryList(v));
      assert winners + [] == winners;
    }
  }

  /** Slash everybody behind a juror who does not win; list the others. */
  method SlashLosers(l: Ledger, votes: JurorVotes, w: VoteItem)
    returns (l': Ledger, incentives: Balance, winners: Stakes, total: Balance)
    ensures l' == SlashAll(l, Listed(votes, w, false))
    ensures incentives == Min(TakenAll(l, Listed(votes, w, false)), U128_MAX)
    ensures winners == Listed(votes, w, true) && total == Min(ListSum(winners), U128_MAX)
  {
    l', incentives, winners, total := l, 0, [], 0;
    for i := 0 to |votes|
      invariant l' == SlashAll(l, Listed(votes[..i], w, false))
      invariant incentives == Min(TakenAll(l, Listed(votes[..i], w, false)), U128_MAX)
      invariant winners == Listed(votes[..i], w, true) && total == Min(ListSum(winners), U128_MAX)
    {
      hide SlashAll, TakenAll, ListSum, EntryList, Listed;
      ListedNext(l, votes, w, i);
      var v := votes[i].1;
      if Wins(v, w) {
        var sum := SumStakes(EntryList(v));
        winners, total := winners + EntryList(v), SatAdd(total, sum);
      } else {
        var taken;
        l', taken := SlashStakes(l', EntryList(v));
        incentives := SatAdd(incentives, taken);
      }
    }
    assert votes[..|votes|] == votes;
  }

  /** Pay every winner the share of the reward; the last ones get what is left. */
  method PayWinners(l: Ledger, winners: Stakes, total: Balance, reward: Balance) returns (l': Ledger, left: Balance)
    ensures l' == PayAll(l, winners, total, reward) && left == LeftAfter(winners, total, reward)
  {
    hide ShareOf;
    l', left := l, reward;
    for i := 0 to |winners|
      invariant l' == PayAll(l, winners[..i], total, reward) && left == LeftAfter(winners[..i], total, reward)
    {
      assert winners[..i + 1][..i] == winners[..i];
      var share: Balance := Min(left, ShareOf(winners[i].1, total, reward));
      left := left - share;
      l' := Deposit(l', winners[i].0, share);
    }
    assert winners[..|winners|] == winners;
  }

  method SlashLosersToAwardWinners(l: Ledger, votes: JurorVotes, w: VoteItem, pot: AccountId, treasury: AccountId)
    returns (l': Ledger)
    ensures l' == Awarded(l, Listed(votes, w, false), Listed(votes, w, true), pot, treasury)
  {
    hide SlashAll, TakenAll, Listed, ListSum, PayAll, LeftAfter;
    var incentives, winners, total, left;
    l', incentives, winners, total := SlashLosers(l, votes, w);
    var reward := SatAdd(incentives, BalanceOf(l', pot));
    l' := l'[pot := 0];
    l', left := PayWinners(l', winners, total, reward);
    if left != 0 {
      l' := Deposit(l', treasury, left);
    }
  }

  /** The delegated stakes of one draw, juror by juror. */
  method RecordDelegations(votes: JurorVotes, stakes: Stakes, delegator: AccountId) returns (votes': JurorVotes)
    ensures votes' == AddDelegations(votes, stakes, delegator)
  {
    hide AddDelegation;
    votes' := votes;
    for i := 0 to |stakes|
      invariant votes' == AddDelegations(votes, stakes[..i], delegator)
    {
      assert stakes[..i + 1][..i] == stakes[..i];
      votes' := AddDelegation(votes', stakes[i].0, delegator, stakes[i].1);
    }
    assert stakes[..|stakes|] == stakes;
  }

  /** One draw: a tardy juror is slashed into the pot, a revealed vote and delegations are recorded. */
  method HandleVote(l: Ledger, votes: JurorVotes, d: Draw, pot: AccountId) returns (l': Ledger, votes': JurorVotes)
    ensures l' == if IsTardy(d) then SlashInto(l, pot, d.participant, d.slashable) else l
    ensures votes' == AddDraw(votes, d)
  {
    l', votes' := l, votes;
    match d.vote {
      case Revealed(_, item, _) => votes' := AddSelf(votes, d.participant, SelfInfo(d.slashable, item));
      case Delegated(stakes) => votes' := RecordDelegations(votes, stakes, d.participant);
      case _ => l' := Deposit(Slash(l, d.participant, d.slashable), pot, Taken(l, d.participant, d.slashable));
    }
  }

  lemma {:induction false} TardySlashed(l: Ledger, pot: AccountId, draws: seq<Draw>, i: nat)
    requires i < |draws|
    ensures SlashAllInto(l, pot, TardyList(draws, i + 1))
         == if IsTardy(draws[i]) then SlashInto(SlashAllInto(l, pot, TardyList(draws, i)), pot, draws[i].participant, draws[i].slashable)
            else SlashAllInto(l, pot, TardyList(draws, i))
  {
    var before := TardyList(draws, i);
    if IsTardy(draws[i]) {
      assert TardyList(draws, i + 1)[..|before|] == before;
    } else {
      assert TardyList(draws, i + 1) == before;
    }
  }
}
