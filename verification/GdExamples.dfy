/** A run of the global disputes pallet in which a destroyed dispute is finished before it is
    refunded completely. */
module GdExamples {
  import opened Numbers
  import opened Ordered
  import opened Ledger
  import opened GlobalDisputes
  import opened GdHistory
  import opened GdSteps
  import opened GdEscrow
  import opened GdRuns
  import opened GdFunds
  import CourtTypes

  /** Outcomes cost 20, and are removed one at a time. */
  function Cfg(): Config { Config(10, 5, 1, 1, 1, 1, 20) }

  /** An initial outcome of account 1, and outcomes that accounts 2 and 3 add. */
  function Initially(): OutcomeReport { CourtTypes.Categorical(0) }

  function Second(): OutcomeReport { CourtTypes.Categorical(1) }

  function Third(): OutcomeReport { CourtTypes.Categorical(2) }

  function ByOne(): OutcomeInfo { OutcomeInfo(10, Shared([1])) }

  function ByTwo(): OutcomeInfo { OutcomeInfo(20, Paid(2, 20)) }

  function ByThree(): OutcomeInfo { OutcomeInfo(20, Paid(3, 20)) }

  function Markets(): map<MarketId, Market> {
    map[0 := CourtTypes.Market(CourtTypes.CategoricalMarket(3), true, None)]
  }

  function Balances(one: Balance, two: Balance, three: Balance): Ledger { map[1 := one, 2 := two, 3 := three] }

  /** The dispute of market 0: its winner, status, outcomes and reward account. */
  function Store(winner: OutcomeReport, sum: Balance, status: Status, outcomes: Outcomes, pot: Balance, balances: Ledger): Storage {
    Storage(map[], map[0 := outcomes], map[0 := DisputeInfo(winner, OutcomeInfo(sum, Shared([1])), status)], map[],
            balances, map[0 := pot], 0, Markets())
  }

  function Before(): Storage { Storage(map[], map[], map[], map[], Balances(0, 100, 100), map[], 0, Markets()) }

  function Started(): Storage { Store(Initially(), 10, Active(10, 15), map[Initially() := ByOne()], 0, Balances(0, 100, 100)) }

  function OneAdded(): Storage {
    Store(Second(), 20, Active(10, 15), map[Initially() := ByOne(), Second() := ByTwo()], 20, Balances(0, 80, 100))
  }

  function TwoAdded(status: Status): Storage {
    Store(Third(), 20, status, map[Initially() := ByOne(), Second() := ByTwo(), Third() := ByThree()], 40, Balances(0, 80, 80))
  }

  /** The winning outcome is refunded first. */
  function OneRefunded(status: Status): Storage {
    Store(Third(), 20, status, map[Initially() := ByOne(), Second() := ByTwo()], 20, Balances(0, 80, 100))
  }

  function OnePurged(): Storage { Store(Third(), 20, Finished, map[Second() := ByTwo()], 20, Balances(0, 80, 100)) }

  function AllPurged(): Storage { Store(Third(), 20, Finished, map[], 20, Balances(0, 80, 100)) }

  function PaidOut(): Storage { Store(Third(), 20, Finished, map[], 0, Balances(20, 80, 100)) }

  function Events(): seq<Event> {
    [Start(0, [InitialItem(Initially(), 1, 10)]), AddOutcome(2, 0, Second()), AddOutcome(3, 0, Third()), Destroy(0),
     Refund(0, [Third()]), Finish(0), Purge(0, [Initially()]), Purge(0, [Second()]), Reward(0)]
  }

  function Contributions(n: nat): History
    requires n <= 3
  {
    [Contribution(Initially(), 10, Initial), Contribution(Second(), 20, Fee), Contribution(Third(), 20, Fee)][..n]
  }

  function WorldWith(s: Storage, n: nat): World
    requires n <= 3
  {
    World(s, map[0 := Contributions(n)])
  }

  function Worlds(): seq<World> {
    [World(Before(), map[]), WorldWith(Started(), 1), WorldWith(OneAdded(), 2), WorldWith(TwoAdded(Active(10, 15)), 3),
     WorldWith(TwoAdded(Destroyed), 3), WorldWith(OneRefunded(Destroyed), 3), WorldWith(OneRefunded(Finished), 3),
     WorldWith(OnePurged(), 3), WorldWith(AllPurged(), 3), WorldWith(PaidOut(), 3)]
  }

  // ---- Every step ----

  lemma {:induction false} Starts()
    ensures StoreStep(Cfg(), Before(), Start(0, [InitialItem(Initially(), 1, 10)]), Started())
  {
    var item := InitialItem(Initially(), 1, 10);
    var d := DisputeOf(Before(), 0);
    assert [item][..0] == [];
    assert StartItems(Cfg(), Markets()[0], d, []) == Ok(d);
    assert map[][Initially() := ByOne()] == map[Initially() := ByOne()];
    assert Started().infos == Before().infos[0 := DisputeInfo(Initially(), OutcomeInfo(10, Shared([1])), Active(10, 15))];
    assert Started().outcomes == Before().outcomes[0 := map[Initially() := ByOne()]];
    assert Started().pots == Before().pots[0 := 0];
  }

  lemma {:induction false} AddsSecond()
    ensures StoreStep(Cfg(), Started(), AddOutcome(2, 0, Second()), OneAdded())
  {
    var s, s' := Started(), OneAdded();
    assert s'.outcomes == s.outcomes[0 := s.outcomes[0][Second() := ByTwo()]];
    assert s'.infos == s.infos[0 := DisputeInfo(Second(), OutcomeInfo(20, Shared([1])), Active(10, 15))];
    assert s'.pots == s.pots[0 := 20] && s'.balances == s.balances[2 := 80];
  }

  lemma {:induction false} AddsThird()
    ensures StoreStep(Cfg(), OneAdded(), AddOutcome(3, 0, Third()), TwoAdded(Active(10, 15)))
  {
    var s, s' := OneAdded(), TwoAdded(Active(10, 15));
    assert s'.outcomes == s.outcomes[0 := s.outcomes[0][Third() := ByThree()]];
    assert s'.infos == s.infos[0 := DisputeInfo(Third(), OutcomeInfo(20, Shared([1])), Active(10, 15))];
    assert s'.pots == s.pots[0 := 40] && s'.balances == s.balances[3 := 80];
  }

  lemma {:induction false} Ends()
    ensures StoreStep(Cfg(), TwoAdded(Active(10, 15)), Destroy(0), TwoAdded(Destroyed))
    ensures StoreStep(Cfg(), OneRefunded(Destroyed), Finish(0), OneRefunded(Finished))
  {
  }

  lemma {:induction false} RefundSingle(d: Dispute, l: Ledger, o: OutcomeReport)
    requires o in d.outcomes
    ensures RefundAll(d, l, [o]) == RefundOne(d, l, o)
  {
    assert [o][..0] == [];
    assert RefundAll(d, l, []) == (d, l);
  }

  lemma {:induction false} ThirdRefunded()
    ensures var s, s' := TwoAdded(Destroyed), OneRefunded(Destroyed);
            && RefundOne(DisputeOf(s, 0), s.balances, Third()) == (DisputeOf(s', 0), s'.balances)
            && s' == WithDispute(s, 0, DisputeOf(s', 0)).(balances := s'.balances)
  {
    var s, s' := TwoAdded(Destroyed), OneRefunded(Destroyed);
    assert s.outcomes[0] - {Third()} == s'.outcomes[0];
    assert s'.outcomes == s.outcomes[0 := s'.outcomes[0]] && s'.infos == s.infos[0 := s.infos[0]];
    assert s'.pots == s.pots[0 := 20] && s'.balances == s.balances[3 := 100];
  }

  lemma {:induction false} ThirdIsBatch()
    ensures IsBatch(Cfg(), DisputeOf(TwoAdded(Destroyed), 0).outcomes, [Third()])
  {
    assert |DisputeOf(TwoAdded(Destroyed), 0).outcomes| == 3;
  }

  lemma {:induction false} RefundsThird()
    ensures StoreStep(Cfg(), TwoAdded(Destroyed), Refund(0, [Third()]), OneRefunded(Destroyed))
  {
    hide RefundAll, RefundOne, IsBatch, WithDispute;
    var s := TwoAdded(Destroyed);
    ThirdIsBatch();
    RefundSingle(DisputeOf(s, 0), s.balances, Third());
    ThirdRefunded();
  }

  lemma {:induction false} PurgesFirst()
    ensures StoreStep(Cfg(), OneRefunded(Finished), Purge(0, [Initially()]), OnePurged())
  {
    var s, s' := OneRefunded(Finished), OnePurged();
    var d := DisputeOf(s, 0);
    assert |d.outcomes| == 2 && WinnerTaken(d) == d;
    assert Elements([Initially()]) == {Initially()} && d.outcomes - {Initially()} == s'.outcomes[0];
    assert s'.outcomes == s.outcomes[0 := s'.outcomes[0]] && s'.infos == s.infos[0 := s.infos[0]] && s'.pots == s.pots[0 := 20];
  }

  lemma {:induction false} PurgesSecond()
    ensures StoreStep(Cfg(), OnePurged(), Purge(0, [Second()]), AllPurged())
  {
    var s, s' := OnePurged(), AllPurged();
    var d := DisputeOf(s, 0);
    assert |d.outcomes| == 1 && WinnerTaken(d) == d;
    assert Elements([Second()]) == {Second()} && d.outcomes - {Second()} == s'.outcomes[0];
    assert s'.outcomes == s.outcomes[0 := s'.outcomes[0]] && s'.infos == s.infos[0 := s.infos[0]] && s'.pots == s.pots[0 := 20];
  }

  lemma {:induction false} PaysFirst()
    ensures StoreStep(Cfg(), AllPurged(), Reward(0), PaidOut())
  {
    var s, s' := AllPurged(), PaidOut();
    assert [1][..0] == [];
    assert PayEach(s.balances, [], 20) == s.balances;
    assert PayEach(s.balances, [1], 20) == Deposit(s.balances, 1, 20);
    assert s'.pots == s.pots[0 := 0] && s'.balances == s.balances[1 := 20];
  }

  lemma {:induction false} EveryStep(i: nat)
    requires i < |Events()|
    ensures StoreStep(Cfg(), Worlds()[i].s, Events()[i], Worlds()[i + 1].s)
  {
    hide StoreStep, Store;
    Starts();
    AddsSecond();
    AddsThird();
    Ends();
    RefundsThird();
    PurgesFirst();
    PurgesSecond();
    PaysFirst();
  }

  lemma {:induction false} EveryRecord(i: nat)
    requires i < |Events()|
    ensures Worlds()[i + 1].histories == Recorded(Cfg(), Worlds()[i], Events()[i])
  {
    hide Store, Before;
    assert Contributions(1) == [] + InitialContributions([InitialItem(Initially(), 1, 10)]);
    assert Contributions(2) == Contributions(1) + [Contribution(Second(), 20, Fee)];
    assert Contributions(3) == Contributions(2) + [Contribution(Third(), 20, Fee)];
  }

  lemma {:induction false} WorldsRun()
    ensures Run(Cfg(), Worlds(), Events())
  {
    hide StoreStep, Recorded;
    BalancesFit();
    forall i | 0 <= i < |Events()|
      ensures Step(Cfg(), Worlds()[i], Events()[i], Worlds()[i + 1])
    {
      EveryStep(i);
      EveryRecord(i);
    }
  }

  lemma {:induction false} BalancesFit()
    ensures Total(Balances(0, 100, 100)) == 200
  {
    var l := Balances(0, 100, 100);
    TotalRemove(l, 1);
    TotalRemove(l - {1}, 2);
    TotalRemove(l - {1} - {2}, 3);
    assert l - {1} - {2} - {3} == map[];
  }

  /** Two outcomes are added for a fee of 20 each, and the dispute is destroyed. One fee is refunded,
      then the dispute is finished: nobody can refund the other fee any more, though account 2 still
      has a claim to it. The winner is the outcome that was refunded, and the payout gives the fee of
      account 2 to account 1. */
  lemma {:induction false} FinishedBeforeRefunded()
    ensures Run(Cfg(), Worlds(), Events()) && IsDestroyed(Worlds()[5].s, 0) && Events()[5] == Finish(0)
    ensures RefundError(Worlds()[6].s, 0) == Some(GlobalDisputeNotDestroyed)
    ensures Claim(DisputeOf(Worlds()[6].s, 0).outcomes, 2) == 20
    ensures FeeAmount(HistoryOf(Worlds()[8], 0)) == 40 && Worlds()[8].s.infos[0].winner == Third()
    ensures forall a: AccountId :: BalanceOf(Worlds()[9].s.balances, a) - BalanceOf(Worlds()[8].s.balances, a) == if a == 1 then 20 else 0
  {
    hide Run, Claim, FeeAmount;
    WorldsRun();
    ClaimOfTwo();
    FeesOfAll();
  }

  lemma {:induction false} ClaimOfTwo()
    ensures Claim(OneRefunded(Finished).outcomes[0], 2) == 20
  {
    hide Claim;
    var left := OneRefunded(Finished).outcomes[0];
    ClaimRemove(left, Initially(), 2);
    ClaimRemove(left - {Initially()}, Second(), 2);
    assert left - {Initially()} - {Second()} == map[];
    NoClaim(2);
  }

  lemma {:induction false} FeesOfAll()
    ensures FeeAmount(Contributions(3)) == 40
  {
    hide FeeAmount;
    assert Contributions(3) == [] + [Contribution(Initially(), 10, Initial)] + [Contribution(Second(), 20, Fee)] + [Contribution(Third(), 20, Fee)];
    NoFees();
    FeesNext([], Contribution(Initially(), 10, Initial));
    FeesNext([] + [Contribution(Initially(), 10, Initial)], Contribution(Second(), 20, Fee));
    FeesNext([] + [Contribution(Initially(), 10, Initial)] + [Contribution(Second(), 20, Fee)], Contribution(Third(), 20, Fee));
  }

  lemma {:induction false} NoFees()
    ensures FeeAmount([]) == 0
  {
  }
}
