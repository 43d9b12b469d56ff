/** The vote of all token holders on a market: the records, and what each call does to one of
    its disputes. */
module GlobalDisputes {
  import opened Numbers
  import opened Ordered
  import opened Ledger
  import CourtTypes

  type AccountId = CourtTypes.AccountId
  type MarketId = CourtTypes.MarketId
  type OutcomeReport = CourtTypes.OutcomeReport
  type Market = CourtTypes.Market

  /** Who an outcome belongs to: whoever paid to add it, or the owners of an initial outcome. */
  datatype Possession = Paid(owner: AccountId, fee: Balance) | Shared(owners: seq<AccountId>)

  datatype OutcomeInfo = OutcomeInfo(sum: Balance, possession: Possession)

  datatype Status = Active(addOutcomeEnd: BlockNumber, voteEnd: BlockNumber) | Finished | Destroyed

  /** The outcome in the lead, what is cached of it, and the status. */
  datatype DisputeInfo = DisputeInfo(winner: OutcomeReport, outcomeInfo: OutcomeInfo, status: Status)

  type Outcomes = map<OutcomeReport, OutcomeInfo>

  /** A voter's locked amounts by market, in ascending market order. */
  type LockList = seq<(MarketId, Balance)>

  datatype InitialItem = InitialItem(outcome: OutcomeReport, owner: AccountId, amount: Balance)

  datatype Error =
    | AmountTooLow
    | InvalidGlobalDisputeStatus
    | InsufficientAmount
    | MaxOwnersReached
    | MaxVotesReached
    | NoFundsToReward
    | GlobalDisputeNotFound
    | OutcomeAlreadyExists
    | OutcomeDoesNotExist
    | OutcomeMismatch
    | OutcomesNotFullyCleaned
    | SharedPossessionRequired
    | UnfinishedGlobalDispute
    | AddOutcomePeriodIsOver
    | NotInGdVotingPeriod
    | GlobalDisputeNotDestroyed
    | GlobalDisputeAlreadyExists
    | MarketDoesNotExist
    | TransferFailed
    | NotScheduled  // whatever `add_auto_resolve` of the caller fails with

  datatype Result<+T> = Ok(value: T) | Err(error: Error)

  datatype Config = Config(
    addOutcomePeriod: BlockNumber,
    votingPeriod: BlockNumber,
    maxVotes: nat,
    maxOwners: nat,
    minVote: Balance,
    removeKeysLimit: nat,
    fee: Balance)
  {
    /** An outcome that a start stores for the first time has room for its owner. */
    predicate Valid() { 0 < maxOwners }
  }

  /** All storage items. The reward account of a market is held apart from the accounts. */
  datatype Storage = Storage(
    locks: map<AccountId, LockList>,
    outcomes: map<MarketId, Outcomes>,
    infos: map<MarketId, DisputeInfo>,
    currencyLocks: map<AccountId, Balance>,
    balances: Ledger,
    pots: map<MarketId, Balance>,
    now: BlockNumber,
    markets: map<MarketId, Market>)

  function LocksOf(s: Storage, a: AccountId): LockList { if a in s.locks then s.locks[a] else [] }

  function CurrencyLockOf(s: Storage, a: AccountId): Balance { if a in s.currencyLocks then s.currencyLocks[a] else 0 }

  // ---- One dispute ----

  /** What the storage holds for a market. */
  datatype Dispute = Dispute(info: Option<DisputeInfo>, outcomes: Outcomes, pot: Balance)

  function DisputeOf(s: Storage, m: MarketId): Dispute {
    Dispute(if m in s.infos then Some(s.infos[m]) else None,
            if m in s.outcomes then s.outcomes[m] else map[],
            if m in s.pots then s.pots[m] else 0)
  }

  /** The storage with a dispute replaced. */
  function WithDispute(s: Storage, m: MarketId, d: Dispute): Storage
    requires d.info.Some?
  {
    s.(infos := s.infos[m := d.info.value], outcomes := s.outcomes[m := d.outcomes], pots := s.pots[m := d.pot])
  }

  predicate IsActive(d: Dispute) { d.info.Some? && d.info.value.status.Active? }

  /** The outcome takes the lead if it reaches at least the cached sum. Of the outcome's record
      only the sum is cached, and the possession only for the very first outcome. */
  function UpdateWinner(info: Option<DisputeInfo>, o: OutcomeReport, oi: OutcomeInfo): DisputeInfo {
    match info
    case None => DisputeInfo(o, oi, Active(0, 0))
    case Some(prev) =>
      if oi.sum >= prev.outcomeInfo.sum then prev.(winner := o, outcomeInfo := prev.outcomeInfo.(sum := oi.sum))
      else prev
  }

  /** The dispute after an outcome gets a new record. */
  function Credit(d: Dispute, o: OutcomeReport, oi: OutcomeInfo): Dispute {
    d.(info := Some(UpdateWinner(d.info, o, oi)), outcomes := d.outcomes[o := oi])
  }

  // ---- Starting ----

  function StartItem(cfg: Config, market: Market, d: Dispute, item: InitialItem): Result<Dispute> {
    if !market.Matches(item.outcome) then Err(OutcomeMismatch)
    else if item.outcome in d.outcomes then
      var oi := d.outcomes[item.outcome];
      if !oi.possession.Shared? then Err(SharedPossessionRequired)
      else if |oi.possession.owners| >= cfg.maxOwners then Err(MaxOwnersReached)
      else Ok(Credit(d, item.outcome,
                     OutcomeInfo(SatAdd(oi.sum, item.amount), Shared(oi.possession.owners + [item.owner]))))
    else Ok(Credit(d, item.outcome, OutcomeInfo(item.amount, Shared([item.owner]))))
  }

  function StartItems(cfg: Config, market: Market, d: Dispute, items: seq<InitialItem>): Result<Dispute> {
    if items == [] then Ok(d)
    else
      match StartItems(cfg, market, d, items[..|items| - 1])
      case Err(e) => Err(e)
      case Ok(d') => StartItem(cfg, market, d', items[|items| - 1])
  }

  /** `scheduled` says whether the caller could schedule the resolution at the end of the vote. */
  function StartCall(cfg: Config, s: Storage, m: MarketId, items: seq<InitialItem>, scheduled: bool): Result<Storage> {
    if m !in s.markets then Err(MarketDoesNotExist)
    else if m in s.infos then Err(GlobalDisputeAlreadyExists)
    else
      match StartItems(cfg, s.markets[m], DisputeOf(s, m), items)
      case Err(e) => Err(e)
      case Ok(d) =>
        if !scheduled then Err(NotScheduled)
        else if d.info.None? then Err(GlobalDisputeNotFound)
        else
          var addOutcomeEnd := SatAddBlock(s.now, cfg.addOutcomePeriod);
          var status := Active(addOutcomeEnd, SatAddBlock(addOutcomeEnd, cfg.votingPeriod));
          Ok(WithDispute(s, m, d.(info := Some(d.info.value.(status := status)))))
  }

  // ---- Adding outcomes ----

  /** What a transfer may take: the free balance above the lock of the votes. */
  predicate CanTransfer(s: Storage, who: AccountId, amount: Balance) {
    amount + CurrencyLockOf(s, who) <= BalanceOf(s.balances, who)
  }

  function AddOutcomeError(cfg: Config, s: Storage, who: AccountId, m: MarketId, o: OutcomeReport): Option<Error> {
    if m !in s.markets then Some(MarketDoesNotExist)
    else if !s.markets[m].Matches(o) then Some(OutcomeMismatch)
    else if m !in s.infos then Some(GlobalDisputeNotFound)
    else if !s.infos[m].status.Active? then Some(InvalidGlobalDisputeStatus)
    else if s.now > s.infos[m].status.addOutcomeEnd then Some(AddOutcomePeriodIsOver)
    else if o in DisputeOf(s, m).outcomes then Some(OutcomeAlreadyExists)
    else if !CanTransfer(s, who, cfg.fee) then Some(TransferFailed)
    else None
  }

  /** The fee moves to the reward account and is the new outcome's first contribution. */
  function AfterAddOutcome(cfg: Config, s: Storage, who: AccountId, m: MarketId, o: OutcomeReport): Storage
    requires AddOutcomeError(cfg, s, who, m, o).None?
  {
    var d := DisputeOf(s, m);
    var paid := OutcomeInfo(cfg.fee, Paid(who, cfg.fee));
    WithDispute(s, m, Credit(d.(pot := SatAdd(d.pot, cfg.fee)), o, paid))
      .(balances := Slash(s.balances, who, cfg.fee))
  }

  /** Anybody can send tokens to a reward account. */
  function AfterDonate(s: Storage, who: AccountId, m: MarketId, amount: Balance): Storage {
    s.(balances := Slash(s.balances, who, amount), pots := s.pots[m := SatAdd(DisputeOf(s, m).pot, amount)])
  }

  // ---- Voting ----

  function EntryFor(list: LockList, m: MarketId): Balance {
    match Get(list, m)
    case Some(x) => x
    case None => 0
  }

  function VoteError(cfg: Config, s: Storage, who: AccountId, m: MarketId, o: OutcomeReport, amount: Balance): Option<Error> {
    var free := BalanceOf(s.balances, who);
    if free < amount then Some(InsufficientAmount)
    else if amount < cfg.minVote then Some(AmountTooLow)
    else if m !in s.infos then Some(GlobalDisputeNotFound)
    else if !s.infos[m].status.Active? then Some(InvalidGlobalDisputeStatus)
    else if !(s.infos[m].status.addOutcomeEnd < s.now <= s.infos[m].status.voteEnd) then Some(NotInGdVotingPeriod)
    else if o !in DisputeOf(s, m).outcomes then Some(OutcomeDoesNotExist)
    else match Get(LocksOf(s, who), m)
      case Some(x) => if free < SatAdd(amount, x) then Some(InsufficientAmount) else None
      case None => if |LocksOf(s, who)| >= cfg.maxVotes then Some(MaxVotesReached) else None
  }

  /** The voter's entry for the market grows by the amount, and the currency lock with it. */
  function AfterVote(cfg: Config, s: Storage, who: AccountId, m: MarketId, o: OutcomeReport, amount: Balance): Storage
    requires VoteError(cfg, s, who, m, o, amount).None?
  {
    var d := DisputeOf(s, m);
    var oi := d.outcomes[o];
    var entry := SatAdd(amount, EntryFor(LocksOf(s, who), m));
    WithDispute(s, m, Credit(d, o, oi.(sum := SatAdd(oi.sum, amount))))
      .(locks := s.locks[who := Put(LocksOf(s, who), m, entry)],
        currencyLocks := s.currencyLocks[who := Max(CurrencyLockOf(s, who), entry)])
  }

  // ---- Unlocking ----

  predicate Unresolved(infos: map<MarketId, DisputeInfo>, m: MarketId) {
    m in infos && infos[m].status.Active?
  }

  /** The entries of unresolved disputes. */
  function Retained(infos: map<MarketId, DisputeInfo>, list: LockList): LockList {
    if list == [] then []
    else
      var last := list[|list| - 1];
      Retained(infos, list[..|list| - 1]) + if Unresolved(infos, last.0) then [last] else []
  }

  function MaxEntry(list: LockList): Balance {
    if list == [] then 0 else Max(MaxEntry(list[..|list| - 1]), list[|list| - 1].1)
  }

  function AfterUnlock(s: Storage, voter: AccountId): Storage {
    var list := Retained(s.infos, LocksOf(s, voter));
    s.(locks := s.locks[voter := list], currencyLocks := s.currencyLocks[voter := MaxEntry(list)])
  }

  // ---- The end of a dispute ----

  function AfterFinish(s: Storage, m: MarketId): Storage
    requires m in s.infos
  {
    s.(infos := s.infos[m := s.infos[m].(status := Finished)])
  }

  function AfterDestroy(s: Storage, m: MarketId): Storage
    requires m in s.infos
  {
    if s.infos[m].status.Active? then s.(infos := s.infos[m := s.infos[m].(status := Destroyed)]) else s
  }

  /** A batch that a drain may take: different outcomes, as many as the limit allows. */
  ghost predicate IsBatch(cfg: Config, outcomes: Outcomes, batch: seq<OutcomeReport>) {
    && (forall i :: 0 <= i < |batch| ==> batch[i] in outcomes)
    && Distinct(batch)
    && |batch| == Min(|outcomes|, cfg.removeKeysLimit)
  }

  /** An outcome is removed, and whoever paid for it gets the fee back from the reward account. */
  function RefundOne(d: Dispute, l: Ledger, o: OutcomeReport): (Dispute, Ledger)
    requires o in d.outcomes
  {
    var d' := d.(outcomes := d.outcomes - {o});
    match d.outcomes[o].possession
    case Shared(_) => (d', l)
    case Paid(owner, fee) =>
      if fee <= d.pot then (d'.(pot := d.pot - fee), Deposit(l, owner, fee)) else (d', l)
  }

  function RefundAll(d: Dispute, l: Ledger, batch: seq<OutcomeReport>): (r: (Dispute, Ledger))
    requires forall i :: 0 <= i < |batch| ==> batch[i] in d.outcomes
    requires Distinct(batch)
    ensures r.0.info == d.info && r.0.outcomes == d.outcomes - Elements(batch)
  {
    if batch == [] then (d, l)
    else
      var before := RefundAll(d, l, batch[..|batch| - 1]);
      RefundOne(before.0, before.1, batch[|batch| - 1])
  }

  function RefundError(s: Storage, m: MarketId): Option<Error> {
    if m !in s.infos then Some(GlobalDisputeNotFound)
    else if !s.infos[m].status.Destroyed? then Some(GlobalDisputeNotDestroyed)
    else None
  }

  ghost function AfterRefund(cfg: Config, s: Storage, m: MarketId, batch: seq<OutcomeReport>): Storage
    requires m in s.infos && IsBatch(cfg, DisputeOf(s, m).outcomes, batch)
  {
    var r := RefundAll(DisputeOf(s, m), s.balances, batch);
    WithDispute(s, m, r.0).(balances := r.1)
  }

  function PurgeError(s: Storage, m: MarketId): Option<Error> {
    if m !in s.infos then Some(GlobalDisputeNotFound)
    else if !s.infos[m].status.Finished? then Some(UnfinishedGlobalDispute)
    else None
  }

  /** The record of the winner moves out of the outcomes before anything is drained. */
  function WinnerTaken(d: Dispute): Dispute
    requires d.info.Some?
  {
    var w := d.info.value.winner;
    if w in d.outcomes
    then d.(info := Some(d.info.value.(outcomeInfo := d.outcomes[w])), outcomes := d.outcomes - {w})
    else d
  }

  ghost function AfterPurge(cfg: Config, s: Storage, m: MarketId, batch: seq<OutcomeReport>): Storage
    requires m in s.infos && IsBatch(cfg, WinnerTaken(DisputeOf(s, m)).outcomes, batch)
  {
    var d := WinnerTaken(DisputeOf(s, m));
    WithDispute(s, m, d.(outcomes := d.outcomes - Elements(batch)))
  }

  function RewardError(s: Storage, m: MarketId): Option<Error> {
    if DisputeOf(s, m).outcomes != map[] then Some(OutcomesNotFullyCleaned)
    else if m !in s.infos then Some(GlobalDisputeNotFound)
    else if !s.infos[m].status.Finished? then Some(UnfinishedGlobalDispute)
    else if DisputeOf(s, m).pot == 0 then Some(NoFundsToReward)
    else None
  }

  /** Everybody of the list gets the same amount. */
  function PayEach(l: Ledger, owners: seq<AccountId>, amount: Balance): Ledger {
    if owners == [] then l
    else Deposit(PayEach(l, owners[..|owners| - 1], amount), owners[|owners| - 1], amount)
  }

  /** The whole part of a reward for each of `k` owners, and what cannot be divided. */
  function Part(reward: Balance, k: nat): Balance
    requires 0 < k
  {
    reward / k
  }

  function Rest(reward: Balance, k: nat): Balance
    requires 0 < k
  {
    reward % k
  }

  /** Everything goes to the paying owner, or in equal whole parts to the owners. */
  function AfterReward(s: Storage, m: MarketId): Storage
    requires m in s.infos
  {
    var d := DisputeOf(s, m);
    match s.infos[m].outcomeInfo.possession
    case Paid(owner, _) =>
      s.(pots := s.pots[m := 0], balances := Deposit(s.balances, owner, d.pot))
    case Shared(owners) =>
      if owners == [] then s
      else s.(pots := s.pots[m := Rest(d.pot, |owners|)], balances := PayEach(s.balances, owners, Part(d.pot, |owners|)))
  }
}
