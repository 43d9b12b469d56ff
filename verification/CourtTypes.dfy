/** The records of the court pallet. */
module CourtTypes {
  import opened Numbers
  import opened Ordered

  // Identifiers are compared and never computed with, so natural numbers stand for all of them.
  type AccountId = nat
  type MarketId = nat
  type CourtId = nat
  type Hash = nat

  datatype OutcomeReport = Categorical(index: nat) | Scalar(value: nat)

  datatype VoteItem = Outcome(report: OutcomeReport) | Binary(answer: bool)

  datatype VoteItemType = OutcomeType | BinaryType

  datatype ParticipantInfo = ParticipantInfo(
    stake: Balance,
    activeLock: Balance,
    prepareExitAt: Option<BlockNumber>,
    delegations: Option<seq<AccountId>>)

  datatype PoolItem = PoolItem(
    stake: Balance,
    account: AccountId,
    consumedStake: Balance,
    joinedAt: BlockNumber)

  /** Stakes by account, in ascending account order. */
  type Stakes = seq<(AccountId, Balance)>

  datatype Vote =
    | Delegated(stakes: Stakes)
    | Drawn
    | Secret(commitment: Hash)
    | Revealed(commitment: Hash, item: VoteItem, salt: Hash)
    | Denounced(commitment: Hash, item: VoteItem, salt: Hash)

  datatype Draw = Draw(participant: AccountId, weight: U32, vote: Vote, slashable: Balance)

  datatype CourtStatus = Open | Closed(winner: VoteItem) | Reassigned

  datatype AppealInfo = AppealInfo(backer: AccountId, bond: Balance, appealedItem: VoteItem)

  datatype RoundTiming = RoundTiming(
    preVote: BlockNumber,
    vote: BlockNumber,
    aggregation: BlockNumber,
    appeal: BlockNumber)

  datatype CourtInfo = CourtInfo(
    status: CourtStatus,
    appeals: seq<AppealInfo>,
    roundEnds: RoundTiming,
    itemType: VoteItemType)

  datatype MarketType = CategoricalMarket(categories: nat) | ScalarMarket

  /** What the court reads of a market: its kind, its dispute mechanism and the oracle's report. */
  datatype Market = Market(marketType: MarketType, usesCourt: bool, report: Option<OutcomeReport>) {
    predicate Matches(outcome: OutcomeReport) {
      match outcome
      case Categorical(i) => marketType.CategoricalMarket? && i < marketType.categories
      case Scalar(_) => marketType.ScalarMarket?
    }
  }

  datatype Error =
    | BelowMinJurorStake
    | AmountExceedsBalance
    | AmountBelowLastJoin
    | AmountBelowLowestJuror
    | CourtParticipantTwiceInPool
    | MaxCourtParticipantsReached
    | NoDelegations
    | MaxDelegationsReached
    | DelegatedToInvalidJuror
    | IdenticalDelegationsNotAllowed
    | SelfDelegationNotAllowed
    | JurorDoesNotExist
    | AlreadyPreparedExit
    | PrepareExitAtNotPresent
    | PrematureExit
    | NotEnoughJurorsAndDelegatorsStake
    | RemovalOutOfBounds  // `BoundedVec::remove` panics
    | CourtNotFound
    | NotInVotingPeriod
    | NotInAggregationPeriod
    | NotInAppealPeriod
    | CallerNotInSelectedDraws
    | JurorNotDrawn
    | InvalidVoteState
    | VoteItemIsNoOutcome
    | OutcomeMismatch
    | CallerDenouncedItself
    | CallerIsNotACourtParticipant
    | InvalidVoteItemForOutcomeCourt
    | InvalidVoteItemForBinaryCourt
    | CommitmentHashMismatch
    | JurorDidNotVote
    | JurorDelegated
    | VoteAlreadyRevealed
    | VoteAlreadyDenounced
    | MaxAppealsReached
    | AppealBondExceedsBalance
    | MarketDoesNotExist
    | MarketIsNotDisputed
    | MarketDoesNotHaveCourtMechanism
    | MarketReportNotFound
    | CourtIdToMarketIdNotFound
    | MarketIdToCourtIdNotFound
    | MaxCourtIdReached
    | StorageOverflow
    | CourtNotClosed
    | CourtAlreadyReassigned

  datatype Result<+T> = Ok(value: T) | Err(error: Error)

  /** The pallet's configuration. `hash` is the runtime's hash of (juror, vote item, salt). */
  datatype Config = Config(
    minJurorStake: Balance,
    maxCourtParticipants: nat,
    maxDelegations: nat,
    maxSelectedDraws: nat,
    maxAppeals: nat,
    votePeriod: BlockNumber,
    aggregationPeriod: BlockNumber,
    appealPeriod: BlockNumber,
    requestInterval: BlockNumber,
    inflationPeriod: BlockNumber,
    appealBond: Balance,
    resolutionsPerBlock: nat,
    hash: (AccountId, VoteItem, Hash) -> Hash)
  {
    /** A pool that can hold somebody, a positive section size and periods that take time. */
    ghost predicate Valid() {
      && 0 < minJurorStake
      && 0 < maxCourtParticipants
      && 0 < votePeriod && 0 < aggregationPeriod && 0 < appealPeriod && 0 < requestInterval
    }
  }
}
