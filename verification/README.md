# Zeitgeist: courts, global disputes and fixed-point arithmetic

This project models four parts of the Zeitgeist prediction market chain in Dafny and proves
properties of them:

- **The court pallet.** Jurors and delegators stake tokens in a sorted pool. For every disputed
  market a jury is drawn at random from the sections of the pool, votes by commit and reveal, can
  be appealed, and is finally paid or slashed.
- **The global disputes pallet.** All token holders vote on the outcome of a market by locking
  tokens; outcomes can be added for a fee, which is refunded or paid out in batches.
- **The bisection root finder** that approximates preimages of monotone functions.
- **Fixed-point arithmetic** with ten decimal places, and the conversion of decimal strings.

## How the model is built

| file | contents |
|---|---|
| `Numbers`, `Ordered`, `Ledger` | machine widths and saturating operations, ordered containers, an exact ledger |
| `SectionShuffle` | the sparse Fisher-Yates shuffle against a shuffle of a full sequence |
| `CourtTypes`, `CourtPool` | the records of the court, the pool, its agreement with the participants |
| `JurySelection`, `JuryDraws` | from section ends to hits, from hits to draws |
| `CourtVotes`, `CourtWinner` | how votes move, and who wins a round |
| `CourtStorage`, `CourtSteps` | the storage of the court and every call as a step |
| `CourtInvariants`, `CourtLocks`, `CourtRuns` | what every step keeps, lock accounting, theorems over all runs |
| `CourtExamples` | concrete inputs and a concrete run for what the code does differently than intended |
| `Payouts`, `Reassignment`, `Inflation` | how a reward is split, who pays whom after a court, and the periodic reward |
| `CourtSolvency` | when the losers of a court can pay, over all runs |
| `CourtMembership` | who can be drawn and who leaves a full pool, told without the functions that compute it |
| `CourtEvidence`, `CourtAppeals`, `CourtTimeline` | which calls of a run the stored votes, appeals, winners, members and rounds go back to |
| `CourtCalls`, `CourtPallet` | the court as an object whose methods perform the steps |
| `GlobalDisputes`, `GdHistory`, `GdSteps` | the records of global disputes, their history, every call as a step |
| `GdVoters`, `GdEscrow`, `GdRuns`, `GdFunds` | locks, fees, theorems over all runs, and what reward accounts hold and pay over all runs |
| `GdTimeline` | when outcomes can be added and votes cast, what unlocking, possessions and purges go back to, over all runs |
| `GdExamples` | a concrete run in which a destroyed dispute is finished |
| `GdPallet` | the global disputes pallet as an object whose methods perform the steps |
| `Bisection`, `FixedPoint`, `DecimalStrings` | the mathematics |

Both pallets are classes. Their storage items are the fields of one record, `store`, which the
methods reassign; an extrinsic is transactional, so a failing method leaves the record as it was.
A method promises a step predicate (`JoinStep`, `AppealStep`, ...) between the old and the new
record, so that the theorems about runs, which are stated for arbitrary sequences of steps, speak
about the methods.

Inputs of the model:

- Random choices are arbitrary: the random number generator may return any number of its range.
  `CourtSteps` keeps what a draw did as a log of *hits*: a section, the pool item it belongs to and
  where the vote weight goes.
- The hash of (juror, vote item, salt) is an arbitrary function of the configuration.
- Currency is an exact ledger. A slash takes what there is, and saturating operations saturate at
  `u128::MAX`. `usize` has 32 bits, as in the runtime.
- The prediction markets pallet is the caller of the dispute hooks. What it guarantees is written as
  preconditions: it opens one court per market and resolves a market only while it is disputed, when
  it is due or earlier on behalf of an administrator.

Assumptions, all of them explicit in contracts: `MaxSelectedDraws` is at least twice the draws of the
last round, and the stake for that many draws fits a balance (`ConfigOk`); a list of owners has room
for one (`Config.Valid` of global disputes); the block number stays below the largest one; all issued
tokens together fit a balance.

## What the code does that a reader may not expect

- `get_selections` collects the pool indices of delegators without a valid juror and removes them one
  after the other. Every removal moves the items behind it, so the k-th removal takes the item at
  `index + k`. `RemovalIsExactIff`: exactly the collected items are removed if and only if at most one
  index was collected. `RemovalPanics`: the removal panics if and only if the last index plus the
  number of indices exceeds the pool. The model reports the panic as `RemovalOutOfBounds`.
  `WrongItemRemoved` and `RemovalRunsOut` are draws of a first jury in which these things happen.
- A hit on such a delegator locks a section that no draw remembers. `LeakStays`: only what
  reassignments subtract again can release it.
- `on_resolution` releases the stake of the jury, and `reassign_court_stakes` subtracts it again.
  `ReassignCoversIff` says exactly when the locks of an account still cover its open courts
  afterwards, and `ReassignReleasesOpenStake` is a run after which they do not. `LockBounds`: an
  account is never short by more than what was subtracted again.
- The shares of the winners are rounded to the nearest, so together they can exceed the reward, and
  then the last winners are cut: `LastWinnerIsCut` pays 2, 2 and 1 for three equal stakes.
  `Payouts.NobodyIsCutIff` says exactly when nobody is cut, and `PayoutTheorem` bounds the cut.
- `determine_voting_winner` does not look at the status of a dispute: it turns a destroyed one into a
  finished one, and then refunds are refused. `RefundTheorem`: a destroyed dispute can be refunded
  exactly as long as nobody finishes it. `RewardTheorem`: the payout then is what refunds have left of
  the fees, and `FirstItemTheorem`: if the winning outcome was refunded, the owner of the first
  initial item gets it. `FinishedBeforeRefunded` is a run in which that happens.
- A juror who exits between the resolution of a court and its reassignment may have nothing left to
  slash. `IncentivesExactIff` says exactly when all losing stakes are collected, and `LossesCovered`
  that they are if nobody at risk exits.
- The documentation of `calc_preimage` says that without a preimage the end closer to the preimage is
  returned. The code compares the images: it returns the end whose image is closer to the value.
- `bdiv(bmul(x, y), y) == x` holds for all `x` exactly if `y` is at least one (`RoundTripIff`).
- Reading a decimal string looks at one digit behind the last place and ignores what follows, and an
  empty string with at least one place reads as zero.

## Model

| member | source | states |
|---|---|---|
| SectionShuffle.GetNRandomSectionEnds | zrml/court/src/lib.rs:1407-1440 | for every sequence of random choices the map of touched slots yields exactly the ends of the sections that a shuffle of the full sequence picks: n of them, all different, in ascending order |
| SectionShuffle.ShuffledIsPermutation | zrml/court/src/lib.rs:1416-1433 | after every round the slots are a permutation of all sections |
| SectionShuffle.FinalSlots | zrml/court/src/lib.rs:1419-1432 | the first i slots never change after round i |
| SectionShuffle.EveryDrawIsReachable | zrml/court/src/lib.rs:1419-1437 | every ordered selection of different sections results from some choices |
| SectionShuffle.ChoicesAreDetermined | zrml/court/src/lib.rs:1419-1437 | no two sequences of choices pick the same sections in the same order: with the previous row, a bijection |
| SectionShuffle.EndsFit | zrml/court/src/lib.rs:1403-1437 | every section end is a multiple of MinJurorStake between MinJurorStake and the total |
| CourtPool.SearchFindsAccount | zrml/court/src/lib.rs:1874-1890 | searching a sorted pool by the stored stake finds exactly the account's item, or that there is none |
| CourtPool.JoinedOk | zrml/court/src/lib.rs:1187-1297 | joining keeps the pool strictly sorted by (stake, account), bounded, and in agreement with the participants and the currency locks; the new item is in it |
| CourtMembership.JoinTheorem | zrml/court/src/lib.rs:1207-1281 | a newcomer is added to the items of the pool, with what courts still lock as consumed stake; if and only if the pool is full it takes the place of the weakest item, the one with the smallest stake and among those the smallest account, and its stake is larger |
| CourtMembership.RejoinTheorem | zrml/court/src/lib.rs:1226-1281 | an account in the pool replaces its own item and no other, and keeps its consumed stake and its date |
| CourtMembership.JoinedParticipants | zrml/court/src/lib.rs:1283-1296 | the caller has the new stake, the given delegations, no pending exit and the same active lock; nobody else changes |
| CourtMembership.JoinRefusedIff | zrml/court/src/lib.rs:1192-1250 | joining passes its checks if and only if the stake is large enough, free, not less than before, and larger than some stake of a full pool of others |
| CourtMembership.PoolOrder | zrml/court/src/lib.rs:1874-1890 | the stakes of the pool ascend, and equal stakes are in the order of the accounts |
| CourtPool.LeavingOk | zrml/court/src/lib.rs:618-644 | preparing an exit keeps that agreement: the account leaves the pool and stays a participant |
| CourtPool.ExitedOk | zrml/court/src/lib.rs:660-702 | exiting keeps that agreement: everything is unlocked but what courts still lock |
| CourtPool.UnconsumedIsSectioned | zrml/court/src/lib.rs:1773-1782 | the unconsumed stake without its remainder is the number of whole sections times MinJurorStake, and zero exactly for no section |
| CourtPool.TotalsSearchable | zrml/court/src/lib.rs:1772-1790 | the totals below a section end come before all others and at most one entry equals it, so the binary search is well defined, even where the totals saturate |
| CourtPool.HitInterval | zrml/court/src/lib.rs:1681-1686 | a section end hits the item whose interval (previous total, own total] contains it, and never an item with nothing left |
| CourtPool.IntervalUnique | zrml/court/src/lib.rs:1681-1686 | that item is the only one |
| JurySelection.SelectionTheorem | zrml/court/src/lib.rs:1454-1651 | for every bench and every run of hits: a delegator is selected with weight 0, one section at risk for every hit and sorted delegated stakes that count the hits per juror; a juror with the weight of own and delegated hits and only the own ones at risk; all weights and stakes add up to the placed hits |
| CourtMembership.TargetIff | zrml/court/src/lib.rs:1552-1651 | a hit goes to its participant if and only if the participant does not delegate, to nobody if and only if no delegate has a pool item and no delegations of its own, and otherwise to such a delegate |
| CourtMembership.DrawnAreEligible | zrml/court/src/lib.rs:1454-1651 | every draw with a vote belongs to somebody with a pool item and no delegations; every delegated draw to somebody with a pool item, and each of its stakes stands behind one of the own delegates who has a pool item and no delegations |
| JuryDraws.NextLock | zrml/court/src/lib.rs:1687-1710 | every hit, however many came before, locks exactly one MinJurorStake: the unconsumed stake never runs short |
| JuryDraws.AfterHitsOk | zrml/court/src/lib.rs:1708-1710 | consumed stake and active lock of a participant grow together and stay within the stake |
| JuryDraws.RemovalTheorem | zrml/court/src/lib.rs:1716-1718 | removing the collected indices takes away exactly the positions index + k of the k-th removal |
| JuryDraws.RemovalPanics | zrml/court/src/lib.rs:1716-1718 | the removal runs past the end if and only if the last index plus the number of indices exceeds the length |
| JuryDraws.RemovalIsExactIff | zrml/court/src/lib.rs:1716-1718 | exactly the items at the collected indices are removed if and only if at most one index was collected |
| CourtExamples.WrongItemRemoved | zrml/court/src/lib.rs:1716-1718 | a consistent pool and a first jury of 31 sections in which index 0 is collected twice and the removal takes a juror whose index was not collected |
| CourtExamples.RemovalRunsOut | zrml/court/src/lib.rs:1716-1718 | a consistent pool and 31 sections for which the removal panics |
| JuryDraws.ChosenOk | zrml/court/src/lib.rs:1657-1721 | every outcome of a draw, removals included, keeps the pool and the participants in agreement |
| JuryDraws.JuryTheorem | zrml/court/src/lib.rs:1764-1870 | n sections with f of them on delegators without a valid juror give draws in strict account order, at most 2(n - f) of them, with total weight n - f and total slashable (n - f) MinJurorStake; each is a juror without delegated stakes or a weightless delegator whose sorted, bounded stakes add up to its slashable; behind every juror is an own stake or that of a drawn delegator |
| JuryDraws.LockAccounting | zrml/court/src/lib.rs:1694-1710 | what a draw locks for an account is what the account has at risk in the draws plus one section for every hit without a valid juror |
| CourtVotes.FindDrawFinds | zrml/court/src/lib.rs:733-747 | the binary search over draws finds exactly the caller's draw |
| CourtVotes.CastMoves | zrml/court/src/lib.rs:717-763 | voting moves one vote from drawn or secret to secret and nothing else |
| CourtVotes.OpenMoves | zrml/court/src/lib.rs:784-933 | denouncing and revealing move one secret vote, with its commitment, and the commitment is the hash of the juror's own account, item and salt; which of the two they leave is stated by the rows of `CourtEvidence` |
| CourtVotes.MovesKeepShape | zrml/court/src/lib.rs:717-933 | votes can move without changing what anybody has at risk |
| CourtWinner.CountScores | zrml/court/src/lib.rs:2094-2104 | the scores are, for each revealed item and no other, its total weight as far as a u32 can tell |
| CourtWinner.GetWinner | zrml/court/src/lib.rs:2090-2134 | the item whose score exceeds all others; the last winner exactly when the highest score is shared; nothing when nobody revealed, for every iteration order |
| CourtWinner.WinnerIsWinner | zrml/court/src/lib.rs:2088-2134 | that description determines the winner |
| CourtWinner.WinnerPermute | zrml/court/src/lib.rs:2090-2134 | permuting the draws does not change the winner |
| CourtStorage.RemoveResolveCounts | zrml/prediction-markets/src/lib.rs:2993-3008 | removing a market from a block lowers how often it is scheduled there by one and changes no other entry |
| CourtStorage.AddResolveCounts | zrml/prediction-markets/src/lib.rs:3027-3039 | adding a market to a block raises how often it is scheduled there by one and changes no other entry |
| CourtStorage.DrawsWeightIsPower | zrml/court/src/lib.rs:1991-1998 | without saturation a round after k appeals draws 2^(k + 5) - 1 sections |
| CourtStorage.DistinctIffIncreasing | zrml/court/src/lib.rs:592-599 | a list of delegations has duplicates exactly if its sorted form is not strictly increasing |
| CourtStorage.UnlockedOk | zrml/court/src/lib.rs:1811-1828 | releasing any draws keeps the pool and the participants in agreement |
| CourtInvariants.AppealMovesLater | zrml/court/src/lib.rs:984-1005 | an appeal never moves the resolution earlier, and moves it to a strictly later block unless block numbers saturate |
| CourtInvariants.ResolvedWhenDue | zrml/court/src/lib.rs:2289-2303 | a market that is due is at the end of its appeal period |
| CourtInvariants.StoreStep | zrml/court/src/lib.rs:252-303 | every call and hook keeps: pool and participants in agreement, one court per market and back, juries in shape with opened votes matching their hashes, rounds whose windows follow each other from their start, at most MaxAppeals appeals, RequestBlock in the future, one scheduled resolution at the end of the appeal period (none after the last appeal), an open court for every disputed market that has one, and only outcomes among appealed and revealed items |
| CourtInvariants.WindowsFollow | zrml/court/src/types.rs:220-238 | the windows of a round are in order and take their full periods unless block numbers saturate |
| CourtInvariants.AfterAbandonOk | zrml/court/src/lib.rs:2440-2519 | giving up the court of any market, open or not, keeps all of that |
| CourtInvariants.LatestIsOutcome | zrml/court/src/lib.rs:2138-2156 | whatever a court resolves on is an outcome |
| CourtLocks.LockStep | zrml/court/src/lib.rs:1444-1451 | no step makes the active lock of an account larger than its stake at risk in open courts plus the locks of hits without a valid juror, and none makes it smaller than that but a reassignment, by at most the reassigned stake of the account |
| CourtRuns.RunTheorem | zrml/court/src/lib.rs:485-2519 | all of this, the last commitments and the recorded winners hold after any run of calls |
| CourtRuns.LockBounds | zrml/court/src/lib.rs:1811-1869 | in every run the active lock of every account is at most its stake at risk in open courts plus what failed hits left, and short of that by no more than what reassignments subtracted again |
| CourtRuns.LockTheorem | zrml/court/src/lib.rs:1811-1869 | as long as no reassigned court had put stake of the account at risk, the two are equal |
| CourtRuns.ReleaseNeverSaturates | zrml/court/src/lib.rs:1811-1828 | for such an account no release of an open court saturates, and if it has something at risk it is still a participant |
| CourtRuns.LeakStays | zrml/court/src/lib.rs:1694-1710 | in every run, what a hit without a valid juror has locked stays locked up to what reassignments subtract again |
| CourtRuns.ReassignCoversIff | zrml/court/src/lib.rs:1124-1128 | in every state: after a reassignment the lock of an account covers its open courts if and only if it has nothing at risk in them, or the lock covered them and the reassigned court together |
| CourtExamples.ReassignReleasesOpenStake | zrml/court/src/lib.rs:1124-1128 | a run of nine calls that ends with a reassignment after which an account has 31 tokens at risk in an open court and nothing locked |
| CourtRuns.RoundTheorem | zrml/court/src/lib.rs:717-933 | within a round the jury is fixed, a vote only advances from drawn to secret to revealed or denounced, delegations never move, and nothing changes after the aggregation period |
| CourtEvidence.CastIff | zrml/court/src/lib.rs:717-763 | a vote is accepted if and only if it comes in the vote period from a juror whose vote is drawn or secret; that vote, and no other, is then secret with the new commitment |
| CourtEvidence.DenounceIff | zrml/court/src/lib.rs:784-849 | a denunciation is accepted if and only if it comes in the vote period from another account for a fitting item whose hash is the secret vote of a participant; that vote, and no other, is then denounced |
| CourtEvidence.RevealIff | zrml/court/src/lib.rs:868-933 | a reveal is accepted if and only if it comes in the aggregation period from a participant for a fitting item whose hash is the own secret vote; that vote, and no other, is then revealed |
| CourtEvidence.EvidenceTheorem | zrml/court/src/lib.rs:717-933 | in every run: the draw of every stored vote was made by the event that started the round, when its account could be drawn; a secret vote was cast by its juror in the vote period of the round, a denounced one denounced by somebody else in the vote period, a revealed one revealed by its juror in the aggregation period, and a drawn one never cast |
| CourtEvidence.JurySize | zrml/court/src/lib.rs:1991-1998 | the jury after k appeals has the weight 2^(k + 5) - 1, less the hits that found nobody |
| CourtEvidence.OutcomeMatches | primitives/src/market.rs:152-165 | an outcome matches a market exactly if it is one of its categories, or a number for a scalar market |
| CourtRuns.CommitmentStep | zrml/court/src/lib.rs:717-933 | every vote shows the last commitment its juror cast in the round |
| CourtRuns.WinnerStep | zrml/court/src/lib.rs:2289-2303 | the winner recorded at a resolution after the aggregation period is what the stored draws still decide, until the stakes are reassigned |
| CourtAppeals.ResolutionTheorem | zrml/court/src/lib.rs:2138-2156 | in every run a resolution closes the court with what the votes of its rounds decide: the item that leads, the report if nobody revealed, and on a tie what they decided at the last appeal, or the report without an appeal |
| CourtAppeals.TieTheorem | zrml/court/src/lib.rs:2138-2156 | a tie decides what the round of the last appeal decided, however many ties came before |
| CourtAppeals.TieResolves | zrml/court/src/lib.rs:2138-2156 | if an item leads at an appeal, no appeal follows and the last round is a tie, the court is closed with that item |
| CourtAppeals.AppealTheorem | zrml/court/src/lib.rs:957-1027 | every stored appeal goes back to a call in the appeal period, in order, with its caller, a bond that doubles with every appeal, and what the court would have resolved on |
| CourtAppeals.BondDoubles | zrml/court/src/lib.rs:2526-2533 | the bond of appeal n is the configured one doubled n times, as far as it fits |
| CourtAppeals.AppealIff | zrml/court/src/lib.rs:957-981 | when an appeal passes its checks, both ways |
| CourtAppeals.CourtsTakeOutcomes | zrml/court/src/lib.rs:2266-2268 | in every run every court takes votes on outcomes |
| CourtAppeals.AppealedOutcomesAre | zrml/court/src/lib.rs:2467-2485 | a global dispute gets exactly the appealed outcomes that are not the oracle's |
| CourtTimeline.MemberTheorem | zrml/court/src/lib.rs:1187-1297 | in every run a participant has the delegations of its last joining, and its stake unless it has left since |
| CourtTimeline.ExitTheorem | zrml/court/src/lib.rs:660-702 | whoever leaves has asked for it at least an inflation period before and has not joined since; afterwards the currency lock is exactly what courts lock |
| CourtTimeline.ExitIff | zrml/court/src/lib.rs:660-702 | such a call is accepted, and no other |
| CourtTimeline.AwayTheorem | zrml/court/src/lib.rs:618-644 | since an account has asked to leave, and until it joins again, it has no item in the pool |
| CourtTimeline.RequestTheorem | zrml/court/src/lib.rs:485-495 | votes can start at the first request block plus multiples of the interval, the next of which lies ahead by at most one interval |
| CourtTimeline.RoundBegins | zrml/court/src/lib.rs:2256-2268 | a round starts at the request block, which lies ahead |
| CourtTimeline.OnceTheorem | zrml/court/src/lib.rs:1046-1152 | in every run a market is resolved by its court at most once and the stakes of a court are reassigned at most once |
| CourtTimeline.ReassignAfterResolve | zrml/court/src/lib.rs:1046-1060 | stakes are reassigned only after a resolution of the court |
| CourtTimeline.ScheduleBound | zrml/prediction-markets/src/lib.rs:3027-3039 | no block ever gets more resolutions than it may hold |
| Reassignment.ClassifiedOnce | zrml/court/src/lib.rs:1071-1120 | tardy and losing stakes plus winning stakes are all slashable stakes, in total and for every account: none is lost or counted twice |
| Reassignment.SlashLosers | zrml/court/src/lib.rs:2005-2054 | the loop slashes everybody behind a juror who did not reveal the winner, collects exactly what was taken, and lists the others with their total |
| Reassignment.PayWinners | zrml/court/src/lib.rs:2069-2079 | the loop pays every winner the rounded share of the reward, cut when the reward runs out, and leaves the rest: the ledger and the rest that the next rows are about |
| Payouts.NobodyIsCutIff | zrml/court/src/lib.rs:2069-2079 | every winner is paid the full share if and only if the rounded shares together do not exceed the reward |
| Payouts.LastWinnerIsCut | zrml/court/src/lib.rs:2069-2079 | stakes of 1, 1 and 1 and a reward of 5 are paid 2, 2 and 1 |
| Payouts.ShareIsNear | zrml/court/src/lib.rs:2069-2079 | a full share is less than half a unit above stake * reward / total, and below it by at most half a unit and reward / 10^18 |
| Payouts.PayoutTheorem | zrml/court/src/lib.rs:2069-2084 | for k winners the full shares exceed the reward by less than k / 2, no account is cut by more than that excess, at most k (1/2 + reward / 10^18) is left for the treasury, and the full shares of an account are near its part of the reward |
| Reassignment.SlashLosersToAwardWinners | zrml/court/src/lib.rs:2001-2085 | the ledger after slashing losers, emptying the pot, paying winners and giving the rest to the treasury |
| Reassignment.AddDrawMeasure | zrml/court/src/lib.rs:1066-1120 | recording a draw adds its revealed or delegated stake to winning and losing stakes, in total and for every account, exactly as the draws alone classify it, and nothing for a tardy juror |
| Reassignment.CollectMeasure | zrml/court/src/lib.rs:1122-1141 | so the records of all draws hold exactly the winning and losing stakes of the draws |
| Reassignment.ReassignConserves | zrml/court/src/lib.rs:1046-1152 | no token is made or lost by a reassignment |
| Reassignment.ReassignBalance | zrml/court/src/lib.rs:1046-1152 | the pot is emptied, every other account loses exactly its losing stakes, or all it has; winners get what the split of the reward pays them, and the treasury also gets what is left |
| Reassignment.ReassignShares | zrml/court/src/lib.rs:1046-1152 | if somebody wins: what an account gets for its winning stakes is its full shares but for a cut of less than half a token per winner, and the full shares are near its part of the reward |
| Reassignment.SomebodyWinsIff | zrml/court/src/lib.rs:2005-2054 | the winning stakes of a jury add up to more than zero exactly if a juror revealed the winning item, even if that juror has nothing of its own at risk |
| Reassignment.NobodyWins | zrml/court/src/lib.rs:2081-2084 | otherwise the treasury gets everything that was taken |
| Reassignment.LossWithinRisk | zrml/court/src/lib.rs:1046-1152 | no account loses more than the slashable of its draws |
| Reassignment.IncentivesExactIff | zrml/court/src/lib.rs:2056-2069 | the winners share the old pot and exactly all losing stakes if and only if every account can pay what it loses, and never share more |
| CourtSolvency.StakeCovers | zrml/court/src/lib.rs:660-702 | in every run: what an account has at risk in a court that was open is covered by the currency lock of the account until it exits, resolved or not, unless another reassignment had lowered its lock before |
| CourtSolvency.LossesCovered | zrml/court/src/lib.rs:1046-1152 | so if nobody at risk exits between resolution and reassignment and balances cover the currency locks, all losing stakes are collected |
| Inflation.HandleInflation | zrml/court/src/lib.rs:1300-1400 | nothing outside the ends of periods; otherwise every eligible member is credited its part of the mint, as far as it lasts, and the rest is burned |
| Inflation.NobodyIsCutIff | zrml/court/src/lib.rs:1367-1380 | everybody is credited the full part if and only if the full parts fit the mint, which they do unless the total of the stakes saturates |
| Inflation.CreditsFit | zrml/court/src/lib.rs:1362-1380 | at every point the credits fit the mint |
| Inflation.LeftoverBound | zrml/court/src/lib.rs:1383-1396 | for k eligible items less than k (mint / 10^18 + 1) is burned |
| Inflation.CreditedFacts | zrml/court/src/lib.rs:1362-1380 | every existing account gets what its items are credited, and the ledger grows by no more than all credits |
| Inflation.MintTheorem | zrml/court/src/lib.rs:1306-1349 | nothing is minted outside the ends of periods; otherwise never more than the yearly inflation of the supply, nor than its part for the period, and less than one token per block below that part if somebody with a stake has been in the pool for a period |
| Inflation.MemberTheorem | zrml/court/src/lib.rs:1353-1380 | a member who joined less than a period ago gets nothing; any other gets its part by stake among those others, rounded down by less than a token and a 10^18th of the mint |
| CourtCalls.InsertionSucceeds | zrml/court/src/lib.rs:1251-1281 | the two errors of the insertion are unreachable |
| CourtCalls.JoinPlanIs | zrml/court/src/lib.rs:1192-1250 | the checks and searches of joining give the error, the pool and the item that looking at every item would give: those of the rows of `CourtMembership` |
| CourtCalls.DelegateChecks | zrml/court/src/lib.rs:576-600 | the checks of a delegation find exactly the errors of the list, and the stored list is sorted, bounded and without the caller |
| CourtMembership.DelegateIffEligible | zrml/court/src/lib.rs:565-606 | a delegation is accepted if and only if the list is not empty, not too long, without duplicates and without the caller, and every delegate has a pool item and no delegations |
| CourtCalls.CumulativeSectionEnds | zrml/court/src/lib.rs:1768-1796 | the loop computes the running totals of whole sections with their zero marks |
| CourtCalls.RemoveIndices | zrml/court/src/lib.rs:1716-1718 | the loop removes one index after the other and stops where a removal panics |
| CourtCalls.AppealPasses | zrml/court/src/lib.rs:957-975 | an appeal that passes its checks is about an open court of a disputed market |
| CourtPallet.Court.DoJoinCourt | zrml/court/src/lib.rs:1187-1297 | joins the pool, in place of the own item or of the weakest one of a full pool, as `CourtMembership` says, or fails with the error of the call and changes nothing |
| CourtPallet.Court.JoinCourt | zrml/court/src/lib.rs:531-542 | joins as a juror |
| CourtPallet.Court.Delegate | zrml/court/src/lib.rs:565-606 | joins as a delegator with the sorted delegations, all of which have a pool item and no delegations, or fails with the first error of the list or of joining |
| CourtPallet.Court.PrepareExitCourt | zrml/court/src/lib.rs:618-644 | leaves the pool, or fails and changes nothing |
| CourtPallet.Court.ExitCourt | zrml/court/src/lib.rs:660-702 | unlocks what no court locks after a full inflation period, or fails and changes nothing |
| CourtPallet.Court.Vote | zrml/court/src/lib.rs:717-763 | commits a vote in the vote period, or fails and changes nothing |
| CourtPallet.Court.DenounceVote | zrml/court/src/lib.rs:784-849 | denounces the secret vote of another account in the vote period, exactly when `CourtEvidence.DenounceIff` says, or fails and changes nothing |
| CourtPallet.Court.RevealVote | zrml/court/src/lib.rs:868-933 | reveals the own secret vote in the aggregation period, exactly when `CourtEvidence.RevealIff` says, or fails and changes nothing |
| CourtPallet.Court.GetValidDelegatedJuror | zrml/court/src/lib.rs:1552-1586 | some delegate with a pool item and no delegations, and none if and only if there is no such delegate |
| CourtPallet.Court.AddToSelections | zrml/court/src/lib.rs:1589-1651 | the selections with the hit placed on the participant or on one of the valid delegates |
| CourtPallet.Court.SelectOne | zrml/court/src/lib.rs:1679-1714 | one section end: the hit item locks and consumes one whole section |
| CourtPallet.Court.GetSelections | zrml/court/src/lib.rs:1657-1721 | after all section ends: the tally of the hits, the locks, the consumed stake and the removals |
| CourtPallet.Court.ChooseMultipleWeighted | zrml/court/src/lib.rs:1764-1807 | a draw of n sections through some hits; it fails exactly for too few sections or a removal past the end, and then changes nothing |
| CourtPallet.Court.SelectParticipants | zrml/court/src/lib.rs:1837-1870 | the draw for the round after the given number of appeals |
| CourtPallet.Court.UnlockParticipantsFromLastDraw | zrml/court/src/lib.rs:1811-1828 | every participant is released by what the draws put at risk |
| CourtPallet.Court.GetLatestWinnerVoteItem | zrml/court/src/lib.rs:2138-2156 | the item that leads the round, on a tie the item of the last appeal, or the report; `CourtAppeals.ResolutionTheorem` tells it from the votes of all rounds |
| CourtPallet.Court.OnDispute | zrml/court/src/lib.rs:2242-2287 | opens a court with a drawn jury and a scheduled resolution, or fails for a stated reason and changes nothing |
| CourtPallet.Court.CheckAppeal | zrml/court/src/lib.rs:957-981 | the error of an appeal, or the item that it appeals |
| CourtPallet.Court.NextRound | zrml/court/src/lib.rs:984-1007 | draws and schedules a round and releases the old jury, or changes nothing |
| CourtPallet.Court.Appeal | zrml/court/src/lib.rs:957-1027 | reserves the bond, records the appealed item and starts the next round, or none after the last appeal; or fails for a stated reason and changes nothing |
| CourtPallet.Court.OnResolution | zrml/court/src/lib.rs:2289-2314 | for a disputed market, due or not: releases the jury and records the winner, or fails for a stated reason and changes nothing; WinnerVoteItemIsNoOutcome is unreachable |
| CourtPallet.Court.OnGlobalDispute | zrml/court/src/lib.rs:2440-2500 | for any market: releases the jury, removes the court and hands on the appealed outcomes that are not the report; fails for a stated reason and changes nothing |
| CourtPallet.Court.Clear | zrml/court/src/lib.rs:2502-2519 | for any market: releases the jury and removes the court; again, it changes nothing |
| CourtPallet.Court.HandleDraws | zrml/court/src/lib.rs:1122-1141 | all draws are released, the tardy slashed and the rest recorded |
| CourtPallet.Court.ReassignCourtStakes | zrml/court/src/lib.rs:1046-1152 | reassigns the stakes of a closed court once; the balances are those of `Reassigned` |
| CourtPallet.Court.OnInitialize | zrml/court/src/lib.rs:485-495 | the next block: inflation, then RequestBlock ahead of the block |
| GdHistory.LeaderNext | zrml/global-disputes/src/lib.rs:681-704 | comparing a new sum with the cached one alone keeps the leader of the whole history: the highest sum, the last to reach it on a tie |
| GdHistory.LeaderUnique | zrml/global-disputes/src/lib.rs:681-704 | there is only one such leader |
| GdHistory.CreditOk | zrml/global-disputes/src/lib.rs:681-704 | crediting an outcome keeps cache, stored sums, owners and fees in agreement with the history |
| GdSteps.StartItemsOk | zrml/global-disputes/src/lib.rs:819-853 | starting builds the records of the initial items and never meets a paid outcome |
| GdSteps.DisputeKept | zrml/global-disputes/src/lib.rs:276-883 | every call keeps the records of every dispute in agreement with its history |
| GdVoters.MaxEntryPut | zrml/global-disputes/src/lib.rs:551-576 | extending the currency lock follows the largest entry |
| GdVoters.RetainedEntry | zrml/global-disputes/src/lib.rs:622-646 | unlocking does not touch the entries of unresolved disputes |
| GdVoters.VoterKept | zrml/global-disputes/src/lib.rs:510-673 | every call keeps each voter's list strictly sorted by market and bounded, and the currency lock equal to its largest entry |
| GdVoters.EntryKept | zrml/global-disputes/src/lib.rs:510-673 | every call keeps the entry of an active dispute equal to all the voter has put on it |
| GdEscrow.RefundAllPays | zrml/global-disputes/src/lib.rs:351-376 | a refund batch turns every account's claims into balance, exactly |
| GdEscrow.RewardPays | zrml/global-disputes/src/lib.rs:706-764 | the payout is everything to a paid owner, or the same whole part to every shared owner with less than one token per owner left |
| GdEscrow.RewardOnce | zrml/global-disputes/src/lib.rs:456-489 | rewarding again fails or moves nothing |
| GdEscrow.MoneyKept | zrml/global-disputes/src/lib.rs:276-764 | no call makes or loses tokens |
| GdRuns.RunTheorem | zrml/global-disputes/src/lib.rs:276-883 | all of this holds after any run of calls |
| GdRuns.WinnerTheorem | zrml/global-disputes/src/lib.rs:681-704 | in every reachable state the cached winner leads the whole history; while active the cached sum is the largest stored sum and the winner has it |
| GdRuns.LockTheorem | zrml/global-disputes/src/lib.rs:510-673 | in every reachable state the currency lock covers every entry, and the entry of an active dispute is all the voter put on it |
| GdRuns.NeverReleased | zrml/global-disputes/src/lib.rs:611-673 | what backs a dispute stays locked for as long as it is active |
| GdTimeline.UnlockTheorem | zrml/global-disputes/src/lib.rs:611-673 | after unlocking in any run the entry of every dispute that is not active is gone, every other entry is all the voter put on the dispute, and the currency lock is the largest of those: a voter without a vote on an active dispute has no lock |
| GdTimeline.StatusTheorem | zrml/global-disputes/src/lib.rs:780-883 | a dispute was started once; it is active exactly until it is finished or destroyed, with the two periods counted from the start, finished if it ever was finished, and otherwise destroyed |
| GdTimeline.AddWindow | zrml/global-disputes/src/lib.rs:276-324 | an outcome is added in the first period after the start, and its fee is free of the votes' lock and leaves the balance |
| GdTimeline.AddIff | zrml/global-disputes/src/lib.rs:276-324 | an outcome can be added if and only if that holds |
| GdTimeline.VoteWindow | zrml/global-disputes/src/lib.rs:510-586 | a vote is cast in the second period after the start, on a stored outcome, and is backed by the balance together with the earlier votes on the dispute |
| GdTimeline.VoteIff | zrml/global-disputes/src/lib.rs:510-586 | a vote can be cast if and only if that holds and the voter's list has room |
| GdTimeline.OwnerTheorem | zrml/global-disputes/src/lib.rs:276-853 | every stored outcome belongs to whoever added it, for the fee, or to all owners of the initial items for it, in their order |
| GdTimeline.PurgeTheorem | zrml/global-disputes/src/lib.rs:398-443 | in every run each purge of a finished dispute removes the winner and as many others as the limit allows, and nothing else removes any |
| GdTimeline.PayableIff | zrml/global-disputes/src/lib.rs:456-470 | the reward can be paid exactly when enough has been purged and there is something to pay |
| GdRuns.SumTheorem | zrml/global-disputes/src/lib.rs:510-586 | the sums of an active dispute are the initial amounts, the fees and all voters' entries, as long as they fit a balance |
| GdFunds.EscrowTheorem | zrml/global-disputes/src/lib.rs:276-376 | until a dispute is finished its reward account holds exactly the fees of the stored outcomes and what others have sent to it |
| GdFunds.FundTheorem | zrml/global-disputes/src/lib.rs:276-443 | in every run, up to the first payout and in every status: what the reward account holds and what refunds have paid back are together all fees ever paid for outcomes and what others have sent |
| GdFunds.RewardTheorem | zrml/global-disputes/src/lib.rs:456-489 | the first payout gives the fees of the outcomes stored when the dispute was finished, and what others have sent, to the possession that the leader of all contributions had then, in equal whole parts to several owners; these fees are all fees ever paid less what refunds have paid back, and without refunds the leader was stored |
| GdFunds.FirstItemTheorem | zrml/global-disputes/src/lib.rs:681-704 | until a dispute is finished the saved possession is that of the first initial item, so that is paid if the leader is no longer stored |
| GdFunds.RefundTheorem | zrml/global-disputes/src/lib.rs:339-385 | a destroyed dispute stays destroyed and can be refunded if and only if nobody finishes it; until then, whatever happens in between, its refunds pay every account exactly its fees for the removed outcomes, and once none is left all of its fees |
| GdExamples.FinishedBeforeRefunded | zrml/global-disputes/src/lib.rs:780-793 | a run in which a destroyed dispute is finished after one of two fees was refunded: the other cannot be refunded any more and is paid to the owner of the first initial item |
| GdFunds.PossessionTheorem | zrml/global-disputes/src/lib.rs:398-443 | any number of partial purges keep the winner and who its outcome belongs to |
| GdPallet.RetainUnresolved | zrml/global-disputes/src/lib.rs:619-646 | one pass keeps exactly the entries of active disputes and finds the largest of them |
| GdPallet.Drain | zrml/global-disputes/src/lib.rs:351-353 | different stored outcomes, as many as the limit allows, in any order |
| GdPallet.PayShared | zrml/global-disputes/src/lib.rs:712-733 | the loop pays every owner the whole part, never less, and the remainder is what cannot be divided |
| GdPallet.GlobalDisputesPallet.AddVoteOutcome | zrml/global-disputes/src/lib.rs:276-324 | adds an outcome for the fee, or fails with the error of the call and changes nothing |
| GdPallet.GlobalDisputesPallet.VoteOnOutcome | zrml/global-disputes/src/lib.rs:510-586 | votes, or fails with the error of the call and changes nothing |
| GdPallet.GlobalDisputesPallet.UnlockVoteBalance | zrml/global-disputes/src/lib.rs:611-673 | releases everything but votes on active disputes, as `GdTimeline.UnlockTheorem` says |
| GdPallet.GlobalDisputesPallet.StartGlobalDispute | zrml/global-disputes/src/lib.rs:808-866 | starts a dispute, or fails and leaves none behind; SharedPossessionRequired is unreachable |
| GdPallet.GlobalDisputesPallet.RunItems | zrml/global-disputes/src/lib.rs:819-853 | the loop over the initial items, with its first error |
| GdPallet.GlobalDisputesPallet.DetermineVotingWinner | zrml/global-disputes/src/lib.rs:780-793 | finishes the dispute, whatever its status, and returns the leader of its whole history |
| GdPallet.GlobalDisputesPallet.DestroyGlobalDispute | zrml/global-disputes/src/lib.rs:868-883 | destroys an active dispute and leaves others alone |
| GdPallet.GlobalDisputesPallet.RefundVoteFees | zrml/global-disputes/src/lib.rs:339-385 | refunds a batch of a destroyed dispute, or fails and changes nothing |
| GdPallet.GlobalDisputesPallet.PurgeOutcomes | zrml/global-disputes/src/lib.rs:398-443 | saves the winner and purges a batch of a finished dispute, or fails and changes nothing |
| GdPallet.GlobalDisputesPallet.RewardOutcomeOwner | zrml/global-disputes/src/lib.rs:456-489 | pays out a finished and purged dispute, or fails and changes nothing |
| Bisection.OutsideIff | primitives/src/math/root.rs:132-151 | a value is outside exactly if it is on the same side of both ends |
| Bisection.CalcPreimage | primitives/src/math/root.rs:72-130 | an exact hit, an end by distance of images, or an end of a strict sign-change bracket whose size is at most the range divided by 2^rounds, rounded up; and where every error comes from |
| Bisection.Bisect | primitives/src/math/root.rs:104-130 | the loop keeps a strict sign-change bracket, halves it every round and ends by an exact hit, the tolerance or the last iteration |
| Bisection.HalvedIsCeil | primitives/src/math/root.rs:106-127 | keeping the larger half n times is dividing by 2^n and rounding up |
| Bisection.BracketHoldsPreimages | primitives/src/math/root.rs:120-126 | for a monotone function every exact preimage lies strictly inside every bracket |
| Bisection.ToleranceIsClose | primitives/src/math/root.rs:110-113 | a search that ends by tolerance is within it of every exact preimage |
| Bisection.ExhaustedIsClose | primitives/src/math/root.rs:108-130 | a search that is cut off is within the range divided by 2^iterations, rounded up, of every exact preimage |
| Bisection.EnoughIterations | primitives/src/math/root.rs:108-127 | with a tolerance of at least 2 and enough iterations for the size the search is not cut off; with less it never ends by tolerance |
| Bisection.PreimageTheorem | primitives/src/math/root.rs:52-130 | for a monotone function with a preimage in the range the result is an exact hit, or within the larger of the tolerance and what the iterations leave of the range; with a tolerance of at least 2 and enough iterations, within the tolerance |
| FixedPoint.BmulRounds | primitives/src/math/fixed.rs:109-131 | the products are rounded to the nearest with halves up, down and up, and fail exactly on overflow |
| FixedPoint.BdivRounds | primitives/src/math/fixed.rs:133-155 | the quotients likewise; they fail exactly on overflow or a zero divisor, with the error of the first check that fails |
| FixedPoint.MultiplyFirstIsExact | primitives/src/math/fixed.rs:168-175 | multiplying first is exactly rounding x m / d to the nearest |
| FixedPoint.DivideFirstIsBelow | primitives/src/math/fixed.rs:176-187 | dividing first never exceeds that and misses the exact quotient by less than min(x, m) / BASE + 1/2 |
| FixedPoint.MultiplyFirstFails | primitives/src/math/fixed.rs:162-175 | when multiplying first is used, when it fails and with which error |
| FixedPoint.DivideFirstFails | primitives/src/math/fixed.rs:176-187 | when dividing first is used, when it fails and with which error |
| FixedPoint.RoundTrip | primitives/src/math/fixed.rs:113-141 | bdiv(bmul(x, y), y) == x for every y of at least one, when neither fails |
| FixedPoint.RoundTripIff | primitives/src/math/fixed.rs:113-141 | that holds for all x exactly if y is at least one |
| DecimalStrings.FromFixedDecimal | primitives/src/math/fixed.rs:243-261 | the string has the given number of places, a digit before the point, no needless leading zero, and the digits of the number |
| DecimalStrings.FromFixedToFixedDecimal | primitives/src/math/fixed.rs:274-321 | which strings are refused and why, and what the others read as |
| DecimalStrings.RoundTrip | primitives/src/math/fixed.rs:243-321 | rendering any number with any places and reading it back gives the number |
| DecimalStrings.ReadingIsNearest | primitives/src/math/fixed.rs:285-318 | reading a decimal number, with or without a plus and a point, gives its value times 10^decimals, rounded half up, or the largest number where the rounding would exceed it |
| DecimalStrings.WholeReading | primitives/src/math/fixed.rs:280-318 | without a point the value is its digits times 10^decimals |
| DecimalStrings.EmptyReading | primitives/src/math/fixed.rs:280-311 | the empty string reads as zero, and is refused if no place is asked for |
| DecimalStrings.ReadableIff | primitives/src/math/fixed.rs:307-311 | a decimal number is read exactly if there is a digit to read and the digits fit; otherwise parsing fails |

## Left out

- The node, the runtime configuration, weights, benchmarks, events and migrations: no behaviour to state theorems about.
- Random seeds, the quality of randomness and the hash function: random choices and the hash are arbitrary inputs.
- Existential deposits, dust and locks of other pallets: the ledger is exact, and a transfer or reserve is limited by the pallet's own lock only.
- The named reserve of appeal bonds and `exchange`: an appeal takes the bond out of the free balance and records it, and the model does not follow it further.
- `has_failed`, `get_auto_resolve` and `set_inflation` of the court: reads and one checked write, which would only add easy members.
- The prediction markets pallet beyond the schedule of resolutions: its guarantees are preconditions of the hooks.
- `bmul_bdiv_floor` and `bmul_bdiv_ceil`: the source does not implement them.
- The binary representation of the `fixed` crate: decimal conversion is modelled on strings of single-byte characters.
- The arithmetic of `Perquintill` beyond its definition: a share is the exact quotient rounded down to 18 places, and a reward the product rounded to the nearest.
- GdRuns.SumTheorem: requires that all contributions together fit a balance, since the stored sums saturate.
- CourtRuns.WinnerStep: says nothing of a court that is resolved before the end of its aggregation period, since its votes can still change afterwards.
- CourtPool.TotalsSearchable: excludes the section end `u128::MAX` in a pool whose totals saturate, where several entries can equal it and the source's binary search may return any of them; the model takes the first.
- CourtPallet.Court.OnResolution: requires that the market is disputed, which its only caller has checked.
- CourtPallet.Court.OnInitialize: requires that the block number stays below the largest one.
- CourtPallet.Court.OnDispute: requires that the market never had a court and is not scheduled, which its only caller guarantees.
- CourtPallet.Court.ChooseMultipleWeighted: requires that the stake for the draws fits a balance, which the configuration guarantees for every round.
- Tokens that are in a reward account before the first call: runs start with empty reward accounts; what is sent to them later is part of the runs.
