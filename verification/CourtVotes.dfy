/** Commit, denounce and reveal: how a drawn juror's vote moves within a round. */
module CourtVotes {
  import opened Numbers
  import opened Ordered
  import opened CourtTypes
  import opened JuryDraws
  import opened CourtWinner

  /** Where the binary search by participant ends up. */
  function DrawPosition(draws: seq<Draw>, who: AccountId): (i: nat)
    ensures i <= |draws|
    ensures forall j :: 0 <= j < i ==> draws[j].participant < who
    ensures i < |draws| ==> who <= draws[i].participant
  {
    if draws == [] || who <= draws[0].participant then 0 else 1 + DrawPosition(draws[1..], who)
  }

  function FindDraw(draws: seq<Draw>, who: AccountId): Option<nat> {
    var i := DrawPosition(draws, who);
    if i < |draws| && draws[i].participant == who then Some(i) else None
  }

  /** Over sorted draws the search finds exactly the draw of the account. */
  lemma {:induction false} FindDrawFinds(draws: seq<Draw>, who: AccountId, i: nat)
    requires DrawsSorted(draws) && i < |draws|
    ensures draws[i].participant == who <==> FindDraw(draws, who) == Some(i)
  {
  }

  /** The commitment of a secret vote, if it is the hash of the juror, the item and the salt. */
  function HashedCommitment(cfg: Config, vote: Vote, juror: AccountId, item: VoteItem, salt: Hash): Result<Hash> {
    match vote
    case Secret(commitment) =>
      if commitment == cfg.hash(juror, item, salt) then Ok(commitment) else Err(CommitmentHashMismatch)
    case Drawn => Err(JurorDidNotVote)
    case Delegated(_) => Err(JurorDelegated)
    case Revealed(_, _, _) => Err(VoteAlreadyRevealed)
    case Denounced(_, _, _) => Err(VoteAlreadyDenounced)
  }

  /** The draws after a juror commits to a vote. */
  function CastVote(draws: seq<Draw>, who: AccountId, commitment: Hash): Result<seq<Draw>> {
    match FindDraw(draws, who)
    case None => Err(CallerNotInSelectedDraws)
    case Some(i) =>
      if draws[i].vote.Drawn? || draws[i].vote.Secret? then Ok(draws[i := draws[i].(vote := Secret(commitment))])
      else Err(InvalidVoteState)
  }

  /** The draws after a vote is opened: by another account during the vote period, which
      denounces the juror, or by the juror afterwards. */
  function OpenVote(cfg: Config, draws: seq<Draw>, juror: AccountId, item: VoteItem, salt: Hash, denounce: bool)
    : Result<seq<Draw>>
  {
    match FindDraw(draws, juror)
    case None => Err(if denounce then JurorNotDrawn else CallerNotInSelectedDraws)
    case Some(i) =>
      match HashedCommitment(cfg, draws[i].vote, juror, item, salt)
      case Err(e) => Err(e)
      case Ok(commitment) =>
        Ok(draws[i := draws[i].(vote := if denounce then Denounced(commitment, item, salt)
                                        else Revealed(commitment, item, salt))])
  }

  // ---- What a vote can do ----

  /** A drawn juror commits, may commit again, and is then revealed or denounced with the last
      commitment. An opened vote and a delegation never move. */
  ghost predicate VoteMoves(v: Vote, v': Vote) {
    match v
    case Drawn => v'.Drawn? || v'.Secret?
    case Secret(commitment) =>
      v'.Secret? || ((v'.Revealed? || v'.Denounced?) && v'.commitment == commitment)
    case _ => v' == v
  }

  /** Only votes move. */
  ghost predicate DrawsMove(draws: seq<Draw>, draws': seq<Draw>) {
    && |draws'| == |draws|
    && forall i :: 0 <= i < |draws| ==>
         && draws'[i] == draws[i].(vote := draws'[i].vote)
         && VoteMoves(draws[i].vote, draws'[i].vote)
  }

  /** The commitment of an opened vote is the hash of the juror's own account, item and salt. */
  ghost predicate OpenedOk(cfg: Config, draws: seq<Draw>) {
    forall i :: 0 <= i < |draws| ==>
      var d := draws[i];
      d.vote.Revealed? || d.vote.Denounced? ==>
        d.vote.commitment == cfg.hash(d.participant, d.vote.item, d.vote.salt)
  }

  lemma {:induction false} CastMoves(cfg: Config, draws: seq<Draw>, who: AccountId, commitment: Hash)
    requires CastVote(draws, who, commitment).Ok? && OpenedOk(cfg, draws)
    ensures DrawsMove(draws, CastVote(draws, who, commitment).value)
    ensures OpenedOk(cfg, CastVote(draws, who, commitment).value)
  {
  }

  lemma {:induction false} OpenMoves(cfg: Config, draws: seq<Draw>, juror: AccountId, item: VoteItem, salt: Hash, denounce: bool)
    requires OpenVote(cfg, draws, juror, item, salt, denounce).Ok? && OpenedOk(cfg, draws)
    ensures DrawsMove(draws, OpenVote(cfg, draws, juror, item, salt, denounce).value)
    ensures OpenedOk(cfg, OpenVote(cfg, draws, juror, item, salt, denounce).value)
  {
  }

  /** Moves of votes change neither the shape of the draws nor what is at risk. */
  lemma {:induction false} MovesKeepShape(cfg: Config, draws: seq<Draw>, draws': seq<Draw>)
    requires DrawsOk(cfg, draws) && DrawsMove(draws, draws')
    ensures DrawsOk(cfg, draws')
  {
    MovesKeepSums(draws, draws', 0);
    MovesKeepBacking(draws, draws');
    hide JurorsBacked;
    forall i | 0 <= i < |draws'|
      ensures DrawShape(cfg, draws'[i])
    {
      assert DrawShape(cfg, draws[i]);
    }
  }

  lemma {:induction false} MovesKeepBacking(draws: seq<Draw>, draws': seq<Draw>)
    requires JurorsBacked(draws) && DrawsMove(draws, draws')
    ensures JurorsBacked(draws')
  {
    hide Backs;
    forall i | 0 <= i < |draws'| && !draws'[i].vote.Delegated?
      ensures 0 < draws'[i].slashable || exists k :: 0 <= k < |draws'| && Backs(draws'[k], draws'[i].participant)
    {
      if draws'[i].slashable == 0 {
        var k :| 0 <= k < |draws| && Backs(draws[k], draws[i].participant);
        BackerStays(draws[k], draws'[k], draws[i].participant);
      }
    }
  }

  lemma {:induction false} BackerStays(d: Draw, d': Draw, j: AccountId)
    requires Backs(d, j) && VoteMoves(d.vote, d'.vote)
    ensures Backs(d', j)
  {
  }

  lemma {:induction false} MovesKeepSums(draws: seq<Draw>, draws': seq<Draw>, a: AccountId)
    requires DrawsMove(draws, draws')
    ensures TotalSlashable(draws') == TotalSlashable(draws) && SlashFor(draws', a) == SlashFor(draws, a)
  {
    if draws != [] {
      var n := |draws| - 1;
      assert draws'[n] == draws[n].(vote := draws'[n].vote);
      MovesKeepSums(draws[..n], draws'[..n], a);
    }
  }

  // ---- Weights ----

  /** The draws that are no votes for an item. */
  function Others(draws: seq<Draw>, item: VoteItem): seq<Draw> {
    if draws == [] then []
    else
      var last := draws[|draws| - 1];
      Others(draws[..|draws| - 1], item)
      + if last.vote.Revealed? && last.vote.item == item then [] else [last]
  }

  /** The weight of an item and that of all other draws are the weight of the jury. */
  lemma {:induction false} WeightPartition(draws: seq<Draw>, item: VoteItem)
    ensures Weight(draws, item) + TotalWeight(Others(draws, item)) == TotalWeight(draws)
  {
    if draws != [] {
      var before, last := draws[..|draws| - 1], draws[|draws| - 1];
      WeightPartition(before, item);
      var rest := Others(before, item);
      assert (rest + [last])[..|rest|] == rest;
      assert rest + [] == rest;
    }
  }
}
