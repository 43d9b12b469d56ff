/** The winner of a court round. */
module CourtWinner {
  import opened Numbers
  import opened CourtTypes
  import opened CourtPool

  predicate IsVoteFor(d: Draw, item: VoteItem) {
    d.vote.Revealed? && d.vote.item == item
  }

  ghost predicate IsRevealed(draws: seq<Draw>, item: VoteItem) {
    exists i :: 0 <= i < |draws| && IsVoteFor(draws[i], item)
  }

  /** The weight of the revealed votes for an item. */
  function Weight(draws: seq<Draw>, item: VoteItem): nat {
    if draws == [] then 0
    else Weight(draws[..|draws| - 1], item)
         + if IsVoteFor(draws[|draws| - 1], item) then draws[|draws| - 1].weight else 0
  }

  /** The score of an item: its weight, as far as a `u32` can tell. */
  function Score(draws: seq<Draw>, item: VoteItem): nat { Min(Weight(draws, item), U32_MAX) }

  /** A revealed item that has a higher score than every other one. */
  ghost predicate Leads(draws: seq<Draw>, item: VoteItem) {
    && IsRevealed(draws, item)
    && forall other :: other != item && IsRevealed(draws, other) ==> Score(draws, other) < Score(draws, item)
  }

  lemma {:induction false} LeaderUnique(draws: seq<Draw>, a: VoteItem, b: VoteItem)
    requires Leads(draws, a) && a != b
    ensures !Leads(draws, b)
  {
    assert IsRevealed(draws, b) ==> Score(draws, b) < Score(draws, a);
  }

  /** Nobody revealed: no winner. One item leads: that one. The highest score is shared: the
      winner of the last round. */
  ghost predicate IsWinner(draws: seq<Draw>, last: Option<VoteItem>, winner: Option<VoteItem>) {
    && ((forall item :: !IsRevealed(draws, item)) ==> winner == None)
    && (forall item :: Leads(draws, item) ==> winner == Some(item))
    && ((exists item :: IsRevealed(draws, item)) && (forall item :: !Leads(draws, item)) ==> winner == last)
  }

  ghost function Winner(draws: seq<Draw>, last: Option<VoteItem>): Option<VoteItem> {
    if exists item :: Leads(draws, item) then
      var item :| Leads(draws, item);
      Some(item)
    else if exists item :: IsRevealed(draws, item) then last
    else None
  }

  lemma {:induction false} WinnerIsWinner(draws: seq<Draw>, last: Option<VoteItem>, winner: Option<VoteItem>)
    ensures IsWinner(draws, last, winner) <==> winner == Winner(draws, last)
  {
    if item :| Leads(draws, item) {
      forall other | other != item
        ensures !Leads(draws, other)
      {
        LeaderUnique(draws, item, other);
      }
      assert IsRevealed(draws, item);
    }
  }

  /** The scores count, for each revealed item, the draws seen so far. */
  ghost predicate Scored(scores: map<VoteItem, nat>, draws: seq<Draw>) {
    && (forall item :: item in scores <==> IsRevealed(draws, item))
    && (forall item :: item in scores ==> scores[item] == Score(draws, item))
  }

  lemma {:induction false} ScoredNext(scores: map<VoteItem, nat>, draws: seq<Draw>, i: nat)
    requires i < |draws| && Scored(scores, draws[..i])
    ensures draws[i].vote.Revealed? ==>
      var item := draws[i].vote.item;
      Scored(scores[item := SatAddAt(if item in scores then scores[item] else 0, draws[i].weight, U32_MAX)],
             draws[..i + 1])
    ensures !draws[i].vote.Revealed? ==> Scored(scores, draws[..i + 1])
  {
    var before, after := draws[..i], draws[..i + 1];
    assert after[..i] == before;
    forall item
      ensures IsRevealed(after, item) <==> IsRevealed(before, item) || IsVoteFor(draws[i], item)
    {
      if IsRevealed(before, item) {
        var k :| 0 <= k < i && IsVoteFor(before[k], item);
        assert after[k] == before[k];
      }
      assert after[i] == draws[i];
    }
    forall item | !IsRevealed(before, item)
      ensures Weight(before, item) == 0
    {
      UnrevealedWeight(before, item);
    }
  }

  lemma {:induction false} UnrevealedWeight(draws: seq<Draw>, item: VoteItem)
    requires !IsRevealed(draws, item)
    ensures Weight(draws, item) == 0
  {
    if draws != [] {
      assert forall i :: 0 <= i < |draws| ==> !IsVoteFor(draws[i], item);
      UnrevealedWeight(draws[..|draws| - 1], item);
    }
  }

  method CountScores(draws: seq<Draw>) returns (scores: map<VoteItem, nat>)
    ensures Scored(scores, draws)
  {
    scores := map[];
    for i := 0 to |draws|
      invariant Scored(scores, draws[..i])
    {
      ScoredNext(scores, draws, i);
      if draws[i].vote.Revealed? {
        var item := draws[i].vote.item;
        if item in scores {
          scores := scores[item := SatAddAt(scores[item], draws[i].weight, U32_MAX)];
        } else {
          scores := scores[item := draws[i].weight];
        }
      }
    }
    assert draws[..|draws|] == draws;
  }

  /** The two best of the items seen so far. */
  ghost predicate TopTwo(scores: map<VoteItem, nat>, seen: set<VoteItem>, best: VoteItem, second: VoteItem) {
    && seen <= scores.Keys
    && best in seen && second in seen && best != second
    && scores[second] <= scores[best]
    && forall item :: item in seen && item != best ==> scores[item] <= scores[second]
  }

  /** `get_winner`, for whatever order the scores are iterated in. */
  method GetWinner(draws: seq<Draw>, last: Option<VoteItem>) returns (winner: Option<VoteItem>)
    ensures IsWinner(draws, last, winner)
  {
    var scores := CountScores(draws);
    var rest := scores.Keys;
    if rest == {} {
      return None;
    }
    var best :| best in rest;
    rest := rest - {best};
    if rest == {} {
      OnlyItemLeads(scores, draws, best);
      return Some(best);
    }
    var second :| second in rest;
    rest := rest - {second};
    if scores[second] > scores[best] {
      best, second := second, best;
    }
    while rest != {}
      invariant rest <= scores.Keys
      invariant TopTwo(scores, scores.Keys - rest, best, second)
      decreases rest
    {
      var el :| el in rest;
      if scores[el] > scores[best] {
        best, second := el, best;
      } else if scores[el] > scores[second] {
        second := el;
      }
      rest := rest - {el};
    }
    assert scores.Keys - rest == scores.Keys;
    TopTwoDecide(scores, draws, best, second);
    winner := if scores[best] == scores[second] then last else Some(best);
  }

  lemma {:induction false} OnlyItemLeads(scores: map<VoteItem, nat>, draws: seq<Draw>, best: VoteItem)
    requires Scored(scores, draws) && best in scores && scores.Keys - {best} == {}
    ensures Leads(draws, best)
    ensures forall last :: IsWinner(draws, last, Some(best))
  {
    forall item | item != best
      ensures !IsRevealed(draws, item)
    {
      assert item !in scores.Keys - {best};
    }
  }

  lemma {:induction false} TopTwoDecide(scores: map<VoteItem, nat>, draws: seq<Draw>, best: VoteItem, second: VoteItem)
    requires Scored(scores, draws) && TopTwo(scores, scores.Keys, best, second)
    ensures scores[best] == scores[second] ==> forall item :: !Leads(draws, item)
    ensures scores[best] != scores[second] ==> Leads(draws, best)
    ensures exists item :: IsRevealed(draws, item)
  {
    assert IsRevealed(draws, best) && IsRevealed(draws, second);
    if scores[best] == scores[second] {
      forall item | IsRevealed(draws, item)
        ensures !Leads(draws, item)
      {
        var rival := if item == best then second else best;
        assert IsRevealed(draws, rival) && Score(draws, item) <= Score(draws, rival);
      }
    }
  }

  // ---- The order of the draws does not matter ----

  lemma {:induction false} WeightRemove(draws: seq<Draw>, i: nat, item: VoteItem)
    requires i < |draws|
    ensures Weight(draws, item)
         == Weight(RemoveAt(draws, i), item) + if IsVoteFor(draws[i], item) then draws[i].weight else 0
  {
    if i == |draws| - 1 {
      assert RemoveAt(draws, i) == draws[..i];
    } else {
      var rest := RemoveAt(draws, i);
      WeightRemove(draws[..|draws| - 1], i, item);
      assert rest[..|rest| - 1] == RemoveAt(draws[..|draws| - 1], i);
    }
  }

  lemma {:induction false} RemoveOne<T>(s: seq<T>, i: nat)
    requires i < |s|
    ensures multiset(RemoveAt(s, i)) == multiset(s) - multiset{s[i]}
  {
    assert s == s[..i] + [s[i]] + s[i + 1..];
  }

  lemma {:induction false} MatchLast<T>(s: seq<T>, t: seq<T>) returns (i: nat)
    requires multiset(s) == multiset(t) && s != []
    ensures i < |t| && t[i] == s[|s| - 1]
    ensures multiset(RemoveAt(t, i)) == multiset(RemoveAt(s, |s| - 1))
  {
    assert s[|s| - 1] in multiset(t);
    i :| 0 <= i < |t| && t[i] == s[|s| - 1];
    RemoveOne(s, |s| - 1);
    RemoveOne(t, i);
  }

  lemma {:induction false} WeightPermute(draws: seq<Draw>, other: seq<Draw>, item: VoteItem)
    requires multiset(draws) == multiset(other)
    ensures Weight(draws, item) == Weight(other, item)
  {
    if draws == [] {
      assert |multiset(other)| == 0;
    } else {
      var i := MatchLast(draws, other);
      assert RemoveAt(draws, |draws| - 1) == draws[..|draws| - 1];
      WeightPermute(draws[..|draws| - 1], RemoveAt(other, i), item);
      WeightRemove(other, i, item);
    }
  }

  lemma {:induction false} RevealedPermute(draws: seq<Draw>, other: seq<Draw>, item: VoteItem)
    requires multiset(draws) == multiset(other) && IsRevealed(draws, item)
    ensures IsRevealed(other, item)
  {
    var i :| 0 <= i < |draws| && IsVoteFor(draws[i], item);
    assert draws[i] in multiset(other);
    var j :| 0 <= j < |other| && other[j] == draws[i];
    assert IsVoteFor(other[j], item);
  }

  /** Permuting the draws does not change the winner. */
  lemma {:induction false} WinnerPermute(draws: seq<Draw>, other: seq<Draw>, last: Option<VoteItem>)
    requires multiset(draws) == multiset(other)
    ensures Winner(draws, last) == Winner(other, last)
  {
    forall item
      ensures IsRevealed(draws, item) <==> IsRevealed(other, item)
      ensures Score(draws, item) == Score(other, item)
    {
      WeightPermute(draws, other, item);
      if IsRevealed(draws, item) {
        RevealedPermute(draws, other, item);
      }
      if IsRevealed(other, item) {
        RevealedPermute(other, draws, item);
      }
    }
    var winner := Winner(draws, last);
    WinnerIsWinner(draws, last, winner);
    assert forall item :: Leads(draws, item) <==> Leads(other, item);
    WinnerIsWinner(other, last, winner);
  }
}
