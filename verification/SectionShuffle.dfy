/** Drawing `n` distinct `MinJurorStake` sections out of all unconsumed sections: the partial
    Fisher-Yates shuffle that keeps only the slots it has touched in a map. */
module SectionShuffle {
  import opened Numbers
  import opened Ordered

  // ---- The reference: a shuffle that swaps the slots of a full sequence ----

  function Identity(n: nat): (s: seq<nat>)
    ensures |s| == n && forall k :: 0 <= k < n ==> s[k] == k
  {
    seq(n, k => k)
  }

  function Swap(s: seq<nat>, i: nat, j: nat): (t: seq<nat>)
    requires i < |s| && j < |s|
    ensures |t| == |s|
  {
    s[i := s[j]][j := s[i]]
  }

  /** Round `i` may pick any slot from `i` on. */
  ghost predicate Choices(r: seq<nat>, sections: nat) {
    |r| <= sections && forall i :: 0 <= i < |r| ==> i <= r[i] < sections
  }

  /** All slots after the rounds `r`. */
  ghost function Shuffled(r: seq<nat>, sections: nat): (s: seq<nat>)
    requires Choices(r, sections)
    ensures |s| == sections
    decreases |r|
  {
    if r == [] then Identity(sections)
    else Swap(Shuffled(r[..|r| - 1], sections), |r| - 1, r[|r| - 1])
  }

  ghost predicate Below(s: seq<nat>, n: nat) {
    forall i :: 0 <= i < |s| ==> s[i] < n
  }

  /** Every round leaves a permutation of `0..sections`. */
  lemma {:induction false} ShuffledIsPermutation(r: seq<nat>, sections: nat)
    requires Choices(r, sections)
    ensures Distinct(Shuffled(r, sections)) && Below(Shuffled(r, sections), sections)
    decreases |r|
  {
    if r != [] {
      ShuffledIsPermutation(r[..|r| - 1], sections);
    }
  }

  /** After round `i` the first `i` slots are final: later rounds do not touch them. */
  lemma {:induction false} FinalSlots(r: seq<nat>, i: nat, sections: nat)
    requires Choices(r, sections) && i <= |r|
    ensures Choices(r[..i], sections)
    ensures Shuffled(r, sections)[..i] == Shuffled(r[..i], sections)[..i]
    decreases |r|
  {
    if i == |r| {
      assert r[..i] == r;
    } else {
      var q := r[..|r| - 1];
      FinalSlots(q, i, sections);
      assert q[..i] == r[..i];
      assert Shuffled(r, sections)[..i] == Shuffled(q, sections)[..i];
    }
  }

  /** The sections picked by the rounds `r`, in the order they were picked. */
  ghost function Picked(r: seq<nat>, sections: nat): (s: seq<nat>)
    requires Choices(r, sections)
    ensures |s| == |r|
  {
    Shuffled(r, sections)[..|r|]
  }

  lemma {:induction false} PickedLast(r: seq<nat>, sections: nat)
    requires Choices(r, sections) && r != []
    ensures Choices(r[..|r| - 1], sections)
    ensures Picked(r, sections) == Picked(r[..|r| - 1], sections)
                                   + [Shuffled(r[..|r| - 1], sections)[r[|r| - 1]]]
  {
    FinalSlots(r, |r| - 1, sections);
    var q := r[..|r| - 1];
    assert Picked(r, sections) == Shuffled(r, sections)[..|r| - 1] + [Shuffled(r, sections)[|r| - 1]];
  }

  /** No two rounds pick the same section. */
  lemma {:induction false} PickedAreDistinct(r: seq<nat>, sections: nat)
    requires Choices(r, sections)
    ensures Distinct(Picked(r, sections)) && Below(Picked(r, sections), sections)
  {
    ShuffledIsPermutation(r, sections);
  }

  /** A swap moves values, it never drops one. */
  lemma {:induction false} ShuffledHoldsAll(r: seq<nat>, sections: nat, v: nat) returns (k: nat)
    requires Choices(r, sections) && v < sections
    ensures k < sections && Shuffled(r, sections)[k] == v
    decreases |r|
  {
    if r == [] {
      k := v;
    } else {
      var i, j := |r| - 1, r[|r| - 1];
      var k' := ShuffledHoldsAll(r[..i], sections, v);
      k := if k' == i then j else if k' == j then i else k';
    }
  }

  /** Every ordered draw without replacement is the outcome of some choices ... */
  lemma {:induction false} EveryDrawIsReachable(target: seq<nat>, sections: nat) returns (r: seq<nat>)
    requires |target| <= sections && Distinct(target) && Below(target, sections)
    ensures |r| == |target| && Choices(r, sections) && Picked(r, sections) == target
  {
    if target == [] {
      r := [];
    } else {
      var n := |target| - 1;
      var q := EveryDrawIsReachable(target[..n], sections);
      ShuffledIsPermutation(q, sections);
      var k := ShuffledHoldsAll(q, sections, target[n]);
      assert forall i :: 0 <= i < n ==> Shuffled(q, sections)[i] == Picked(q, sections)[i] == target[i];
      r := q + [k];
      assert r[..n] == q;
      PickedLast(r, sections);
    }
  }

  /** ... and of no other choices: the shuffle is a bijection from choices to ordered draws. */
  lemma {:induction false} ChoicesAreDetermined(r: seq<nat>, q: seq<nat>, sections: nat)
    requires Choices(r, sections) && Choices(q, sections) && |r| == |q|
    requires Picked(r, sections) == Picked(q, sections)
    ensures r == q
  {
    if r != [] {
      var n := |r| - 1;
      PickedLast(r, sections);
      PickedLast(q, sections);
      assert Picked(r, sections)[..n] == Picked(r[..n], sections);
      assert Picked(q, sections)[..n] == Picked(q[..n], sections);
      ChoicesAreDetermined(r[..n], q[..n], sections);
      ShuffledIsPermutation(r[..n], sections);
      assert Picked(r, sections)[n] == Picked(q, sections)[n];
      assert r == r[..n] + [r[n]] && q == q[..n] + [q[n]];
    }
  }

  // ---- The source: the touched slots only, and the ends in ascending order ----

  /** What the map of touched slots says about slot `k`. */
  function At(swaps: map<nat, nat>, k: nat): nat {
    if k in swaps then swaps[k] else k
  }

  /** The map of touched slots stands for the full sequence of slots. */
  ghost predicate Denotes(swaps: map<nat, nat>, slots: seq<nat>) {
    forall k :: 0 <= k < |slots| ==> At(swaps, k) == slots[k]
  }

  /** One call of the random number generator: any number of the range. */
  method GenRange(low: nat, high: nat) returns (x: nat)
    requires low < high
    ensures low <= x < high
  {
    x :| low <= x < high;
  }

  /** The end of a section. */
  function SectionEnd(index: nat, min: nat): nat { (index + 1) * min }

  /** The same with the source's saturating operations. */
  function SaturatingSectionEnd(index: nat, min: nat): nat {
    Min(Min(index + 1, U128_MAX) * min, U128_MAX)
  }

  /** The elements of `ends` are the ends of the `picked` sections. */
  ghost predicate EndsOf(ends: seq<nat>, picked: seq<nat>, min: nat) {
    && (forall e :: e in ends ==> exists i :: 0 <= i < |picked| && e == SectionEnd(picked[i], min))
    && (forall i :: 0 <= i < |picked| ==> SectionEnd(picked[i], min) in ends)
  }

  /** The ascending section ends are exactly those of the sections that the reference shuffle
      picks for the same random choices. */
  method GetNRandomSectionEnds(n: nat, max: Balance, min: Balance)
    returns (ends: seq<nat>, ghost r: seq<nat>)
    requires 0 < min && n <= max / min
    ensures |r| == n && Choices(r, max / min)
    ensures EndsOf(ends, Picked(r, max / min), min)
    ensures |ends| == n && Increasing(ends)
  {
    var sections := max / min;
    var swaps: map<nat, nat> := map[];
    ends, r := [], [];
    ghost var slots := Shuffled(r, sections);
    for i := 0 to n
      invariant |r| == i && Choices(r, sections) && slots == Shuffled(r, sections)
      invariant Denotes(swaps, slots)
      invariant |ends| == i && Increasing(ends)
      invariant EndsOf(ends, Picked(r, sections), min)
    {
      var visited := At(swaps, i);
      var j := GenRange(i, sections);
      var unused := At(swaps, j);
      NextEnd(r, j, sections, ends, max, min);
      SwapTouched(swaps, slots, i, j);
      swaps := swaps[i := unused];
      swaps := swaps[j := visited];
      ends := Insert(ends, SaturatingSectionEnd(unused, min));
      r, slots := r + [j], Swap(slots, i, j);
    }
  }

  lemma {:induction false} SwapTouched(swaps: map<nat, nat>, slots: seq<nat>, i: nat, j: nat)
    requires Denotes(swaps, slots) && i < |slots| && j < |slots|
    ensures Denotes(swaps[i := At(swaps, j)][j := At(swaps, i)], Swap(slots, i, j))
  {
  }

  /** One round: the slots change as in the reference, and the new end is a new one. */
  lemma {:induction false} NextEnd(r: seq<nat>, j: nat, sections: nat, ends: seq<nat>, max: Balance, min: Balance)
    requires 0 < min && sections == max / min
    requires Choices(r, sections) && |r| <= j < sections
    requires Increasing(ends) && EndsOf(ends, Picked(r, sections), min)
    ensures Choices(r + [j], sections)
    ensures Shuffled(r + [j], sections) == Swap(Shuffled(r, sections), |r|, j)
    ensures var end := SaturatingSectionEnd(Shuffled(r, sections)[j], min);
            && Increasing(Insert(ends, end)) && |Insert(ends, end)| == |ends| + 1
            && EndsOf(Insert(ends, end), Picked(r + [j], sections), min)
  {
    var unused := Shuffled(r, sections)[j];
    assert (r + [j])[..|r|] == r;
    PickedLast(r + [j], sections);
    PickedAreDistinct(r + [j], sections);
    ShuffledIsPermutation(r, sections);
    SectionFits(unused, sections, max, min);
    EndsGrow(ends, Picked(r, sections), unused, min);
  }

  /** The end of a section that was not picked before is a new end. */
  lemma {:induction false} EndsGrow(ends: seq<nat>, picked: seq<nat>, unused: nat, min: nat)
    requires 0 < min && Increasing(ends) && EndsOf(ends, picked, min) && Distinct(picked + [unused])
    ensures var ends' := Insert(ends, SectionEnd(unused, min));
            && Increasing(ends') && |ends'| == |ends| + 1
            && EndsOf(ends', picked + [unused], min)
  {
    var picked', ends' := picked + [unused], Insert(ends, SectionEnd(unused, min));
    InsertElements(ends, SectionEnd(unused, min));
    forall k | 0 <= k < |picked|
      ensures SectionEnd(picked[k], min) != SectionEnd(unused, min)
    {
      assert picked'[k] != picked'[|picked|];
      SectionEndInjective(picked[k], unused, min);
    }
    forall e | e in ends'
      ensures exists i :: 0 <= i < |picked'| && e == SectionEnd(picked'[i], min)
    {
      if e in ends {
        var i :| 0 <= i < |picked| && e == SectionEnd(picked[i], min);
        assert picked'[i] == picked[i];
      } else {
        assert picked'[|picked|] == unused;
      }
    }
  }

  /** Every section end is a multiple of the section size between one section and the total. */
  lemma {:induction false} EndsFit(ends: seq<nat>, r: seq<nat>, max: Balance, min: Balance)
    requires 0 < min && Choices(r, max / min)
    requires EndsOf(ends, Picked(r, max / min), min)
    ensures forall e :: e in ends ==> min <= e <= max && e % min == 0
  {
    forall e | e in ends
      ensures min <= e <= max && e % min == 0
    {
      PickedAreDistinct(r, max / min);
      var k :| 0 <= k < |r| && e == SectionEnd(Picked(r, max / min)[k], min);
      SectionFits(Picked(r, max / min)[k], max / min, max, min);
    }
  }

  /** Neither the increment nor the product of a section end saturates. */
  lemma {:induction false} SectionFits(index: nat, sections: nat, max: Balance, min: Balance)
    requires 0 < min && sections == max / min && index < sections
    ensures min <= SectionEnd(index, min) <= max
    ensures SectionEnd(index, min) % min == 0
    ensures SaturatingSectionEnd(index, min) == SectionEnd(index, min)
  {
    MulMono(1, index + 1, min);
    MulMono(index + 1, sections, min);
    assert sections * min <= max;
    MulMono(1, min, sections);
    ModOfMultiple(index + 1, min);
  }

  lemma {:induction false} SectionEndInjective(a: nat, b: nat, min: nat)
    requires 0 < min && a != b
    ensures SectionEnd(a, min) != SectionEnd(b, min)
  {
    if a < b {
      MulMono(a + 2, b + 1, min);
    } else {
      MulMono(b + 2, a + 1, min);
    }
  }
}
