/** The shuffle engine of the shell game, as a specification over values.

    A shuffle is a list of swaps of two cup positions. The scene keeps the
    cups in an array it permutes in place and tracks, in an integer, the
    position of the cup that holds the coin. This module defines what one
    swap and a whole list of swaps do to both, and proves that the tracked
    position always names the cup that holds the coin. */
module ShuffleEngine {

  /** One exchange of the cups at positions `a` and `b`. */
  datatype Swap = Swap(a: int, b: int)

  /** The random numbers behind one swap: the first position, then the
      candidates drawn for the second position until one differs from it. */
  datatype Draw = Draw(first: int, candidates: seq<int>)

  predicate SwapInRange(s: Swap, n: int)
  {
    0 <= s.a < n && 0 <= s.b < n
  }

  predicate AllInRange(swaps: seq<Swap>, n: int)
  {
    forall i :: 0 <= i < |swaps| ==> SwapInRange(swaps[i], n)
  }

  /** No cup object occurs twice. */
  predicate Distinct<T(==)>(cups: seq<T>)
  {
    forall i, j :: 0 <= i < j < |cups| ==> cups[i] != cups[j]
  }

  /** `cups.swapAt(a, b)` on a value. */
  function SwapAt<T>(cups: seq<T>, s: Swap): (r: seq<T>)
    requires SwapInRange(s, |cups|)
    ensures |r| == |cups|
    ensures r[s.a] == cups[s.b] && r[s.b] == cups[s.a]
    ensures forall k :: 0 <= k < |cups| && k != s.a && k != s.b ==> r[k] == cups[k]
  {
    cups[s.a := cups[s.b]][s.b := cups[s.a]]
  }

  /** The update of the tracked coin position for one swap. */
  function TrackSwap(coin: int, s: Swap): (r: int)
  {
    if coin == s.a then s.b else if coin == s.b then s.a else coin
  }

  /** The cups after the swaps, applied first to last. */
  function Shuffled<T>(cups: seq<T>, swaps: seq<Swap>): (r: seq<T>)
    requires AllInRange(swaps, |cups|)
    ensures |r| == |cups|
    decreases |swaps|
  {
    if swaps == [] then cups
    else SwapAt(Shuffled(cups, swaps[..|swaps| - 1]), swaps[|swaps| - 1])
  }

  /** The tracked coin position after the swaps, applied first to last. */
  function Track(coin: int, swaps: seq<Swap>): (r: int)
    decreases |swaps|
  {
    if swaps == [] then coin
    else TrackSwap(Track(coin, swaps[..|swaps| - 1]), swaps[|swaps| - 1])
  }

  /** One swap moves a coin at `a` to `b`, a coin at `b` to `a`, and leaves
      any other position alone; the tracked position then still names the
      cup that was over the coin. */
  lemma SwapFollowsCoin<T>(cups: seq<T>, coin: int, s: Swap)
    requires 0 <= coin < |cups| && SwapInRange(s, |cups|)
    ensures coin == s.a ==> TrackSwap(coin, s) == s.b
    ensures coin == s.b ==> TrackSwap(coin, s) == s.a
    ensures coin != s.a && coin != s.b ==> TrackSwap(coin, s) == coin
    ensures 0 <= TrackSwap(coin, s) < |cups|
    ensures SwapAt(cups, s)[TrackSwap(coin, s)] == cups[coin]
  {
  }

  /** Swaps between in-range positions keep the tracked position in range. */
  lemma {:induction false} TrackStaysInRange(coin: int, swaps: seq<Swap>, n: int)
    requires 0 <= coin < n && AllInRange(swaps, n)
    ensures 0 <= Track(coin, swaps) < n
    decreases |swaps|
  {
    if swaps != [] {
      TrackStaysInRange(coin, swaps[..|swaps| - 1], n);
    }
  }

  /** After any list of swaps, the cup at the tracked position is the cup
      that was over the coin before the first swap. */
  lemma {:induction false} ShuffleFollowsCoin<T>(cups: seq<T>, coin: int, swaps: seq<Swap>)
    requires 0 <= coin < |cups| && AllInRange(swaps, |cups|)
    ensures 0 <= Track(coin, swaps) < |cups|
    ensures Shuffled(cups, swaps)[Track(coin, swaps)] == cups[coin]
    decreases |swaps|
  {
    TrackStaysInRange(coin, swaps, |cups|);
    if swaps != [] {
      var init := swaps[..|swaps| - 1];
      ShuffleFollowsCoin(cups, coin, init);
      SwapFollowsCoin(Shuffled(cups, init), Track(coin, init), swaps[|swaps| - 1]);
    }
  }

  /** Shuffling only reorders the cups. */
  lemma {:induction false} ShuffleIsPermutation<T>(cups: seq<T>, swaps: seq<Swap>)
    requires AllInRange(swaps, |cups|)
    ensures multiset(Shuffled(cups, swaps)) == multiset(cups)
    decreases |swaps|
  {
    if swaps != [] {
      var before := Shuffled(cups, swaps[..|swaps| - 1]);
      var s := swaps[|swaps| - 1];
      ShuffleIsPermutation(cups, swaps[..|swaps| - 1]);
      var mid := before[s.a := before[s.b]];
      assert multiset(mid) == multiset(before) - multiset{before[s.a]} + multiset{before[s.b]};
      assert multiset(mid[s.b := before[s.a]]) == multiset(mid) - multiset{mid[s.b]} + multiset{before[s.a]};
    }
  }

  /** Shuffling distinct cups leaves them distinct. */
  lemma {:induction false} ShuffleKeepsDistinct<T>(cups: seq<T>, swaps: seq<Swap>)
    requires AllInRange(swaps, |cups|) && Distinct(cups)
    ensures Distinct(Shuffled(cups, swaps))
    decreases |swaps|
  {
    if swaps != [] {
      var before := Shuffled(cups, swaps[..|swaps| - 1]);
      var s := swaps[|swaps| - 1];
      ShuffleKeepsDistinct(cups, swaps[..|swaps| - 1]);
      var after := SwapAt(before, s);
      forall i, j | 0 <= i < j < |after| ensures after[i] != after[j] {
        var i' := if i == s.a then s.b else if i == s.b then s.a else i;
        var j' := if j == s.a then s.b else if j == s.b then s.a else j;
        assert after[i] == before[i'] && after[j] == before[j'];
      }
    }
  }

  /** Sequences with the same multiset hold the same elements. */
  lemma SameElements<T>(xs: seq<T>, ys: seq<T>)
    requires multiset(xs) == multiset(ys)
    ensures forall x :: x in xs <==> x in ys
  {
    forall x
      ensures x in xs <==> x in ys
    {
      assert x in xs <==> x in multiset(xs);
      assert x in ys <==> x in multiset(ys);
    }
  }

  /** For distinct cups, the tracked position is the one and only position
      of the coin-bearing cup after the shuffle. */
  lemma TrackedCupIsUnique<T>(cups: seq<T>, coin: int, swaps: seq<Swap>)
    requires 0 <= coin < |cups| && AllInRange(swaps, |cups|) && Distinct(cups)
    ensures forall k :: 0 <= k < |cups| ==>
      (Shuffled(cups, swaps)[k] == cups[coin] <==> k == Track(coin, swaps))
  {
    ShuffleFollowsCoin(cups, coin, swaps);
    ShuffleKeepsDistinct(cups, swaps);
  }

  /** Some candidate differs from `first`: the rejection loop stops. */
  predicate HasDifferent(first: int, candidates: seq<int>)
  {
    exists c :: c in candidates && c != first
  }

  /** The draws behind one swap are in range for `n` cups and the rejection
      loop over them stops. */
  predicate ValidDraw(d: Draw, n: int)
  {
    && 0 <= d.first < n
    && (forall c :: c in d.candidates ==> 0 <= c < n)
    && HasDifferent(d.first, d.candidates)
  }

  predicate AllValidDraws(draws: seq<Draw>, n: int)
  {
    forall i :: 0 <= i < |draws| ==> ValidDraw(draws[i], n)
  }

  /** The number of candidates the rejection loop throws away. */
  function Rejections(first: int, candidates: seq<int>): (k: nat)
    requires HasDifferent(first, candidates)
    ensures k < |candidates| && candidates[k] != first
    ensures forall j :: 0 <= j < k ==> candidates[j] == first
  {
    if candidates[0] != first then 0
    else
      assert HasDifferent(first, candidates[1..]) by {
        var c :| c in candidates && c != first;
        assert c in candidates[1..];
      }
      1 + Rejections(first, candidates[1..])
  }

  /** The second position of a swap: the rejection loop of the scene
      (`while cup2Index == cup1Index`), over the injected candidates. */
  method DrawSecond(first: int, candidates: seq<int>) returns (second: int)
    requires HasDifferent(first, candidates)
    ensures second == candidates[Rejections(first, candidates)]
    ensures second != first
  {
    var k := 0;
    second := candidates[0];
    while second == first
      invariant 0 <= k <= Rejections(first, candidates)
      invariant second == candidates[k]
      decreases Rejections(first, candidates) - k
    {
      k := k + 1;
      second := candidates[k];
    }
  }

  /** The swap a draw makes. */
  function SwapOf(d: Draw): (s: Swap)
    requires HasDifferent(d.first, d.candidates)
    ensures s.a == d.first && s.b in d.candidates && s.b != d.first
  {
    Swap(d.first, d.candidates[Rejections(d.first, d.candidates)])
  }

  /** The swaps a list of draws makes, in order. */
  function SwapsOf(draws: seq<Draw>, n: int): (swaps: seq<Swap>)
    requires AllValidDraws(draws, n)
    ensures |swaps| == |draws| && AllInRange(swaps, n)
    ensures forall i :: 0 <= i < |draws| ==> swaps[i] == SwapOf(draws[i]) && swaps[i].a != swaps[i].b
  {
    seq(|draws|, i requires 0 <= i < |draws| => SwapOf(draws[i]))
  }

  /** Draws that make a swap exist only with at least two cups: with one cup
      the rejection loop never stops. */
  lemma ValidDrawNeedsTwoCups(d: Draw, n: int)
    requires ValidDraw(d, n)
    ensures n >= 2
  {
  }

  /** With at least two cups, every first position has a valid draw. */
  lemma TwoCupsAdmitDraws(first: int, n: int)
    requires n >= 2 && 0 <= first < n
    ensures ValidDraw(Draw(first, [if first == 0 then 1 else 0]), n)
  {
    var c := if first == 0 then 1 else 0;
    assert c in [c];
  }

  /** Three forced swaps on four cups with the coin at 2: (0,2) moves it to
      0, and (2,3) and (1,3) leave it there. */
  lemma ForcedSwapsTrace()
    ensures Track(2, [Swap(0, 2)]) == 0
    ensures Track(2, [Swap(0, 2), Swap(2, 3)]) == 0
    ensures Track(2, [Swap(0, 2), Swap(2, 3), Swap(1, 3)]) == 0
  {
    assert [Swap(0, 2), Swap(2, 3), Swap(1, 3)][..2] == [Swap(0, 2), Swap(2, 3)];
    assert [Swap(0, 2), Swap(2, 3)][..1] == [Swap(0, 2)];
    assert [Swap(0, 2)][..0] == [];
  }
}
