/**
 * Weighted selection of the winner (WheelComponent.determineWinner).
 * The random draw is a parameter `r`; the source draws it from [0, 1).
 */
module WheelSelection {
  import opened Models

  /** Item `j` qualifies for draw `r` when the running sum through it exceeds `r`. */
  predicate Reached(items: seq<WheelItem>, r: real, j: nat)
    requires j < |items|
  {
    r < Cumulative(items, j + 1)
  }

  /**
   * Scan from index `i`, where `acc` is the weight of the items before `i`:
   * the first qualifying index, the last index as fallback.
   */
  function PickFrom(items: seq<WheelItem>, r: real, i: nat, acc: real): (k: nat)
    requires i < |items|
    ensures i <= k < |items|
    decreases |items| - i
  {
    var cumulative := acc + items[i].probability;
    if r < cumulative then i
    else if i == |items| - 1 then i
    else PickFrom(items, r, i + 1, cumulative)
  }

  /**
   * Index of the item the selector returns for draw `r`. It is always a valid
   * index, so a one-item roster always yields its only item.
   */
  function PickIndex(items: seq<WheelItem>, r: real): (k: nat)
    requires |items| > 0
    ensures k < |items|
  {
    PickFrom(items, r, 0, 0.0)
  }

  /** Skipping indices that do not qualify does not change the pick. */
  lemma {:induction false} PickFromSkips(items: seq<WheelItem>, r: real, i: nat)
    requires i < |items|
    requires forall j :: 0 <= j < i ==> !Reached(items, r, j)
    ensures PickIndex(items, r) == PickFrom(items, r, i, Cumulative(items, i))
  {
    if i > 0 {
      PickFromSkips(items, r, i - 1);
      assert !Reached(items, r, i - 1);
      assert Cumulative(items, i) == Cumulative(items, i - 1) + items[i - 1].probability;
    }
  }

  /**
   * The pick is the first item whose running sum is strictly greater than
   * `r`; when no item qualifies it is the last item.
   */
  lemma {:induction false} PickIndexIsFirstAbove(items: seq<WheelItem>, r: real)
    requires |items| > 0
    ensures var k := PickIndex(items, r);
      (Reached(items, r, k) && forall j :: 0 <= j < k ==> !Reached(items, r, j))
      || (k == |items| - 1 && forall j :: 0 <= j < |items| ==> !Reached(items, r, j))
  {
    var i := 0;
    while i < |items| && !Reached(items, r, i)
      invariant 0 <= i <= |items|
      invariant forall j :: 0 <= j < i ==> !Reached(items, r, j)
    {
      i := i + 1;
    }
    if i < |items| {
      PickFromSkips(items, r, i);
    } else {
      PickFromSkips(items, r, |items| - 1);
    }
  }

  /**
   * A draw exactly on the boundary after item `j` never selects item `j` or
   * an earlier one: the boundary belongs to the next item, and it is selected
   * when its weight is positive.
   */
  lemma BoundaryPicksUpper(items: seq<WheelItem>, r: real, j: nat)
    requires NonNegativeWeights(items)
    requires j + 1 < |items|
    requires r == Cumulative(items, j + 1)
    ensures PickIndex(items, r) > j
    ensures items[j + 1].probability > 0.0 ==> PickIndex(items, r) == j + 1
  {
    forall m | 0 <= m <= j ensures !Reached(items, r, m) {
      CumulativeMonotone(items, m + 1, j + 1);
    }
    PickFromSkips(items, r, j + 1);
  }

  /**
   * For draws in [0, 1): item `i` is selected exactly when `r` lies in
   * [Cumulative(i), Cumulative(i + 1)), the last item taking everything from
   * Cumulative(n - 1) on. With weights summing to 1 each interval has the
   * item's weight as its length.
   */
  lemma PickIndexInterval(items: seq<WheelItem>, r: real, i: nat)
    requires NonNegativeWeights(items)
    requires i < |items|
    requires 0.0 <= r
    ensures PickIndex(items, r) == i <==>
      Cumulative(items, i) <= r && (r < Cumulative(items, i + 1) || i == |items| - 1)
  {
    var k := PickIndex(items, r);
    PickIndexIsFirstAbove(items, r);
    if Cumulative(items, i) <= r {
      forall m | 0 <= m < i ensures !Reached(items, r, m) {
        CumulativeMonotone(items, m + 1, i);
      }
      PickFromSkips(items, r, i);
    }
    if k == i && i > 0 {
      assert !Reached(items, r, i - 1);
      if !Reached(items, r, i) {
        CumulativeMonotone(items, i, i + 1);
      }
    }
  }

  /**
   * With n equal weights 1/n and a draw in [0, 1), entry i is picked exactly
   * for the draws in [i/n, (i+1)/n): every entry gets a 1/n share of the draws.
   */
  lemma UniformPickInterval(items: seq<WheelItem>, r: real, i: nat)
    requires |items| > 0
    requires forall j :: 0 <= j < |items| ==> items[j].probability == 1.0 / (|items| as real)
    requires 0.0 <= r < 1.0
    requires i < |items|
    ensures PickIndex(items, r) == i <==>
      (i as real) / (|items| as real) <= r < ((i + 1) as real) / (|items| as real)
  {
    var n := |items| as real;
    var p := 1.0 / n;
    assert p > 0.0;
    assert NonNegativeWeights(items);
    CumulativeUniform(items, p, i);
    CumulativeUniform(items, p, i + 1);
    ScaledShare(i as real, n);
    ScaledShare((i + 1) as real, n);
    assert Cumulative(items, i) == (i as real) / n;
    assert Cumulative(items, i + 1) == ((i + 1) as real) / n;
    assert (|items| as real) / n == 1.0;
    PickIndexInterval(items, r, i);
  }

  lemma ScaledShare(x: real, n: real)
    requires n > 0.0
    ensures x * (1.0 / n) == x / n
  {
  }

  /**
   * The selection loop: walk the roster accumulating weight and return the
   * first item whose running sum exceeds the draw, else the last item.
   */
  method DetermineWinner(items: seq<WheelItem>, r: real) returns (winner: WheelItem)
    requires |items| > 0
    ensures winner == items[PickIndex(items, r)]
  {
    var cumulativeProbability := 0.0;
    var i := 0;
    while i < |items|
      invariant 0 <= i <= |items|
      invariant cumulativeProbability == Cumulative(items, i)
      invariant forall j :: 0 <= j < i ==> !Reached(items, r, j)
    {
      cumulativeProbability := cumulativeProbability + items[i].probability;
      if r < cumulativeProbability {
        PickFromSkips(items, r, i);
        return items[i];
      }
      i := i + 1;
    }
    PickFromSkips(items, r, |items| - 1);
    winner := items[|items| - 1];
  }
}
