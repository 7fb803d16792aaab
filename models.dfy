/**
 * Shared value types of the slot reel: the roster entry shown on the reel,
 * an optional value, and the running sum of the roster's weights.
 */
module Models {

  datatype Option<T> = None | Some(value: T)

  /**
   * One candidate on the reel. `probability` is the candidate's weight; the
   * rosters built by the data service carry weights that sum to 1.
   */
  datatype WheelItem = WheelItem(id: string, nickname: string, avatarUrl: string, probability: real)

  /** Sum of the weights of the first `k` items of the roster. */
  function Cumulative(items: seq<WheelItem>, k: nat): (sum: real)
    requires k <= |items|
    ensures NonNegativeWeights(items) ==> sum >= 0.0
  {
    if k == 0 then 0.0 else Cumulative(items, k - 1) + items[k - 1].probability
  }

  /** Sum of all the weights of the roster. */
  function TotalProbability(items: seq<WheelItem>): real
  {
    Cumulative(items, |items|)
  }

  predicate NonNegativeWeights(items: seq<WheelItem>)
  {
    forall i :: 0 <= i < |items| ==> items[i].probability >= 0.0
  }

  /** No two roster entries share an identifier. */
  predicate UniqueIds(items: seq<WheelItem>)
  {
    forall i, j :: 0 <= i < j < |items| ==> items[i].id != items[j].id
  }

  /** The roster with every weight replaced by `p`. */
  function WithProbability(items: seq<WheelItem>, p: real): (r: seq<WheelItem>)
    ensures |r| == |items|
    ensures forall i :: 0 <= i < |r| ==> r[i] == items[i].(probability := p)
  {
    seq(|items|, i requires 0 <= i < |items| => items[i].(probability := p))
  }

  /** With non-negative weights the running sum never decreases. */
  lemma {:induction false} CumulativeMonotone(items: seq<WheelItem>, a: nat, b: nat)
    requires NonNegativeWeights(items)
    requires a <= b <= |items|
    ensures Cumulative(items, a) <= Cumulative(items, b)
  {
    if a < b {
      CumulativeMonotone(items, a, b - 1);
    }
  }

  /** A roster whose `k` weights all equal `p` has running sum `k * p`. */
  lemma {:induction false} CumulativeUniform(items: seq<WheelItem>, p: real, k: nat)
    requires k <= |items|
    requires forall i :: 0 <= i < |items| ==> items[i].probability == p
    ensures Cumulative(items, k) == (k as real) * p
  {
    if k > 0 {
      CumulativeUniform(items, p, k - 1);
    }
  }

  /** Giving each of k > 0 items the weight 1/k makes the weights sum to 1. */
  lemma UniformWeightsSumToOne(items: seq<WheelItem>)
    requires |items| > 0
    ensures TotalProbability(WithProbability(items, 1.0 / (|items| as real))) == 1.0
  {
    var k := |items| as real;
    var u := WithProbability(items, 1.0 / k);
    CumulativeUniform(u, 1.0 / k, |u|);
    assert k * (1.0 / k) == 1.0;
  }
}
