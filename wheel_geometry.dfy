/**
 * Geometry of the repeated strip (WheelComponent.reelItems and
 * WheelComponent.calculateTargetPosition): which strip position a spin starts
 * from, which it lands on, and the pixel offsets of both.
 */
module WheelGeometry {
  import opened Models

  /** The roster is tiled this many times to form the rendered strip. */
  const STRIP_REPETITIONS: nat := 15
  /** Every spin starts in this repetition of the roster. */
  const START_REPETITION: nat := 10
  /** Full roster lengths the strip travels in one spin. */
  const REVOLUTIONS: nat := 5

  datatype TargetPosition = TargetPosition(startY: real, finalY: real, targetIndexInStrip: int)

  /** `k` copies of `s`, one after another. */
  function Repeat(s: seq<WheelItem>, k: nat): seq<WheelItem>
  {
    if k == 0 then [] else s + Repeat(s, k - 1)
  }

  lemma {:induction false} RepeatAt(s: seq<WheelItem>, k: nat)
    requires |s| > 0
    ensures |Repeat(s, k)| == k * |s|
    ensures forall i :: 0 <= i < |Repeat(s, k)| ==> Repeat(s, k)[i] == s[i % |s|]
  {
    if k > 0 {
      RepeatAt(s, k - 1);
      var rest := Repeat(s, k - 1);
      assert Repeat(s, k) == s + rest;
      assert k * |s| == (k - 1) * |s| + |s|;
      forall i | 0 <= i < |Repeat(s, k)| ensures Repeat(s, k)[i] == s[i % |s|] {
        if i < |s| {
          ModUnique(i, |s|, 0, i);
          assert Repeat(s, k)[i] == s[i];
        } else {
          ModShift(i, |s|);
          assert Repeat(s, k)[i] == rest[i - |s|];
          assert rest[i - |s|] == s[(i - |s|) % |s|];
        }
      }
    }
  }

  lemma MulAtLeast(d: int, n: int)
    requires d >= 1 && n > 0
    ensures d * n >= n
  {
  }

  lemma MulDistributes(q: int, q': int, n: int)
    ensures q * n - q' * n == (q - q') * n
  {
  }

  /** Euclidean division is unique: a quotient and remainder in range are `/` and `%`. */
  lemma ModUnique(a: int, n: int, q: int, m: int)
    requires n > 0 && 0 <= m < n && a == q * n + m
    ensures a % n == m && a / n == q
  {
    var q', m' := a / n, a % n;
    assert a == q' * n + m';
    MulDistributes(q, q', n);
    if q > q' {
      MulAtLeast(q - q', n);
    } else if q < q' {
      MulAtLeast(q' - q, n);
      MulDistributes(q', q, n);
    }
  }

  lemma ModShift(i: int, n: int)
    requires n > 0 && i >= n
    ensures (i - n) % n == i % n
  {
    var q, m := (i - n) / n, (i - n) % n;
    assert i - n == q * n + m;
    assert i == (q + 1) * n + m;
    ModUnique(i, n, q + 1, m);
  }

  /**
   * The rendered strip: empty for an empty roster, otherwise 15 copies of the
   * roster, so position `i` shows roster item `i mod n`.
   */
  function ReelItems(items: seq<WheelItem>): (strip: seq<WheelItem>)
    ensures |items| == 0 ==> strip == []
    ensures |items| > 0 ==> |strip| == STRIP_REPETITIONS * |items|
    ensures forall i :: 0 <= i < |strip| ==> strip[i] == items[i % |items|]
  {
    if |items| == 0 then []
    else
      RepeatAt(items, STRIP_REPETITIONS);
      Repeat(items, STRIP_REPETITIONS)
  }

  /** Strip position a spin starts from: in the start repetition, at the last winner. */
  function StartIndexInStrip(n: nat, lastWinnerIndex: nat): (s: int)
    ensures lastWinnerIndex < n ==> START_REPETITION * n <= s < (START_REPETITION + 1) * n
  {
    START_REPETITION * n + lastWinnerIndex
  }

  /** Strip position a spin lands on: REVOLUTIONS repetitions lower, at the new winner. */
  function TargetIndexInStrip(n: nat, winnerIndex: int): (t: int)
    ensures 0 <= winnerIndex < n ==>
              (START_REPETITION - REVOLUTIONS) * n <= t < (START_REPETITION - REVOLUTIONS + 1) * n
  {
    (START_REPETITION - REVOLUTIONS) * n + winnerIndex
  }

  /** Scroll offset that centres strip position `idx` in the viewport. */
  function OffsetOf(idx: int, itemHeight: real, viewportHeight: real): (y: real)
    ensures (idx as real) * itemHeight - y == viewportHeight - (((idx + 1) as real) * itemHeight - y)
  {
    (idx as real) * itemHeight + itemHeight / 2.0 - viewportHeight / 2.0
  }

  /** Offsets are linear in the strip position, with slope the item height. */
  lemma OffsetDifference(a: int, b: int, itemHeight: real, viewportHeight: real)
    ensures OffsetOf(a, itemHeight, viewportHeight) - OffsetOf(b, itemHeight, viewportHeight)
         == ((a - b) as real) * itemHeight
  {
    assert (a as real) * itemHeight - (b as real) * itemHeight == ((a as real) - (b as real)) * itemHeight;
  }

  /**
   * Start and final offsets of a spin and the strip position of the winner.
   * An empty roster yields all zeros with no arithmetic; otherwise the strip
   * travels exactly REVOLUTIONS roster lengths plus the step from the last
   * winner to the new one.
   */
  function CalculateTargetPosition(n: nat, lastWinnerIndex: nat, winnerIndex: int,
                                   itemHeight: real, viewportHeight: real): (p: TargetPosition)
    ensures n == 0 ==> p == TargetPosition(0.0, 0.0, 0)
    ensures n > 0 ==> p.targetIndexInStrip == TargetIndexInStrip(n, winnerIndex)
    ensures n > 0 ==> p.startY == OffsetOf(StartIndexInStrip(n, lastWinnerIndex), itemHeight, viewportHeight)
    ensures n > 0 ==> p.finalY == OffsetOf(p.targetIndexInStrip, itemHeight, viewportHeight)
    ensures n > 0 ==>
      p.startY - p.finalY == ((REVOLUTIONS * n + lastWinnerIndex - winnerIndex) as real) * itemHeight
  {
    if n == 0 then TargetPosition(0.0, 0.0, 0)
    else
      var startIndex := StartIndexInStrip(n, lastWinnerIndex);
      var targetIndex := TargetIndexInStrip(n, winnerIndex);
      OffsetDifference(startIndex, targetIndex, itemHeight, viewportHeight);
      TargetPosition(OffsetOf(startIndex, itemHeight, viewportHeight),
                     OffsetOf(targetIndex, itemHeight, viewportHeight),
                     targetIndex)
  }

  /**
   * For a valid winner index the start position lies strictly after the
   * target position, so with a positive item height the strip always moves
   * the same way (startY > finalY), whatever the last winner was.
   */
  lemma SpinMovesForward(n: nat, lastWinnerIndex: nat, winnerIndex: int,
                         itemHeight: real, viewportHeight: real)
    requires 0 <= winnerIndex < n
    requires itemHeight > 0.0
    ensures StartIndexInStrip(n, lastWinnerIndex) - TargetIndexInStrip(n, winnerIndex)
         == REVOLUTIONS * n + lastWinnerIndex - winnerIndex > 0
    ensures var p := CalculateTargetPosition(n, lastWinnerIndex, winnerIndex, itemHeight, viewportHeight);
      p.startY > p.finalY
  {
    var d := REVOLUTIONS * n + lastWinnerIndex - winnerIndex;
    assert d > 0;
    assert (d as real) * itemHeight > 0.0;
  }

  /**
   * With both indices inside the roster, both strip positions lie inside the
   * 15-fold strip, the target shows the winner and the start shows the last
   * winner.
   */
  lemma PositionsInsideStrip(items: seq<WheelItem>, lastWinnerIndex: nat, winnerIndex: nat)
    requires lastWinnerIndex < |items| && winnerIndex < |items|
    ensures 0 <= TargetIndexInStrip(|items|, winnerIndex) < StartIndexInStrip(|items|, lastWinnerIndex) < |ReelItems(items)|
    ensures ReelItems(items)[TargetIndexInStrip(|items|, winnerIndex)] == items[winnerIndex]
    ensures ReelItems(items)[StartIndexInStrip(|items|, lastWinnerIndex)] == items[lastWinnerIndex]
  {
    var n := |items|;
    var t := TargetIndexInStrip(n, winnerIndex);
    var s := StartIndexInStrip(n, lastWinnerIndex);
    assert t == 5 * n + winnerIndex;
    assert s == 10 * n + lastWinnerIndex;
    assert t % n == winnerIndex by { ModUnique(t, n, 5, winnerIndex); }
    assert s % n == lastWinnerIndex by { ModUnique(s, n, 10, lastWinnerIndex); }
  }

  /**
   * The last winner's index is kept when the roster is replaced; once it is
   * at least 5 times the new roster length, the start position lies past the
   * end of the rendered strip.
   */
  lemma StartPastStripAfterShrink(items: seq<WheelItem>, lastWinnerIndex: nat)
    requires |items| > 0
    requires lastWinnerIndex >= REVOLUTIONS * |items|
    ensures StartIndexInStrip(|items|, lastWinnerIndex) >= |ReelItems(items)|
  {
  }
}
