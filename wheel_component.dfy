/**
 * The wheel component: the spin state machine, the highlight lights and the
 * post-settle decoration of strip rows. Timers and the animation frame are
 * modelled as event methods that the environment calls; each does nothing
 * unless its callback is pending.
 */
module WheelComponentModel {
  import opened Models
  import opened WheelSelection
  import opened WheelGeometry

  /** Pixels by which the linear spin flies past the final offset. */
  const OVERSHOOT_PX: real := 60.0
  const BOUNCE_DURATION_MS: int := 500
  const DEFAULT_SPIN_DURATION_MS: int := 3000
  /** Item and viewport height used until the rendered strip is measured. */
  const DEFAULT_HEIGHT_PX: real := 128.0
  /** Number of lights the highlight cycles through. */
  const LIGHT_COUNT: nat := 3

  /** Transition timing functions: 'ease-out', 'linear' and the bounce cubic-bezier. */
  datatype Easing = EaseOut | Linear | BounceBack

  /** Row shadows: the inset frame every row has, and the frame plus golden border and glow. */
  datatype Shadow = BaseShadow | WinnerShadow

  /** Row transforms: 'none', 'rotateX(-15deg)' for the row above, 'rotateX(15deg)' below. */
  datatype ItemTransform = NoTransform | TiltBack | TiltForward

  /** Where the spin is: which of its callbacks are pending. */
  datatype Phase = Idle | AwaitingFrame | Spinning | Bouncing

  /** What the callbacks of one spin capture when the spin starts. */
  datatype SpinPlan = SpinPlan(winner: WheelItem, winnerIndex: int, finalY: real, targetIndexInStrip: int)

  /** First index whose item has identifier `id`, from `i` on; -1 when there is none. */
  function IndexOfIdFrom(items: seq<WheelItem>, id: string, i: nat): (k: int)
    requires i <= |items|
    ensures k == -1 || (i <= k < |items| && items[k].id == id)
    decreases |items| - i
  {
    if i == |items| then -1
    else if items[i].id == id then i
    else IndexOfIdFrom(items, id, i + 1)
  }

  /** `items.findIndex(item => item.id === id)`: see IndexOfIdFrom. */
  function FindIndexById(items: seq<WheelItem>, id: string): (k: int)
    ensures k == -1 || (0 <= k < |items| && items[k].id == id)
  {
    IndexOfIdFrom(items, id, 0)
  }

  /**
   * The search finds the first carrier of `id` at or after `i`, and reports
   * -1 exactly when there is none.
   */
  lemma {:induction false} IndexOfIdFromIsFirst(items: seq<WheelItem>, id: string, i: nat)
    requires i <= |items|
    ensures var k := IndexOfIdFrom(items, id, i);
      && (k >= 0 ==> forall j :: i <= j < k ==> items[j].id != id)
      && (k == -1 <==> forall j :: i <= j < |items| ==> items[j].id != id)
    decreases |items| - i
  {
    if i < |items| && items[i].id != id {
      IndexOfIdFromIsFirst(items, id, i + 1);
    }
  }

  /**
   * The winner is found again by its identifier: the index found is the
   * first one carrying that identifier, and with unique identifiers it is
   * exactly the index the selector picked.
   */
  lemma FindIndexOfMember(items: seq<WheelItem>, k: nat)
    requires k < |items|
    ensures 0 <= FindIndexById(items, items[k].id) <= k
    ensures items[FindIndexById(items, items[k].id)].id == items[k].id
    ensures UniqueIds(items) ==> FindIndexById(items, items[k].id) == k
  {
    IndexOfIdFromIsFirst(items, items[k].id, 0);
  }

  /**
   * One light tick: no light or the last light wraps to 0, otherwise the
   * next light; on the three lamps that is the successor modulo 3.
   */
  function NextLight(current: Option<int>): (next: Option<int>)
    ensures current.None? ==> next == Some(0)
    ensures current.Some? && 0 <= current.value < LIGHT_COUNT ==>
              next == Some((current.value + 1) % LIGHT_COUNT)
  {
    if current.None? || current.value >= LIGHT_COUNT - 1 then Some(0) else Some(current.value + 1)
  }

  /** The light index after `k` ticks, starting from no light. */
  function LightsAfter(k: nat): Option<int>
  {
    if k == 0 then None else NextLight(LightsAfter(k - 1))
  }

  /** Starting from no light, the k-th tick lights lamp (k - 1) mod 3: 0, 1, 2, 0, ... */
  lemma {:induction false} LightsCycle(k: nat)
    requires k > 0
    ensures LightsAfter(k) == Some((k - 1) % LIGHT_COUNT)
  {
    if k > 1 {
      LightsCycle(k - 1);
      var q, m := (k - 2) / 3, (k - 2) % 3;
      if m < 2 {
        ModUnique(k - 1, 3, q, m + 1);
      } else {
        ModUnique(k - 1, 3, q + 1, 0);
      }
    }
  }

  /** Period of the light interval: three light steps per revolution of the spin. */
  function LightStepMs(spinDurationMs: int): (step: real)
    ensures spinDurationMs > 0 ==> 0.0 < step < spinDurationMs as real
  {
    (spinDurationMs as real / REVOLUTIONS as real) / 3.0
  }

  /**
   * Within one spin duration the interval ticks exactly REVOLUTIONS times per
   * lamp: k ticks fit into the duration iff k is at most 5 * 3 = 15.
   */
  lemma LightTicksPerSpin(spinDurationMs: int, k: nat)
    requires spinDurationMs > 0
    ensures (k as real) * LightStepMs(spinDurationMs) <= spinDurationMs as real
            <==> k <= REVOLUTIONS * LIGHT_COUNT
  {
    var d := spinDurationMs as real;
    var step := LightStepMs(spinDurationMs);
    assert step * 15.0 == d;
    assert (k as real) * step * 15.0 == (k as real) * d;
    if (k as real) * step <= d {
      assert (k as real) * d <= 15.0 * d;
    } else {
      assert (k as real) * d > 15.0 * d;
    }
  }

  /** The 15 ticks of one spin run the lamps round five times and end on the last lamp. */
  lemma LightsAfterFullSpin()
    ensures LightsAfter(REVOLUTIONS * LIGHT_COUNT) == Some(LIGHT_COUNT - 1)
  {
    LightsCycle(REVOLUTIONS * LIGHT_COUNT);
    ModUnique(14, 3, 4, 2);
  }

  /** Every reachable light value is one of the three lamps. */
  lemma NextLightInRange(current: Option<int>)
    requires current.None? || 0 <= current.value < LIGHT_COUNT
    ensures NextLight(current).Some? && 0 <= NextLight(current).value < LIGHT_COUNT
  {
  }

  /** The callbacks of an in-flight spin agree with the roster it was started on. */
  ghost predicate PlanFits(plan: SpinPlan, roster: seq<WheelItem>)
  {
    && |roster| > 0
    && plan.winner in roster
    && plan.winnerIndex == FindIndexById(roster, plan.winner.id)
    && 0 <= plan.winnerIndex < |roster|
    && roster[plan.winnerIndex].id == plan.winner.id
    && plan.targetIndexInStrip == TargetIndexInStrip(|roster|, plan.winnerIndex)
  }

  /**
   * The part of spin() that decides the spin: the winner for draw `r`, its
   * roster index found by identifier (the first entry carrying the winner's
   * id, which is the picked entry itself when identifiers are unique), and
   * the start and final offsets. The start lies after the final offset, so
   * the strip moves forward.
   */
  method PlanSpin(items: seq<WheelItem>, lastWinnerIndex: nat, r: real,
                  itemHeight: real, viewportHeight: real) returns (plan: SpinPlan, startY: real)
    requires |items| > 0
    requires itemHeight > 0.0
    ensures plan.winner == items[PickIndex(items, r)]
    ensures plan.winnerIndex == FindIndexById(items, plan.winner.id)
    ensures 0 <= plan.winnerIndex <= PickIndex(items, r)
    ensures UniqueIds(items) ==> plan.winnerIndex == PickIndex(items, r)
    ensures plan.targetIndexInStrip == TargetIndexInStrip(|items|, plan.winnerIndex)
    ensures plan.finalY == OffsetOf(plan.targetIndexInStrip, itemHeight, viewportHeight)
    ensures startY == OffsetOf(StartIndexInStrip(|items|, lastWinnerIndex), itemHeight, viewportHeight)
    ensures startY > plan.finalY
    ensures PlanFits(plan, items)
  {
    var winner := DetermineWinner(items, r);
    ghost var k := PickIndex(items, r);
    FindIndexOfMember(items, k);
    var winnerIndexOriginal := FindIndexById(items, winner.id);
    var pos := CalculateTargetPosition(|items|, lastWinnerIndex, winnerIndexOriginal, itemHeight, viewportHeight);
    SpinMovesForward(|items|, lastWinnerIndex, winnerIndexOriginal, itemHeight, viewportHeight);
    plan := SpinPlan(winner, winnerIndexOriginal, pos.finalY, pos.targetIndexInStrip);
    startY := pos.startY;
  }

  /** The light index is one of the lamps, and no lamp is lit without the interval. */
  predicate LightsConsistent(activeLightIndex: Option<int>, lightsRunning: bool)
  {
    && (activeLightIndex.Some? ==> 0 <= activeLightIndex.value < LIGHT_COUNT)
    && (!lightsRunning ==> activeLightIndex == None)
  }

  /**
   * The strip's style: drawn at translateY(-offsetY px), moving there with a
   * transition of the given duration and timing function.
   */
  datatype ReelStyle = ReelStyle(offsetY: real, transitionDurationMs: int, timing: Easing)

  /**
   * The callbacks still to come: the animation frame, the light interval
   * with its period, and the bounce and settle timeouts with their delays.
   * None is a timer that was never scheduled, has fired, or was cleared.
   */
  datatype Timers = Timers(frame: bool, lightInterval: Option<real>,
                           bounceTimeout: Option<int>, settleTimeout: Option<int>)

  const NO_TIMERS: Timers := Timers(false, None, None, None)

  /**
   * Idle: nothing pending. In flight: the animation frame alone, then the
   * light interval with both timeouts, then the settle timeout alone.
   */
  predicate TimersConsistent(isSpinning: bool, t: Timers)
  {
    && (!isSpinning ==> t == NO_TIMERS)
    && (isSpinning ==>
          || t == NO_TIMERS.(frame := true)
          || (!t.frame && t.lightInterval.Some? && t.bounceTimeout.Some? && t.settleTimeout.Some?)
          || (!t.frame && t.lightInterval.None? && t.bounceTimeout.None? && t.settleTimeout.Some?))
  }

  /** After a settle: the kept index and the published strip position belong to the winner. */
  ghost predicate SettledFits(winner: WheelItem, lastWinnerIndex: nat, winningIndex: int, roster: seq<WheelItem>)
  {
    && |roster| > 0
    && winner in roster
    && lastWinnerIndex == FindIndexById(roster, winner.id)
    && lastWinnerIndex < |roster|
    && roster[lastWinnerIndex].id == winner.id
    && winningIndex == TargetIndexInStrip(|roster|, lastWinnerIndex)
  }

  class WheelComponent {
    /** The roster (an input of the component). */
    var items: seq<WheelItem>
    var isSpinning: bool
    /** reelTransform, transitionDuration and transitionTimingFunction. */
    var reel: ReelStyle
    var selectedItem: Option<WheelItem>
    var resultVisible: bool
    var winningIndex: Option<int>
    var spinDurationMs: int
    var activeLightIndex: Option<int>
    const itemHeightPx: real := DEFAULT_HEIGHT_PX
    const viewportHeightPx: real := DEFAULT_HEIGHT_PX
    /** Roster index of the previous winner; seeds the next spin's start position. */
    var lastWinnerIndex: nat
    var timers: Timers
    /** What the pending callbacks captured when the spin started. */
    var plan: Option<SpinPlan>
    /** Winners emitted through onSpinComplete, oldest first. */
    var completions: seq<WheelItem>
    ghost var acceptedSpins: nat
    /** The roster as it was when the current or last spin was accepted. */
    ghost var spinRoster: seq<WheelItem>

    function CurrentPhase(): Phase
      reads this
    {
      if !isSpinning then Idle
      else if timers.frame then AwaitingFrame
      else if timers.bounceTimeout.Some? then Spinning
      else Bouncing
    }

    ghost predicate Valid()
      reads this
    {
      && LightsConsistent(activeLightIndex, timers.lightInterval.Some?)
      && TimersConsistent(isSpinning, timers)
      && (isSpinning ==>
            && selectedItem == None && winningIndex == None && !resultVisible
            && plan.Some? && PlanFits(plan.value, spinRoster))
      && (!isSpinning ==>
            && (winningIndex.Some? <==> selectedItem.Some?)
            && (resultVisible <==> selectedItem.Some?))
      && (!isSpinning && selectedItem.Some? ==>
            SettledFits(selectedItem.value, lastWinnerIndex, winningIndex.value, spinRoster))
      && |completions| + (if isSpinning then 1 else 0) == acceptedSpins
    }

    constructor (roster: seq<WheelItem>)
      ensures Valid() && CurrentPhase() == Idle
      ensures items == roster && spinDurationMs == DEFAULT_SPIN_DURATION_MS
      ensures itemHeightPx == DEFAULT_HEIGHT_PX && viewportHeightPx == DEFAULT_HEIGHT_PX
      ensures reel == ReelStyle(0.0, 0, EaseOut)
      ensures selectedItem == None && winningIndex == None && !resultVisible
      ensures activeLightIndex == None && lastWinnerIndex == 0 && timers == NO_TIMERS
      ensures completions == [] && acceptedSpins == 0
    {
      items := roster;
      isSpinning := false;
      reel := ReelStyle(0.0, 0, EaseOut);
      selectedItem := None;
      resultVisible := false;
      winningIndex := None;
      spinDurationMs := DEFAULT_SPIN_DURATION_MS;
      activeLightIndex := None;
      lastWinnerIndex := 0;
      timers := NO_TIMERS;
      plan := None;
      completions := [];
      acceptedSpins := 0;
      spinRoster := [];
    }

    /** The roster input changes. */
    method SetItems(roster: seq<WheelItem>)
      requires Valid()
      modifies this`items
      ensures Valid()
      ensures items == roster
    {
      items := roster;
    }

    /** The speed slider sets the duration of later spin phases. */
    method SetSpinDuration(ms: int)
      requires Valid()
      modifies this`spinDurationMs
      ensures Valid()
      ensures spinDurationMs == ms
    {
      spinDurationMs := ms;
    }

    /**
     * spin(): rejected while a spin is in flight or with an empty roster;
     * otherwise picks the winner for draw `r`, places the strip at the start
     * offset with no transition, and schedules the animation frame.
     */
    method Spin(r: real) returns (accepted: bool)
      requires Valid()
      modifies this
      ensures Valid()
      ensures accepted == (!old(isSpinning) && |old(items)| > 0)
      ensures !accepted ==> unchanged(this)
      ensures accepted ==> |items| > 0
      ensures accepted ==>
        var n := |items|;
        var winner := items[PickIndex(items, r)];
        var winnerIndex := FindIndexById(items, winner.id);
        && CurrentPhase() == AwaitingFrame && timers == NO_TIMERS.(frame := true)
        && selectedItem == None && winningIndex == None && !resultVisible && activeLightIndex == None
        && plan == Some(SpinPlan(winner, winnerIndex,
                                 OffsetOf(TargetIndexInStrip(n, winnerIndex), itemHeightPx, viewportHeightPx),
                                 TargetIndexInStrip(n, winnerIndex)))
        && reel == old(reel).(offsetY := OffsetOf(StartIndexInStrip(n, old(lastWinnerIndex)),
                                                   itemHeightPx, viewportHeightPx),
                              transitionDurationMs := 0)
        && reel.offsetY > plan.value.finalY
        && items == old(items) && lastWinnerIndex == old(lastWinnerIndex)
        && spinDurationMs == old(spinDurationMs)
        && completions == old(completions) && acceptedSpins == old(acceptedSpins) + 1
        && spinRoster == items
    {
      if isSpinning || |items| == 0 {
        return false;
      }
      accepted := true;
      var newPlan, startY := PlanSpin(items, lastWinnerIndex, r, itemHeightPx, viewportHeightPx);
      // Clearing the interval and the timeouts of a previous spin, then
      // scheduling the animation frame, leaves the frame alone pending.
      timers := timers.(lightInterval := None, bounceTimeout := None, settleTimeout := None).(frame := true);
      isSpinning, selectedItem, resultVisible, winningIndex, activeLightIndex := true, None, false, None, None;
      reel := reel.(offsetY := startY, transitionDurationMs := 0);
      plan := Some(newPlan);
      acceptedSpins := acceptedSpins + 1;
      spinRoster := items;
    }

    /**
     * The animation frame after spin(): a linear transition over the spin
     * duration to 60 px past the final offset (an overshoot the bounce
     * takes back), the light interval
     * started, and the bounce and settle timeouts scheduled.
     */
    method AnimationFrame() returns (fired: bool)
      requires Valid()
      modifies this`timers, this`reel
      ensures Valid()
      ensures fired == (old(CurrentPhase()) == AwaitingFrame)
      ensures !fired ==> unchanged(this)
      ensures fired ==>
        && CurrentPhase() == Spinning
        && reel == ReelStyle(plan.value.finalY - OVERSHOOT_PX, spinDurationMs, Linear)
        && timers == Timers(false, Some(LightStepMs(spinDurationMs)),
                            Some(spinDurationMs), Some(spinDurationMs + BOUNCE_DURATION_MS))
    {
      if !timers.frame {
        return false;
      }
      fired := true;
      var mainSpinDuration := spinDurationMs;
      reel := ReelStyle(plan.value.finalY - OVERSHOOT_PX, mainSpinDuration, Linear);
      timers := Timers(false, Some(LightStepMs(mainSpinDuration)),
                       Some(mainSpinDuration), Some(mainSpinDuration + BOUNCE_DURATION_MS));
    }

    /** One tick of the light interval. */
    method LightTick() returns (fired: bool)
      requires Valid()
      modifies this`activeLightIndex
      ensures Valid()
      ensures fired == timers.lightInterval.Some? && fired == (CurrentPhase() == Spinning)
      ensures activeLightIndex == if fired then NextLight(old(activeLightIndex)) else old(activeLightIndex)
    {
      fired := timers.lightInterval.Some?;
      if fired {
        activeLightIndex := NextLight(activeLightIndex);
      }
    }

    /**
     * The bounce timeout: the light interval is cleared and the lights go
     * out, and the strip eases with the bounce curve onto the final offset.
     */
    method BounceTimeout() returns (fired: bool)
      requires Valid()
      modifies this`timers, this`activeLightIndex, this`reel
      ensures Valid()
      ensures fired == (old(CurrentPhase()) == Spinning)
      ensures !fired ==> unchanged(this)
      ensures fired ==>
        && CurrentPhase() == Bouncing && activeLightIndex == None
        && timers == old(timers).(lightInterval := None, bounceTimeout := None)
        && reel == ReelStyle(plan.value.finalY, BOUNCE_DURATION_MS, BounceBack)
    {
      if timers.bounceTimeout.None? {
        return false;
      }
      fired := true;
      timers := timers.(lightInterval := None);
      activeLightIndex := None;
      reel := ReelStyle(plan.value.finalY, BOUNCE_DURATION_MS, BounceBack);
      timers := timers.(bounceTimeout := None);
    }

    /**
     * The settle timeout (it always fires after the bounce timeout): the spin
     * ends, the winner is selected and emitted once, the winner's strip
     * position is published for decoration, and its roster index is kept as
     * the seed of the next spin.
     */
    method SettleTimeout() returns (fired: bool)
      requires Valid()
      modifies this`timers, this`isSpinning, this`selectedItem, this`completions,
               this`resultVisible, this`winningIndex, this`lastWinnerIndex
      ensures Valid()
      ensures fired == (old(CurrentPhase()) == Bouncing)
      ensures !fired ==> unchanged(this)
      ensures fired ==>
        var p := plan.value;
        && CurrentPhase() == Idle && timers == NO_TIMERS
        && selectedItem == Some(p.winner) && resultVisible
        && completions == old(completions) + [p.winner]
        && winningIndex == Some(p.targetIndexInStrip)
        && lastWinnerIndex == p.winnerIndex
    {
      if timers.settleTimeout.None? || timers.bounceTimeout.Some? {
        return false;
      }
      fired := true;
      var p := plan.value;
      isSpinning := false;
      selectedItem := Some(p.winner);
      completions := completions + [p.winner];
      resultVisible := true;
      winningIndex := Some(p.targetIndexInStrip);
      lastWinnerIndex := p.winnerIndex as nat;
      timers := timers.(settleTimeout := None);
    }

    /** Row shadow: the golden frame only on the winner's row, and only once settled. */
    function GetBoxShadow(index: int): (s: Shadow)
      reads this
      ensures s == WinnerShadow <==> !isSpinning && winningIndex == Some(index)
    {
      var winnerIdx := winningIndex;
      if isSpinning || winnerIdx.None? then BaseShadow
      else if index == winnerIdx.value then WinnerShadow
      else BaseShadow
    }

    /** Row transform: only the rows next to the settled winner are tilted. */
    function GetItemTransform(index: int): (t: ItemTransform)
      reads this
      ensures t == TiltBack <==> !isSpinning && winningIndex.Some? && index == winningIndex.value - 1
      ensures t == TiltForward <==> !isSpinning && winningIndex.Some? && index == winningIndex.value + 1
      ensures isSpinning || winningIndex.None? ==> t == NoTransform
    {
      var winnerIdx := winningIndex;
      if isSpinning || winnerIdx.None? then NoTransform
      else if index == winnerIdx.value - 1 then TiltBack
      else if index == winnerIdx.value + 1 then TiltForward
      else NoTransform
    }
  }

  /**
   * Once settled on an unchanged roster, exactly one row of the rendered
   * strip has the golden frame, and that row shows the emitted winner.
   */
  lemma SettledHighlightShowsWinner(c: WheelComponent, index: int)
    requires c.Valid() && c.CurrentPhase() == Idle && c.selectedItem.Some?
    requires c.items == c.spinRoster
    ensures c.winningIndex.Some? && 0 <= c.winningIndex.value < |ReelItems(c.items)|
    ensures ReelItems(c.items)[c.winningIndex.value].id == c.selectedItem.value.id
    ensures c.GetBoxShadow(index) == WinnerShadow <==> index == c.winningIndex.value
  {
    PositionsInsideStrip(c.items, c.lastWinnerIndex, c.lastWinnerIndex);
  }
}
