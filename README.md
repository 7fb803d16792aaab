# Slot-reel winner picker — a Dafny model

This project models the core of an Angular page that picks a winner from a
roster of players with a slot-machine reel:

- **Winner selection** (`WheelSelection`): one draw `r` in [0, 1) walks the
  roster, adding up the weights, and picks the first entry whose running sum
  exceeds the draw. If none does, it picks the last entry.
- **Strip geometry** (`WheelGeometry`):
  - the reel shows the roster tiled 15 times;
  - a spin starts at the last winner's position in repetition 10;
  - it lands on the new winner in repetition 5;
  - scroll offsets centre a strip position in the viewport.
- **The reel component** (`WheelComponentModel`):
  - the component is a class with its fields;
  - `spin()` and its three deferred callbacks are event methods. The callbacks
    are the animation frame, the bounce timeout and the settle timeout. The
    light interval's tick is an event method too;
  - each event runs only when its timer is pending in the model;
  - there are also the row decorations (shadow and tilt).
- **The data service** (`WheelDataModel`):
  - the fixed test roster, which gets equal weights in place;
  - the mapping of the players endpoint's answer. It keeps places 4–10,
    turns each numeric id into decimal text and normalises the weights to sum to 1.
- **The page shell** (`AppModel`):
  - toggling the data source;
  - the load state shown for a finished load, with a default error message;
  - the winners' history, which keeps the five latest.

Shared value types (`WheelItem`, `Option`, running sums of weights) are in
`Models`.

In the source, `spin()` is **rejected** while a spin is in flight
(src/components/wheel/wheel.component.ts:64). The comment at line 68 speaks
of a "possibly interrupted spin" whose timers are cleared and restarted, but
with timers that fire in the order of their delays (see "## Left out") no
such interruption can happen. The model follows the code. The timer
clearing at lines 69–71 therefore only ever clears timers that already
fired.

## Model

| member | source | states |
|---|---|---|
| Models.Cumulative | src/components/wheel/wheel.component.ts:190-192 | The running sum of the first k weights the selection loop accumulates; it is never negative when the weights are not. |
| Models.CumulativeMonotone | src/components/wheel/wheel.component.ts:190-193 | With non-negative weights, the running sum the selection loop builds never decreases. |
| Models.CumulativeUniform | wheel-data.service.ts:51-54 | k entries that all weigh p have running sum k·p. |
| Models.UniformWeightsSumToOne | wheel-data.service.ts:50-54 | Giving each of k > 0 entries the weight 1/k makes the weights sum to exactly 1. |
| Models.WithProbability | wheel-data.service.ts:32 | Sets every weight to p and keeps each entry's other fields and its position. |
| WheelSelection.PickIndex | src/components/wheel/wheel.component.ts:188-196 | The pick is always an index inside a non-empty roster. |
| WheelSelection.PickIndexIsFirstAbove | src/components/wheel/wheel.component.ts:190-195 | The pick is the first entry whose running sum exceeds the draw. No earlier entry's sum does. If no entry's sum does, the pick is the last entry. |
| WheelSelection.PickIndexInterval | src/components/wheel/wheel.component.ts:188-196 | With non-negative weights and a non-negative draw, entry i is picked iff its running sum before it is ≤ r and r is below the sum including it. The last entry also takes every draw at or above the total. |
| WheelSelection.BoundaryPicksUpper | src/components/wheel/wheel.component.ts:193 | The comparison is strict: a draw equal to the running sum up to entry j never picks j or an earlier entry. It picks j+1 when that entry has positive weight. |
| WheelSelection.UniformPickInterval | src/components/wheel/wheel.component.ts:188-196 | With n equal weights 1/n and r in [0, 1), entry i is picked iff i/n ≤ r < (i+1)/n. So each entry gets an equal share of the draws. |
| WheelSelection.DetermineWinner | src/components/wheel/wheel.component.ts:188-196 | The loop returns exactly the entry PickIndex characterises, fall-back included. |
| WheelGeometry.RepeatAt | src/components/wheel/wheel.component.ts:41 | k copies of a roster of n entries have length k·n. Position i holds entry i mod n. |
| WheelGeometry.ReelItems | src/components/wheel/wheel.component.ts:37-42 | An empty roster gives an empty strip. Otherwise the strip has length 15·n and position i shows roster entry i mod n. |
| WheelGeometry.StartIndexInStrip | src/components/wheel/wheel.component.ts:172-177 | For a last winner inside the roster, the start position lies inside repetition 10 of the strip: in [10n, 11n). |
| WheelGeometry.TargetIndexInStrip | src/components/wheel/wheel.component.ts:172-181 | For a winner inside the roster, the target position lies inside repetition 10 − 5 = 5 of the strip: in [5n, 6n). |
| WheelGeometry.OffsetOf | src/components/wheel/wheel.component.ts:175-183 | The item at that strip position sits centred in the viewport: the margin above it (its top minus the offset) equals the margin below it (the viewport height minus its bottom, relative to the offset). |
| WheelGeometry.OffsetDifference | src/components/wheel/wheel.component.ts:178-183 | Two centring offsets differ by the difference of their strip positions times the item height. |
| WheelGeometry.CalculateTargetPosition | src/components/wheel/wheel.component.ts:164-186 | An empty roster gives zeros. Otherwise the target is position 5n + winner and both offsets centre their positions. The strip travels exactly (5n + last − winner) item heights. |
| WheelGeometry.SpinMovesForward | src/components/wheel/wheel.component.ts:171-183 | For a winner index inside the roster and a positive item height, the start lies strictly after the target (startY > finalY), whatever the last winner was. |
| WheelGeometry.PositionsInsideStrip | src/components/wheel/wheel.component.ts:177-181 | With both indices inside the roster, 0 ≤ target < start < 15n. The target position shows the winner and the start position shows the last winner. |
| WheelGeometry.StartPastStripAfterShrink | src/components/wheel/wheel.component.ts:177 | The kept last-winner index is not re-checked against a new roster. Once it is at least 5 times the new length, the start position lies past the end of the strip. |
| WheelComponentModel.FindIndexById | src/components/wheel/wheel.component.ts:80 | `findIndex` by id gives −1 or an index of the roster whose entry carries the id. |
| WheelComponentModel.IndexOfIdFrom | src/components/wheel/wheel.component.ts:80 | The search result is −1 or an index at or after the start whose entry carries the id. |
| WheelComponentModel.IndexOfIdFromIsFirst | src/components/wheel/wheel.component.ts:80 | findIndex returns the first entry carrying the id, and −1 iff no entry does. |
| WheelComponentModel.FindIndexOfMember | src/components/wheel/wheel.component.ts:80 | For an entry at index k, the index found by its id is in [0, k] and carries the same id. With unique ids it is k. |
| WheelComponentModel.NextLight | src/components/wheel/wheel.component.ts:99 | No light becomes lamp 0; on the three lamps one tick is the successor modulo 3 (2 wraps to 0). |
| WheelComponentModel.LightStepMs | src/components/wheel/wheel.component.ts:97 | For a positive spin duration the light period is positive and shorter than the duration. |
| WheelComponentModel.LightTicksPerSpin | src/components/wheel/wheel.component.ts:97-100 | For a positive duration, k light ticks fit into the spin duration iff k ≤ 5 · 3 = 15: three light steps per revolution. |
| WheelComponentModel.LightsAfterFullSpin | src/components/wheel/wheel.component.ts:97-100 | After the 15 ticks of one spin the lights have gone round five times and rest on the last lamp (2). |
| WheelComponentModel.LightsCycle | src/components/wheel/wheel.component.ts:98-100 | Starting from no light, the k-th tick lights lamp (k − 1) mod 3. |
| WheelComponentModel.NextLightInRange | src/components/wheel/wheel.component.ts:99 | From no light or a lamp in 0..2, a tick always lights a lamp in 0..2. |
| WheelComponentModel.PlanSpin | src/components/wheel/wheel.component.ts:79-81 | The winner is the entry picked for the draw. Its index is the first entry with its id, which is the picked index itself when ids are unique. The target and the offsets are those of calculateTargetPosition, and startY > finalY. |
| WheelComponentModel.WheelComponent.constructor | src/components/wheel/wheel.component.ts:17-35 | Initial state: not spinning, offset 0, no transition, ease-out, nothing selected, no lights, duration 3000 ms, heights 128 px, last winner 0, no timers. |
| WheelComponentModel.WheelComponent.SetItems | src/components/wheel/wheel.component.ts:12 | The roster input is replaced. Nothing else changes. |
| WheelComponentModel.WheelComponent.SetSpinDuration | src/components/wheel/wheel.component.ts:58-61 | The spin duration is set. Nothing else changes. |
| WheelComponentModel.WheelComponent.Spin | src/components/wheel/wheel.component.ts:63-88 | A spin is accepted iff none is in flight and the roster is non-empty. A rejected call changes nothing. An accepted one clears the result and the lights, plans the winner and target for the draw, and puts the strip at the start offset with a 0 ms transition. The start offset lies past the final offset. Only the animation frame is pending afterwards. |
| WheelComponentModel.WheelComponent.AnimationFrame | src/components/wheel/wheel.component.ts:88-121 | Only right after a spin: a linear transition over the spin duration to 60 px past the final offset (an overshoot the bounce takes back). The light interval starts with period duration/5/3. The bounce timeout is scheduled at the duration and the settle timeout at the duration + 500 ms. |
| WheelComponentModel.WheelComponent.LightTick | src/components/wheel/wheel.component.ts:98-100 | A tick happens only while the interval runs (the main spin phase). It advances the light 0→1→2→0. |
| WheelComponentModel.WheelComponent.BounceTimeout | src/components/wheel/wheel.component.ts:103-110 | Only during the main spin: the interval is cleared and the lights go out. The strip moves to the exact final offset over 500 ms with the bounce curve. |
| WheelComponentModel.WheelComponent.SettleTimeout | src/components/wheel/wheel.component.ts:113-120 | Only after the bounce: the spin ends, the planned winner is selected and emitted once, the result shows, and the winning strip position is published. The winner's roster index becomes the next spin's seed. No timer is left pending. |
| WheelComponentModel.WheelComponent.GetBoxShadow | src/components/wheel/wheel.component.ts:124-142 | A row gets the winner's shadow iff no spin is in flight and it is the published winning position. |
| WheelComponentModel.WheelComponent.GetItemTransform | src/components/wheel/wheel.component.ts:144-162 | Only the rows directly above and below a settled winner are tilted, back and forward respectively. Nothing is tilted during a spin or before a result. |
| WheelComponentModel.SettledHighlightShowsWinner | src/components/wheel/wheel.component.ts:113-142 | Once settled on an unchanged roster, the winning position lies inside the strip and shows the emitted winner. Exactly that row has the winner's shadow. |
| WheelDataModel.NatToString | wheel-data.service.ts:44 | The decimal text of a natural number is non-empty and made of digits. |
| WheelDataModel.IdString | wheel-data.service.ts:44 | An id's text is non-empty and starts with '-' iff the id is negative. |
| WheelDataModel.ParseNatToString | wheel-data.service.ts:44 | Reading the decimal text of n back gives n. |
| WheelDataModel.ParseIdString | wheel-data.service.ts:44 | Reading an id's text back gives the id. |
| WheelDataModel.IdStringInjective | wheel-data.service.ts:44 | Two ids have the same text iff they are equal. |
| WheelDataModel.Window | wheel-data.service.ts:40 | slice(3, 10) is clamped to the answer: empty for at most 3 players, otherwise min(n, 10) − 3 players, where position i holds player 3 + i. |
| WheelDataModel.ToWheelItem | wheel-data.service.ts:43-48 | An entry made from a player carries the player's nickname and avatar and the base weight 1, and its identifier reads back as the player's id. |
| WheelDataModel.MapPlayers | wheel-data.service.ts:40-48 | One entry per player of the window, in order: entry i is made from player 3 + i. |
| WheelDataModel.MapApiPlayers | wheel-data.service.ts:38-56 | One entry per player of the window, in order, with that player's id as text, nickname and avatar. Every weight is 1/k for k entries, which sum to 1, and there are at most 7. |
| WheelDataModel.DistinctPlayersGiveUniqueIds | wheel-data.service.ts:43-48 | Players with distinct ids give entries with distinct identifiers, so the spin finds each winner at its own index. |
| WheelDataModel.TestItemsWellFormed | wheel-data.service.ts:17-25 | The seven fixtures of `TEST_ITEMS` (ids test1–test7, weight 0 until normalised) have distinct identifiers. |
| WheelDataModel.UniformWeightsIdempotent | wheel-data.service.ts:29-32 | Setting all weights to the same value again changes nothing. So repeated test loads give the same roster even though they update the shared fixtures. |
| WheelDataModel.WheelDataService.constructor | wheel-data.service.ts:15-25 | The service starts with the fixture roster and the endpoint '/api/players'. |
| WheelDataModel.WheelDataService.GetTestItems | wheel-data.service.ts:28-35 | Each fixture's weight becomes 1/(number of fixtures), in the stored fixtures themselves. The roster handed out holds exactly those fixtures, and its weights sum to 1. |
| WheelDataModel.WheelDataService.GetWheelItems | wheel-data.service.ts:27-59 | The source defaults to the endpoint. The test source gives the normalised fixtures. The endpoint source gives the mapped window and leaves the fixtures alone. The test source with no fixtures leaves them unchanged too. Any non-empty result's weights sum to 1. |
| AppModel.Toggled | src/app.component.ts:55-57 | Toggling always changes the source. |
| AppModel.ToggleTwice | src/app.component.ts:55-57 | Toggling twice restores the source. |
| AppModel.ErrorMessage | src/app.component.ts:41 | The message shown is the error's own when non-empty, otherwise the default text. It is never empty. |
| AppModel.DataStateOf | src/app.component.ts:33-47 | A finished load is never 'loading'. It is 'loaded' iff the roster arrived, with that roster and no error. Otherwise it is 'error' with an empty roster, the error's own message or the default text (as ErrorMessage gives it, never empty), and the endpoint's address. |
| AppModel.PushWinner | src/app.component.ts:59-64 | The new history is the winner followed by the older entries, cut to min(5, old length + 1). |
| AppModel.PushAllKeepsLatest | src/app.component.ts:59-64 | After a run of winners, the history is those winners newest first, then the older history, cut to five. |
| AppModel.AppComponent.constructor | src/app.component.ts:27-53 | The page starts on the test source with an empty history, in the loading state, with the first load running. |
| AppModel.AppComponent.ToggleDataSource | src/app.component.ts:55-57 | The source flips and a load for it starts, replacing any running load. The page keeps showing the previous state until then. |
| AppModel.AppComponent.LoadEnded | src/app.component.ts:30-49 | Only the running load's outcome is shown, mapped by DataStateOf. An ended or replaced load changes nothing. |
| AppModel.AppComponent.AddToHistory | src/app.component.ts:59-64 | The history becomes PushWinner of the old history and stays at most five long. |

## Left out

- Randomness: `Math.random()` is the draw parameter `r` of `Spin` and `DetermineWinner`.
- Timers:
  - `requestAnimationFrame`, `setInterval` and `setTimeout` are not modelled as time.
  - Each pending callback is a field of `Timers`, and the callback is an event method that runs only while it is pending.
  - Real time is reduced to the one order it forces: the bounce timeout (at the duration) comes before the settle timeout (at the duration + 500 ms).
  - That order holds only for delays a browser timer can hold. A browser fires a timeout whose delay exceeds 2^31 − 1 ms at once, so for a spin duration above 2^31 − 1 − 500 ms the settle timeout would fire first and a later spin would find the bounce and the interval still pending. The model takes every duration to be within that bound and does not cover that case.
  - Timer ids are not modelled. `clearInterval`/`clearTimeout` remove the pending callback.
- Layout after `ngAfterViewInit` (wheel.component.ts:44-56) is not modelled: the DOM measurement of the item and viewport heights. Both heights stay at their initial 128 px.
- WheelComponentModel.WheelComponent.SetSpinDuration: the speed slider's `Number(input.value)` parsing is not modelled. The model takes the parsed value as an integer, so NaN and fractional durations are not covered. Durations above 2^31 − 1 − 500 ms, for which a browser reorders the two timeouts, are not covered either (see Timers).
- CSS values are enumerations, not strings:
  - `ReelStyle` holds the offset, the duration and an `Easing` tag instead of the `translateY(...)`, `...ms`, `linear` and `cubic-bezier(...)` strings;
  - shadows and tilts are tags instead of the shadow and `rotateX` strings.
- Floating point: weights, draws and offsets are exact reals. Rounding in `1 / k` and in the running sums is not modelled. The selection members accept any real weights, and the last-entry fallback for a sum under 1 is proved; what is not modelled is the data service producing such a roster through floating-point rounding of `1 / k`.
- WheelDataModel.IdString: `String(player.id)` is modelled for integer ids only. Fractional, exponent-form and non-finite numbers are not covered.
- Player records with fields of other JSON types are not modelled.
- The HTTP request and RxJS wiring (`http.get`, `switchMap`, `catchError`, `startWith`, `toSignal`, console logging) are not modelled:
  - the answer of the endpoint is a parameter;
  - a load's outcome is a `LoadOutcome` value;
  - "a newer load replaces the running one" is a pending flag.
- The test source's synchronous `of(...)` emission is modelled as a load that ends later.
- Object identity: `WheelItem` entries are values. The shared fixture objects that the test branch updates in place are therefore modelled as the service's stored roster being replaced by its normalised copy. The winner emitted and the history hold equal values, not the same objects.
- The emitted `onSpinComplete` event is recorded as the sequence `completions`. Its delivery to the page (`AddToHistory`) is a separate call.
- `src/services/console.service.ts` and `src/components/console/console.component.ts` are outside the winner-picking core.
- `src/models/wheel-item.model.ts` is not part of this model. The `WheelItem` fields (id, nickname, avatar address, weight) are taken from their uses.
- The templates (`*.html`) are not part of this model. Which row index the template passes to the decoration functions is taken to be the strip position.
