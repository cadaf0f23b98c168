# Rhythm farm — a verified model of the simulation core

This project models the simulation logic of a rhythm-and-farming game written in
TypeScript on Phaser. The rendering layer is left out. There are four parts:

- **Plots** (`grid.dfy`, module `Plots`, from `src/Grid.ts`).
  - A plot has a soil state (Virgin, Plowed, Watered, Deprecated) and a plant age, where −1 means no plant. A carrot matures at age 5.
  - `beInteracted` dispatches an action to plow, water, sow or reap. It does not check whether the action is legal.
  - `getAvailableActions` is a fixed decision table.
  - The growth timer and the two-phase harvest animation are explicit steps: `OnGrowthTick` and `OnReapComplete`. All running growth timers add 1 to the age on every firing, so the model keeps only the number of firings still due (`pendingGrowth`).
- **Plot table and coordinate keys** (`utils.dfy` and `grid_manager.dfy`, modules `CoordKeys` and `PlotTable`, from `src/utils.ts` and `src/GridManager.ts`).
  - Coordinates become comma-joined decimal strings. `toCoord` splits a key back into text pieces.
  - A nested dictionary maps island key → local key → plot, with one 3 × 3 block per island.
  - The model proves that keys are injective, so a lookup returns the plot of exactly the coordinates asked for.
- **Rhythm track** (`beat_badge.dfy` and `rhythm_board.dfy`, modules `Beats` and `Rhythm`, from `src/BeatBadge.ts` and `src/RhythmBoard.ts`).
  - The board keeps a pool of at most 40 badge objects. It spawns beats from a cyclic template, and the speed comes from the tempo.
  - The pool's `get`, the per-frame child update and availability marking are modelled.
  - The nearest-hittable-beat query is modelled as the source writes it: a filter, then a reduce with a strict `<`.
- **Hero** (`hero.dfy`, module `Heroes`, from `src/Hero.ts`).
  - The `busy` flag is driven by animation start and complete events.
  - The action routines are modelled together with the point at which each routine's promise resolves.
  - Moves are tweens. A move spans one plot, or two at the island's edge. The hero's coordinates and depth change only when the tween completes.

Shared enumerations are in `types.dfy` (module `GameTypes`, from `src/type.ts`).

Each stateful object is a Dafny `class` whose fields the methods update in place. A reads-only function (`State()`, `View()`, `Views()`, `Anim()`) returns the object's simulation state as a value. Each method's postcondition ties the new state to a pure transition function of the old state. The properties are lemmas about those functions: the decision table, growth runs, reachable-state bounds, key injectivity, the argmin rule, the busy gate and the step rule.

Positions, speeds and frame times are exact reals. Phaser events, timers and tweens are methods that the environment calls:

- `OnGrowthTick`
- `OnReapComplete`
- `FinishAnimation`
- `FireTimer`
- `StartTween`
- `CompleteTween`
- `UpdateBadges`

Three behaviours of the code are easy to misread; the model follows the code in each:

- `beInteracted` (src/Grid.ts:85-100) applies any action without consulting `getAvailableActions` (src/Grid.ts:166-186). `Plots.InteractIgnoresLegality` states what Plow and Sow do in every state. The bounds that hold when only offered actions are applied are proved separately, in `Plots.LegalRunsStayInBounds`.
- Small badges are filler: `updateBeatsAvailable` (src/RhythmBoard.ts:164-171) sets `available` on big badges only, so marking never makes a small badge hittable. But `createBeat` (src/RhythmBoard.ts:135-149) resets `hit` and not `available`. A pool slot that scrolled out as a big, available beat and is reused for a small beat therefore stays available. `Rhythm.ReusedSmallBadgeIsHittable` exhibits such a small badge being returned by the hit query.
- `busy` is set when a clip of `busyActions` starts and cleared only when a clip of `busyActions` completes (src/Hero.ts:76-85). Playing another clip over a running one emits no complete event. If a move's tween ends and plays idle before the jump clip completes, `busy` stays set (`Heroes.InterruptedJumpLeavesBusy`). Whether that happens depends on Phaser's frame timing, which is not modelled.

## Model

| member | source | states |
|---|---|---|
| CoordKeys.NatToDecimal | src/utils.ts:1-3 | the decimal text of a number is non-empty and made of digits only |
| CoordKeys.IntToDecimal | src/utils.ts:1-3 | the text of an integer never contains the separator comma |
| CoordKeys.NatDecimalRoundTrip | src/utils.ts:1-3 | reading the decimal digits back gives the same natural number |
| CoordKeys.IntDecimalRoundTrip | src/utils.ts:1-3 | reading an integer's text back, with its sign, gives the same integer |
| CoordKeys.IntToDecimalInjective | src/utils.ts:1-3 | distinct integers have distinct texts |
| CoordKeys.Split | src/utils.ts:6 | `split` on one character gives at least one piece, and no piece contains the separator |
| CoordKeys.SplitNoSeparator | src/utils.ts:6 | a string without the separator splits into itself alone |
| CoordKeys.SplitAtSeparator | src/utils.ts:6 | splitting `a + sep + b`, where `a` has no separator, gives `a` followed by the pieces of `b` |
| CoordKeys.FromCoord | src/utils.ts:1-3 | the key of an integer coordinate contains exactly one comma |
| CoordKeys.ToCoord | src/utils.ts:5-11 | x is the text before the first comma, or the whole text when there is none; y is present exactly when the text holds a comma |
| CoordKeys.ToCoordFromCoord | src/utils.ts:1-11 | toCoord(fromCoord(c)) gives the decimal strings of c.x and c.y, as text rather than numbers |
| CoordKeys.FromCoordInjective | src/utils.ts:1-3 | two coordinates with the same key are equal |
| CoordKeys.ToCoordWithoutComma | src/utils.ts:5-11 | a string without a comma gives x = the whole string and y undefined |
| Plots.HasPlant | src/Grid.ts:162-164 | the no-plant sentinel −1 lies below every real age |
| Plots.IsMature | src/Grid.ts:158-160 | only a plot with a plant of positive age is mature |
| Plots.AvailableActions | src/Grid.ts:166-186 | Plow is offered exactly on virgin soil, Water exactly on plowed soil, Sow exactly on plowed or watered soil without a plant, Reap exactly on watered soil with a mature plant, none twice |
| Plots.AvailableActionsTable | src/Grid.ts:166-186 | getAvailableActions returns exactly the seven rows of the decision table, including [] for Deprecated and for a watered, growing plant |
| Plots.FreshPlotOffersPlow | src/Grid.ts:30-32 | a plot as initialised (Virgin, age −1) offers only Plow |
| Plots.InteractIgnoresLegality | src/Grid.ts:85-104 | in any state, Plow sets Plowed and keeps the age, and Sow sets age 0 and keeps the soil |
| Plots.GrowthStarts | src/Grid.ts:106-121 | Water sets Watered and starts a growth run exactly when the age is 0; Sow starts one exactly when the soil is already Watered |
| Plots.TicksAdvanceAge | src/Grid.ts:188-197 | n timer firings add exactly n to the age and use up n scheduled firings |
| Plots.GrowthRunReachesMaturity | src/Grid.ts:188-197 | a run started at age 0 fires 5 times and ends at exactly 5: mature, and on watered soil it offers only Reap |
| Plots.ReapInTwoPhases | src/Grid.ts:123-156 | reaping sets the age to mature+1; while the animation runs the plot has a plant, is not mature and offers []; on completion the soil is Plowed and the age −1 |
| Plots.LegalStepKeepsSound | src/Grid.ts:85-197 | an offered action, a due timer firing or a due harvest completion keeps a plot within the reachable states |
| Plots.LegalRunKeepsSound | src/Grid.ts:85-197 | every run of such events keeps a plot within the reachable states |
| Plots.LegalRunsStayInBounds | src/Grid.ts:166-197 | from a fresh plot, applying only offered actions never leaves a plant on Virgin soil and keeps the age within −1..mature+1 |
| Plots.Grid.constructor | src/Grid.ts:26-45 | a new plot keeps its island and local coordinates, is a carrot plot, Virgin, age −1, with no timers |
| Plots.Grid.BeInteracted | src/Grid.ts:85-100 | the new state is the dispatched transition for the action, whatever the current state |
| Plots.Grid.BePlowed | src/Grid.ts:102-104 | soil becomes Plowed; nothing else changes |
| Plots.Grid.BeWatered | src/Grid.ts:106-112 | soil becomes Watered; growth is scheduled iff the age is 0 |
| Plots.Grid.BeSowed | src/Grid.ts:114-121 | the age becomes 0; growth is scheduled iff the soil is Watered |
| Plots.Grid.BeReaped | src/Grid.ts:123-146 | the age becomes mature+1 and a harvest animation is pending |
| Plots.Grid.StartGrowth | src/Grid.ts:188-191 | schedules mature (= repeat + 1) firings of the growth timer |
| Plots.Grid.OnGrowthTick | src/Grid.ts:192-194 | one firing adds 1 to the age |
| Plots.Grid.OnReapComplete | src/Grid.ts:147-151 | the end of the harvest's second phase sets Plowed and age −1 |
| Plots.Grid.BeDeprecated | src/GridManager.ts:41 | the call is recorded once on that plot |
| PlotTable.GridManager.constructor | src/GridManager.ts:8-12 | the table starts empty |
| PlotTable.GridManager.GetIslandGrids | src/GridManager.ts:35-37 | returns the island's dictionary exactly when its key is present, else undefined |
| PlotTable.GridManager.Get | src/GridManager.ts:29-33 | null exactly for an island never created; for a created island, a plot exactly for local coordinates in 0..2, carrying the island and local coordinates asked for, and it is the plot stored under those keys |
| PlotTable.GridManager.CreateIslandGrids | src/GridManager.ts:14-27 | files a fresh Virgin plot under the island key for every (i, j) in 0..2 × 0..2, with the island and (i, j) as coordinates; it replaces earlier plots of that island and leaves other islands unchanged |
| PlotTable.GridManager.NewIslandGrids | src/GridManager.ts:16-24 | the nested loop builds one fresh plot per local coordinate, under that coordinate's key |
| PlotTable.GridManager.DeprecateIslandGrids | src/GridManager.ts:39-43 | throws exactly for an island never created; otherwise calls beDeprected once on each plot of the island and on no plot of another island |
| PlotTable.GridManager.DeprecateEach | src/GridManager.ts:40-42 | the forEach reaches every plot of the set exactly once |
| Beats.InRangeWindow | src/BeatBadge.ts:61-67 | a badge is in range iff its x is within 32 of the middle of the canvas |
| Beats.AdvanceMoves | src/BeatBadge.ts:91-101 | an active badge moves by delta·v and an inactive one does not; a badge left of 0 is inactive; no other field changes |
| Beats.TravelOverFrames | src/BeatBadge.ts:91-101 | over frames totalling T, an active badge that stays right of 0 moves exactly v·T and stays active |
| Beats.BeatBadge.constructor | src/BeatBadge.ts:7-12 | a new badge is small, without action, motionless, unavailable, unhit and active at the given x |
| Beats.BeatBadge.Set | src/BeatBadge.ts:14-36 | records type and action only; available, hit, v and x are untouched |
| Beats.BeatBadge.SetV | src/BeatBadge.ts:38-41 | changes v only |
| Beats.BeatBadge.SetAvailable | src/BeatBadge.ts:43-46 | changes available only |
| Beats.BeatBadge.SetHit | src/BeatBadge.ts:48-51 | changes hit only |
| Beats.BeatBadge.SetActive | src/RhythmBoard.ts:141 | changes active only |
| Beats.BeatBadge.SetX | src/RhythmBoard.ts:140 | changes x only, as the pool does for a reused badge |
| Beats.BeatBadge.Update | src/BeatBadge.ts:91-101 | the badge after a frame is the one-frame motion and retirement step of its old state |
| Beats.BeatBadge.IsBigType | src/BeatBadge.ts:53-55 | a badge is big exactly when it is not small |
| Beats.BeatBadge.IsSmallType | src/BeatBadge.ts:57-59 | a badge is small exactly when it is not big |
| Beats.BeatBadge.IsInRange | src/BeatBadge.ts:61-63 | in range exactly when x lies within 32 of the middle of the canvas |
| Beats.BeatBadge.GetDistance | src/BeatBadge.ts:65-67 | the distance to the middle of the canvas: never negative, zero exactly at the middle |
| Beats.BigOrSmall | src/BeatBadge.ts:53-59 | isBigType and isSmallType exclude each other and cover every badge |
| Rhythm.VelocityCoversSpacing | src/RhythmBoard.ts:137-138 | at v = spacing / unitTime a badge covers exactly one spacing per spawn interval, for any bps > 0 |
| Rhythm.SpawnedBadgeReachesHitZone | src/RhythmBoard.ts:136-138 | a badge armed at the spawn position with the tempo's velocity is exactly at the middle of the canvas, still active, after frames totalling delayBeats spawn intervals, however the frames are cut |
| Rhythm.ArrivalAfterLeadIn | src/RhythmBoard.ts:136-138 | a badge spawned at width/2 + spacing·delayBeats reaches width/2 after delayBeats spawn intervals, for any tempo |
| Rhythm.DelayBeatsDefault | src/RhythmBoard.ts:30-32 | delayBeats is 8 unless the configuration supplies one |
| Rhythm.FirstInactive | src/RhythmBoard.ts:140 | the slot the pool reuses is inactive and every badge before it is active; with no such slot, all are active |
| Rhythm.SpawnBounded | src/RhythmBoard.ts:90-97 | spawning never shrinks the pool and never takes it above 40 badges |
| Rhythm.SpawnPlacesBeat | src/RhythmBoard.ts:135-149 | the taken slot gets the template's type and action, x, v, hit false and active; a reused slot keeps its `available`, a new one is unavailable; other badges are unchanged; a full pool with no inactive badge is unchanged |
| Rhythm.Candidates | src/RhythmBoard.ts:152-155 | the filter yields, in pool order, exactly the indices of badges that are available, unhit and in range |
| Rhythm.ReduceArgmin | src/RhythmBoard.ts:156-161 | the reduce yields nothing only for no candidates; otherwise it yields a candidate no farther than any other, and strictly closer than every candidate before it |
| Rhythm.HitableIndexSelects | src/RhythmBoard.ts:151-162 | the query finds nothing iff no badge is available, unhit and in range; otherwise the nearest such badge, the earliest on equal distances |
| Rhythm.MarkAllSetsBigOnly | src/RhythmBoard.ts:164-171 | a big badge becomes available iff its action is in the list; small badges keep their flag; nothing else changes |
| Rhythm.MarkedUnofferedBigNeverHit | src/RhythmBoard.ts:164-171 | after marking, a big badge returned by the query carries an offered action |
| Rhythm.ReusedSmallBadgeIsHittable | src/RhythmBoard.ts:140-146 | a big available badge that scrolled out and is reused for a small beat keeps `available`, and the query returns it |
| Rhythm.RhythmBoard.constructor | src/RhythmBoard.ts:25-33 | keeps the tempo and the sequence, takes delayBeats from the configuration or 8, and starts at beat 0 with an empty pool |
| Rhythm.FirstInactiveAt | src/RhythmBoard.ts:140 | the reused slot is the one before which every badge is active, or there is none when all are active |
| Rhythm.TakeCases | src/RhythmBoard.ts:140 | get moves the first inactive badge to x; with none it appends a new badge while fewer than 40 exist and otherwise changes nothing |
| Rhythm.SpawnArmsTaken | src/RhythmBoard.ts:140-146 | createBeat's effect is get followed by arming the badge in the slot taken |
| Rhythm.HitableBadgeSelects | src/RhythmBoard.ts:151-162 | the selection rule of the query, read on the badge objects of the pool |
| Rhythm.RhythmBoard.TakeBadge | src/RhythmBoard.ts:140 | the pool's get: the first inactive badge moved to x, else a new badge while fewer than 40 exist, else null |
| Rhythm.RhythmBoard.FindInactive | src/RhythmBoard.ts:140 | the search of get finds the first inactive badge, or reports that all are active |
| Rhythm.RhythmBoard.ReuseBadge | src/RhythmBoard.ts:140 | a reused badge moves to x; nothing else in the pool changes |
| Rhythm.RhythmBoard.AppendBadge | src/RhythmBoard.ts:140 | a new small, unavailable, active badge at x joins the end of the pool, and the pool stays within 40 distinct badges |
| Rhythm.RhythmBoard.Arm | src/RhythmBoard.ts:141-146 | the setter chain makes the badge active and unhit with the template's type and action and speed v, and keeps x and `available` |
| Rhythm.RhythmBoard.CreateBeat | src/RhythmBoard.ts:135-149 | the pool becomes the spawn of template beatCount mod length at the lead-in x with the tempo's speed; beatCount grows by 1 even when null is returned |
| Rhythm.RhythmBoard.GetHitableBeat | src/RhythmBoard.ts:151-162 | null iff no badge is available, unhit and in range; otherwise the badge at a position where it is such a badge, no farther from the hit zone than any other, and strictly nearer than every such badge before it |
| Rhythm.RhythmBoard.UpdateBeatsAvailable | src/RhythmBoard.ts:164-171 | every badge's new state is its availability marking for the list |
| Rhythm.RhythmBoard.MarkEach | src/RhythmBoard.ts:165-170 | the loop over the children marks every badge and leaves each badge's other fields alone |
| Rhythm.RhythmBoard.UpdateBadges | src/RhythmBoard.ts:94 | one frame of child updates advances every badge by its own update |
| Rhythm.RhythmBoard.AdvanceEach | src/RhythmBoard.ts:94 | every badge of the group takes exactly one update step |
| Heroes.BusyExactlyFinite | src/Hero.ts:30-75 | the busy clips are exactly the clips that do not loop |
| Heroes.BusyHandlers | src/Hero.ts:75-85 | starting a busy clip sets busy, and starting idle or applause leaves it; completing a busy clip clears busy, and completing another leaves it |
| Heroes.AnimStepKeepsGate | src/Hero.ts:75-85 | while a busy clip plays the hero stays busy, across any single start or completion |
| Heroes.AnimRunKeepsGate | src/Hero.ts:75-85 | the same holds across every run of animation events |
| Heroes.InterruptedJumpLeavesBusy | src/Hero.ts:75-85 | a jump replaced by idle before completing leaves busy set while only idle plays |
| Heroes.InteractRoutineTable | src/Hero.ts:90-127 | each action plays its own busy clip; plow and water resolve 120 ms after the start, reap after a 0 ms timer, sow on the next complete event; no action resolves at once with no clip |
| Heroes.StepRule | src/Hero.ts:161-213 | a move spans 2 plots from column 0 leftwards, column 2 rightwards, row 0 upwards or row 2 downwards, and 1 otherwise |
| Heroes.MoveDisplacement | src/Hero.ts:161-213 | the tween's end value lies 64 or 128 pixels away in the move's direction; only up (−2) and down (+2) change the depth |
| Heroes.DepthFollowsRow | src/Hero.ts:187-213 | when the neighbour is one global row up or down, the depth change keeps the depth equal to the constructor's formula for the new place |
| Heroes.Hero.constructor | src/Hero.ts:14-28 | the hero starts at its place, not busy and playing idle, at depth 999 + (3·island y + local y)·2 |
| Heroes.Hero.OnAnimationStart | src/Hero.ts:76-80 | the start listener sets busy for a busy clip and otherwise leaves it |
| Heroes.Hero.OnAnimationComplete | src/Hero.ts:81-85 | the complete listener clears busy for a busy clip and otherwise leaves it |
| Heroes.Hero.Play | src/Hero.ts:105-107 | playing a clip makes it current and fires its start event, keeping the busy gate |
| Heroes.Hero.FinishAnimation | src/Hero.ts:81-85 | a clip that runs once ends: the complete listener runs and every once-registered resolver is called |
| Heroes.Hero.Interact | src/Hero.ts:90-127 | plays the routine's sound and clip and registers its resolution point; no action changes nothing and resolves at once |
| Heroes.Hero.Do | src/Hero.ts:139-159 | plays the clip, then starts a timer with the delay or registers one complete-event resolver |
| Heroes.Hero.FireTimer | src/Hero.ts:149-154 | a resolve timer fires once and is gone |
| Heroes.Hero.GoLeft | src/Hero.ts:161-172 | schedules a leftward tween to x − 64 or x − 128; place, depth and position stay unchanged |
| Heroes.Hero.GoRight | src/Hero.ts:174-185 | schedules a rightward tween to x + 64 or x + 128; place, depth and position stay unchanged |
| Heroes.Hero.GoUp | src/Hero.ts:187-199 | schedules an upward tween to y − 64 or y − 128; place, depth and position stay unchanged |
| Heroes.Hero.GoDown | src/Hero.ts:201-213 | schedules a downward tween to y + 64 or y + 128; place, depth and position stay unchanged |
| Heroes.Hero.Go | src/Hero.ts:215-231 | only adds the tween |
| Heroes.Hero.StartTween | src/Hero.ts:221-223 | the tween's start plays the jump sound and clip, so the hero is busy; its place is unchanged |
| Heroes.Hero.CompleteTween | src/Hero.ts:224-227 | the tweened coordinate reaches its end value, idle plays, the depth moves by the direction's delta, and only now does the place become the neighbour in that direction |

## Left out

- Rendering is left out: sprites, textures, frames, masks, scales, alphas, icons and the plots' pixel positions. So are the beat-pulse and hit-zone marker tweens, music, sound playback and the animation clip definitions. The hero's sounds are recorded as a list of requested keys.
- Floating point: positions, speeds, frame times and the spawn interval are exact reals, and hero pixel positions are integers.
- CoordKeys.IntToDecimal: coordinates are integers. JavaScript's exponent notation for magnitudes of 1e21 and above, non-integer coordinates and −0 are not modelled.
- `beDeprected` is not defined in the modelled files. `Plots.Grid.BeDeprecated` only records that it was invoked; its contract leaves the plot's state unspecified.
- `getLeft`, `getRight`, `getUp` and `getDown` are not part of this model. The hero receives them as the function-valued constant `neighbour`.
- `BEAT_BADGE_SPACING`, the canvas width, `CANVAS_HALF_WIDTH` and `CENTER_GRID_Y` are constructor parameters. Their values are defined outside the modelled files.
- Timers and tweens are not clocked:
  - the spawn timer and the first `createBeat` in `play`, and `start`/`stop`;
  - growth timers;
  - harvest and move tweens.

  Each of their callbacks is a method that the environment calls: `CreateBeat`, `OnGrowthTick`, `OnReapComplete`, `StartTween` and `CompleteTween`. Tween interpolation is not modelled; a tween reaches its end value only when it completes.
- Rhythm.RhythmBoard.constructor requires bps > 0 and a non-empty sequence. With bps ≤ 0 the source's spawn interval is infinite or negative. With an empty sequence, `createBeat` passes undefined to `set`, which throws. Neither configuration is modelled. Calling `createBeat` before `start` also throws, because the group does not exist yet; that is not modelled either.
- The pool's `get` receives y as well. The badges' y, mask and scroll factor are rendering and are left out.
- Hero animation timing is not modelled: clip durations, and whether a jump clip ends before or after its move's tween. Which of these events happens first is chosen by the caller of the step methods.
- `Heroes.Hero.Interact` takes an optional action. The absent case stands for any value outside the four actions, which falls to the `default` branch.
