/** The player character (src/Hero.ts): the `busy` flag driven by animation events, the
    action routines and the point at which each one reports completion, and grid moves
    whose coordinates are committed only when the move's tween completes. Phaser's
    animation events, timers and tweens are explicit step methods. */
module Heroes {
  import opened GameTypes

  /** GRID_SIZE = TILE_SIZE * 2 = 64 pixels. */
  const GRID_SIZE: int := 64
  const HERO_BASE_DEPTH: int := 999

  /** The hero's animation clips. */
  datatype AnimKey = IdleAnim | JumpAnim | PlowAnim | SowAnim | WaterAnim | ReapAnim | ApplauseAnim

  /** The sound effects the hero triggers. */
  datatype SoundKey = PlowSound | WaterSound | SowSound | YeahSound | JumpSound | ApplauseSound

  /** The clips listed in busyActions. */
  predicate IsBusyAnim(k: AnimKey)
  {
    k == JumpAnim || k == PlowAnim || k == SowAnim || k == WaterAnim || k == ReapAnim
  }

  /** Clips created with repeat: -1; they never complete. */
  predicate Loops(k: AnimKey)
  {
    k == IdleAnim || k == ApplauseAnim
  }

  /** The busy clips are exactly the clips that run once. */
  lemma BusyExactlyFinite(k: AnimKey)
    ensures IsBusyAnim(k) <==> !Loops(k)
  {
  }

  // ---------------------------------------------------------------------------
  // The animation state and the busy gate.

  datatype AnimState = AnimState(anim: AnimKey, playing: bool, busy: bool)

  /** Phaser's animation events as seen by the hero: a clip starts (play), or the playing
      clip runs to its end. Playing a clip replaces the current one without a completion
      event for it. */
  datatype AnimEvent = Start(key: AnimKey) | Finish

  /** The ANIMATION_START handler. */
  function BusyAfterStart(busy: bool, k: AnimKey): bool
  {
    if IsBusyAnim(k) then true else busy
  }

  /** The ANIMATION_COMPLETE handler. */
  function BusyAfterComplete(busy: bool, k: AnimKey): bool
  {
    if IsBusyAnim(k) then false else busy
  }

  /** Starting a busy clip sets busy; starting idle or applause leaves it as it was.
      Completing a busy clip clears busy; completing any other clip leaves it. */
  lemma BusyHandlers(busy: bool, k: AnimKey)
    ensures BusyAfterStart(busy, k) == (IsBusyAnim(k) || busy)
    ensures BusyAfterComplete(busy, k) == (!IsBusyAnim(k) && busy)
  {
  }

  /** One animation event. A finish is only delivered for a playing clip that runs once. */
  function AnimStep(s: AnimState, e: AnimEvent): Option<AnimState>
  {
    match e
    case Start(k) => Some(AnimState(k, true, BusyAfterStart(s.busy, k)))
    case Finish =>
      if s.playing && !Loops(s.anim) then Some(s.(playing := false, busy := BusyAfterComplete(s.busy, s.anim)))
      else None
  }

  function AnimRun(s: AnimState, es: seq<AnimEvent>): Option<AnimState>
    decreases |es|
  {
    if es == [] then Some(s)
    else match AnimStep(s, es[0])
      case None => None
      case Some(s') => AnimRun(s', es[1..])
  }

  /** While a busy clip is playing the hero is busy. */
  predicate Gate(s: AnimState)
  {
    s.playing && IsBusyAnim(s.anim) ==> s.busy
  }

  lemma AnimStepKeepsGate(s: AnimState, e: AnimEvent)
    requires Gate(s)
    ensures AnimStep(s, e).Some? ==> Gate(AnimStep(s, e).value)
  {
  }

  /** Every run of animation events keeps the gate: the hero can never be idle-flagged
      while a jump or an action clip plays. */
  lemma {:induction false} AnimRunKeepsGate(s: AnimState, es: seq<AnimEvent>)
    requires Gate(s)
    ensures AnimRun(s, es).Some? ==> Gate(AnimRun(s, es).value)
    decreases |es|
  {
    if es != [] {
      AnimStepKeepsGate(s, es[0]);
      if AnimStep(s, es[0]).Some? {
        AnimRunKeepsGate(AnimStep(s, es[0]).value, es[1..]);
      }
    }
  }

  /** The converse does not hold: a jump replaced by idle before it completes (the move's
      tween ending first) leaves busy set while only idle plays, until some busy clip next
      completes. */
  lemma InterruptedJumpLeavesBusy()
    ensures AnimRun(AnimState(IdleAnim, true, false), [Start(JumpAnim), Start(IdleAnim)])
            == Some(AnimState(IdleAnim, true, true))
    ensures AnimRun(AnimState(IdleAnim, true, false), [Start(JumpAnim), Start(IdleAnim), Finish]).None?
  {
  }

  // ---------------------------------------------------------------------------
  // interact and do.

  /** When the promise of an action routine resolves: on a timer of the given delay
      started together with the clip, on the next animation-complete event, or at once. */
  datatype Resolution = Immediately | AfterDelay(ms: nat) | OnNextComplete

  /** An action routine: its clip, its sound and its resolution point. */
  datatype Routine = Routine(anim: AnimKey, sound: SoundKey, resolution: Resolution)

  /** interact's dispatch; an absent action falls to the default branch. */
  function InteractRoutine(action: Option<ActionType>): Option<Routine>
  {
    match action
    case None => None
    case Some(Plow) => Some(Routine(PlowAnim, PlowSound, AfterDelay(120)))
    case Some(Water) => Some(Routine(WaterAnim, WaterSound, AfterDelay(120)))
    case Some(Sow) => Some(Routine(SowAnim, SowSound, OnNextComplete))
    case Some(Reap) => Some(Routine(ReapAnim, YeahSound, AfterDelay(0)))
  }

  /** Every action plays a busy clip of its own; plow and water resolve 120 ms after their
      clip starts, reap on a zero-delay timer, sow only when a clip completes; with no
      action nothing plays and the promise resolves at once. */
  lemma InteractRoutineTable(action: Option<ActionType>)
    ensures InteractRoutine(action).None? <==> action.None?
    ensures InteractRoutine(action).Some? ==> IsBusyAnim(InteractRoutine(action).value.anim)
    ensures action == Some(Plow) || action == Some(Water) ==> InteractRoutine(action).value.resolution == AfterDelay(120)
    ensures action == Some(Reap) ==> InteractRoutine(action).value.resolution == AfterDelay(0)
    ensures action == Some(Sow) ==> InteractRoutine(action).value.resolution == OnNextComplete
    ensures forall a, b :: InteractRoutine(Some(a)).value.anim == InteractRoutine(Some(b)).value.anim ==> a == b
  {
  }

  // ---------------------------------------------------------------------------
  // Moves.

  datatype Direction = Left | Right | Up | Down

  /** The hero's place: island and local coordinates. */
  datatype Address = Address(islandCoord: Coord, coord: Coord)

  /** A move that would leave the island's 3 x 3 block at this local coordinate. */
  predicate AtEdge(dir: Direction, c: Coord)
  {
    match dir
    case Left => !(c.x > 0)
    case Right => !(c.x < GRID_PER_ISLAND_SIDE - 1)
    case Up => !(c.y > 0)
    case Down => !(c.y < GRID_PER_ISLAND_SIDE - 1)
  }

  /** The move spans two plot widths when it crosses to the next island, one otherwise. */
  function StepCells(dir: Direction, c: Coord): int
  {
    if AtEdge(dir, c) then 2 else 1
  }

  predicate Horizontal(dir: Direction) { dir == Left || dir == Right }

  /** The tweened property's end value: x for horizontal moves, y for vertical ones. */
  function Target(dir: Direction, c: Coord, x: int, y: int): int
  {
    match dir
    case Left => x - GRID_SIZE * StepCells(dir, c)
    case Right => x + GRID_SIZE * StepCells(dir, c)
    case Up => y - GRID_SIZE * StepCells(dir, c)
    case Down => y + GRID_SIZE * StepCells(dir, c)
  }

  /** The move's effect on the draw depth when it completes. */
  function DepthDelta(dir: Direction): int
  {
    match dir
    case Up => -2
    case Down => 2
    case _ => 0
  }

  /** The depth set at construction: two layers per global row. */
  function DepthFor(a: Address): int
  {
    HERO_BASE_DEPTH + (GRID_PER_ISLAND_SIDE * a.islandCoord.y + a.coord.y) * 2
  }

  /** Inside the island a move spans one plot, across the island's edge two: leftwards
      from column 0, rightwards from column 2, upwards from row 0, downwards from row 2. */
  lemma StepRule(dir: Direction, c: Coord)
    requires 0 <= c.x < GRID_PER_ISLAND_SIDE && 0 <= c.y < GRID_PER_ISLAND_SIDE
    ensures dir == Left ==> (StepCells(dir, c) == 2 <==> c.x == 0)
    ensures dir == Right ==> (StepCells(dir, c) == 2 <==> c.x == 2)
    ensures dir == Up ==> (StepCells(dir, c) == 2 <==> c.y == 0)
    ensures dir == Down ==> (StepCells(dir, c) == 2 <==> c.y == 2)
    ensures StepCells(dir, c) == 1 || StepCells(dir, c) == 2
  {
  }

  /** A move displaces the tweened coordinate by 64 or 128 pixels in its own direction, and
      only up and down moves change the depth, by one row's two layers. */
  lemma MoveDisplacement(dir: Direction, c: Coord, x: int, y: int)
    ensures var from := if Horizontal(dir) then x else y;
      var d := Target(dir, c, x, y) - from;
      && (dir == Left || dir == Up ==> d == -GRID_SIZE * StepCells(dir, c))
      && (dir == Right || dir == Down ==> d == GRID_SIZE * StepCells(dir, c))
      && (d == 64 || d == -64 || d == 128 || d == -128)
    ensures Horizontal(dir) <==> DepthDelta(dir) == 0
    ensures dir == Up ==> DepthDelta(dir) == -2
    ensures dir == Down ==> DepthDelta(dir) == 2
  {
  }

  /** When the neighbour above or below is one global row away, the depth change of an up
      or down move keeps the depth equal to the construction formula for the new place. */
  lemma DepthFollowsRow(dir: Direction, a: Address, b: Address)
    requires !Horizontal(dir)
    requires var row := GRID_PER_ISLAND_SIDE * a.islandCoord.y + a.coord.y;
      var row' := GRID_PER_ISLAND_SIDE * b.islandCoord.y + b.coord.y;
      row' == (if dir == Up then row - 1 else row + 1)
    ensures DepthFor(a) + DepthDelta(dir) == DepthFor(b)
  {
  }

  /** A move scheduled with the tween system: the direction, the end value of the tweened
      property (fixed when the move is requested) and whether the tween has started. */
  datatype Tween = Tween(dir: Direction, target: int, started: bool)

  /** The Hero sprite. `neighbour` stands for getLeft/getRight/getUp/getDown, which are
      not part of this model; the start position stands for CANVAS_HALF_WIDTH and
      CENTER_GRID_Y. */
  class Hero {
    const neighbour: (Direction, Address) -> Address
    var islandCoord: Coord
    var coord: Coord
    var busy: bool
    var depth: int
    var x: int
    var y: int
    var anim: AnimKey
    var playing: bool
    /** Tweens added by go and not yet completed. */
    var tweens: seq<Tween>
    /** Delays of the resolve timers scheduled by do and not yet fired. */
    var timers: seq<nat>
    /** Resolvers registered with once(ANIMATION_COMPLETE) and not yet called. */
    var completeWaiters: nat
    /** Sound effects requested, in order. */
    var sounds: seq<SoundKey>

    function Anim(): AnimState
      reads this
    {
      AnimState(anim, playing, busy)
    }

    function Where(): Address
      reads this
    {
      Address(islandCoord, coord)
    }

    ghost predicate Valid()
      reads this
    {
      Gate(Anim())
    }

    /** Starts idle, not busy, at the depth of its row. */
    constructor(startX: int, startY: int, islandCoord: Coord, coord: Coord,
                neighbour: (Direction, Address) -> Address)
      ensures Valid()
      ensures this.islandCoord == islandCoord && this.coord == coord && this.neighbour == neighbour
      ensures Anim() == AnimState(IdleAnim, true, false)
      ensures depth == DepthFor(Address(islandCoord, coord))
      ensures x == startX && y == startY
      ensures tweens == [] && timers == [] && completeWaiters == 0 && sounds == []
    {
      this.neighbour := neighbour;
      this.islandCoord := islandCoord;
      this.coord := coord;
      busy := false;
      depth := HERO_BASE_DEPTH + (GRID_PER_ISLAND_SIDE * islandCoord.y + coord.y) * 2;
      x := startX;
      y := startY;
      tweens := [];
      timers := [];
      completeWaiters := 0;
      sounds := [];
      anim := IdleAnim;
      playing := false;
      new;
      Play(IdleAnim);
    }

    /** The ANIMATION_START listener. */
    method OnAnimationStart(k: AnimKey)
      modifies this
      ensures busy == BusyAfterStart(old(busy), k)
      ensures anim == old(anim) && playing == old(playing)
      ensures Where() == old(Where()) && depth == old(depth) && x == old(x) && y == old(y)
      ensures tweens == old(tweens) && timers == old(timers)
      ensures completeWaiters == old(completeWaiters) && sounds == old(sounds)
    {
      if IsBusyAnim(k) {
        busy := true;
      }
    }

    /** The ANIMATION_COMPLETE listener. */
    method OnAnimationComplete(k: AnimKey)
      modifies this
      ensures busy == BusyAfterComplete(old(busy), k)
      ensures anim == old(anim) && playing == old(playing)
      ensures Where() == old(Where()) && depth == old(depth) && x == old(x) && y == old(y)
      ensures tweens == old(tweens) && timers == old(timers)
      ensures completeWaiters == old(completeWaiters) && sounds == old(sounds)
    {
      if IsBusyAnim(k) {
        busy := false;
      }
    }

    /** play(key): the clip replaces the current one and its start event fires. */
    method Play(k: AnimKey)
      requires Valid()
      modifies this
      ensures Valid()
      ensures Some(Anim()) == AnimStep(old(Anim()), Start(k))
      ensures Where() == old(Where()) && depth == old(depth) && x == old(x) && y == old(y)
      ensures tweens == old(tweens) && timers == old(timers)
      ensures completeWaiters == old(completeWaiters) && sounds == old(sounds)
    {
      anim := k;
      playing := true;
      OnAnimationStart(k);
    }

    /** The playing clip reaches its end: the complete event fires, which updates busy and
        calls every resolver registered with once (returned as their count). */
    method FinishAnimation() returns (resolved: nat)
      requires Valid() && playing && !Loops(anim)
      modifies this
      ensures Valid()
      ensures Some(Anim()) == AnimStep(old(Anim()), Finish)
      ensures resolved == old(completeWaiters) && completeWaiters == 0
      ensures Where() == old(Where()) && depth == old(depth) && x == old(x) && y == old(y)
      ensures tweens == old(tweens) && timers == old(timers) && sounds == old(sounds)
    {
      playing := false;
      OnAnimationComplete(anim);
      resolved := completeWaiters;
      completeWaiters := 0;
    }

    /** interact(action) with do(): plays the routine's sound and clip and registers how
        its promise resolves; with no action nothing happens and it resolves at once. */
    method Interact(action: Option<ActionType>) returns (resolution: Resolution)
      requires Valid()
      modifies this
      ensures Valid()
      ensures Where() == old(Where()) && depth == old(depth) && x == old(x) && y == old(y)
      ensures tweens == old(tweens)
      ensures match InteractRoutine(action)
        case None =>
          && resolution == Immediately && Anim() == old(Anim()) && sounds == old(sounds)
          && timers == old(timers) && completeWaiters == old(completeWaiters)
        case Some(r) =>
          && resolution == r.resolution
          && sounds == old(sounds) + [r.sound]
          && Some(Anim()) == AnimStep(old(Anim()), Start(r.anim))
          && (r.resolution.AfterDelay? ==>
                timers == old(timers) + [r.resolution.ms] && completeWaiters == old(completeWaiters))
          && (r.resolution.OnNextComplete? ==>
                timers == old(timers) && completeWaiters == old(completeWaiters) + 1)
    {
      match action
      case None =>
        resolution := Immediately;
      case Some(Plow) =>
        sounds := sounds + [PlowSound];
        resolution := Do(PlowAnim, AfterDelay(120));
      case Some(Water) =>
        sounds := sounds + [WaterSound];
        resolution := Do(WaterAnim, AfterDelay(120));
      case Some(Sow) =>
        sounds := sounds + [SowSound];
        resolution := Do(SowAnim, OnNextComplete);
      case Some(Reap) =>
        sounds := sounds + [YeahSound];
        resolution := Do(ReapAnim, AfterDelay(0));
    }

    /** do({key, event, delay}): plays the clip, then either starts the resolve timer or
        registers a one-shot complete listener. */
    method Do(k: AnimKey, resolution: Resolution) returns (r: Resolution)
      requires Valid() && resolution != Immediately
      modifies this
      ensures Valid()
      ensures r == resolution
      ensures Some(Anim()) == AnimStep(old(Anim()), Start(k))
      ensures resolution.AfterDelay? ==>
        timers == old(timers) + [resolution.ms] && completeWaiters == old(completeWaiters)
      ensures resolution.OnNextComplete? ==>
        timers == old(timers) && completeWaiters == old(completeWaiters) + 1
      ensures Where() == old(Where()) && depth == old(depth) && x == old(x) && y == old(y)
      ensures tweens == old(tweens) && sounds == old(sounds)
    {
      Play(k);
      if resolution.AfterDelay? {
        timers := timers + [resolution.ms];
      } else {
        completeWaiters := completeWaiters + 1;
      }
      r := resolution;
    }

    /** A resolve timer fires: its promise resolves and the timer is gone. */
    method FireTimer(i: nat) returns (ms: nat)
      requires i < |timers|
      modifies this
      ensures ms == old(timers[i])
      ensures timers == old(timers[..i] + timers[i + 1..])
      ensures Anim() == old(Anim()) && completeWaiters == old(completeWaiters)
      ensures Where() == old(Where()) && depth == old(depth) && x == old(x) && y == old(y)
      ensures tweens == old(tweens) && sounds == old(sounds)
    {
      ms := timers[i];
      timers := timers[..i] + timers[i + 1..];
    }

    /** goLeft */
    method GoLeft()
      modifies this
      ensures tweens == old(tweens) + [Tween(Left, Target(Left, old(coord), old(x), old(y)), false)]
      ensures Anim() == old(Anim()) && Where() == old(Where()) && depth == old(depth)
      ensures x == old(x) && y == old(y)
      ensures timers == old(timers) && completeWaiters == old(completeWaiters) && sounds == old(sounds)
    {
      Go(Left, x - GRID_SIZE * (if coord.x > 0 then 1 else 2));
    }

    /** goRight */
    method GoRight()
      modifies this
      ensures tweens == old(tweens) + [Tween(Right, Target(Right, old(coord), old(x), old(y)), false)]
      ensures Anim() == old(Anim()) && Where() == old(Where()) && depth == old(depth)
      ensures x == old(x) && y == old(y)
      ensures timers == old(timers) && completeWaiters == old(completeWaiters) && sounds == old(sounds)
    {
      Go(Right, x + GRID_SIZE * (if coord.x < GRID_PER_ISLAND_SIDE - 1 then 1 else 2));
    }

    /** goUp */
    method GoUp()
      modifies this
      ensures tweens == old(tweens) + [Tween(Up, Target(Up, old(coord), old(x), old(y)), false)]
      ensures Anim() == old(Anim()) && Where() == old(Where()) && depth == old(depth)
      ensures x == old(x) && y == old(y)
      ensures timers == old(timers) && completeWaiters == old(completeWaiters) && sounds == old(sounds)
    {
      Go(Up, y - GRID_SIZE * (if coord.y > 0 then 1 else 2));
    }

    /** goDown */
    method GoDown()
      modifies this
      ensures tweens == old(tweens) + [Tween(Down, Target(Down, old(coord), old(x), old(y)), false)]
      ensures Anim() == old(Anim()) && Where() == old(Where()) && depth == old(depth)
      ensures x == old(x) && y == old(y)
      ensures timers == old(timers) && completeWaiters == old(completeWaiters) && sounds == old(sounds)
    {
      Go(Down, y + GRID_SIZE * (if coord.y < GRID_PER_ISLAND_SIDE - 1 then 1 else 2));
    }

    /** go(config): only schedules the tween; nothing about the hero changes yet. */
    method Go(dir: Direction, target: int)
      modifies this
      ensures tweens == old(tweens) + [Tween(dir, target, false)]
      ensures Anim() == old(Anim()) && Where() == old(Where()) && depth == old(depth)
      ensures x == old(x) && y == old(y)
      ensures timers == old(timers) && completeWaiters == old(completeWaiters) && sounds == old(sounds)
    {
      tweens := tweens + [Tween(dir, target, false)];
    }

    /** The tween's onStart: jump (its sound and clip); the place is not yet changed. */
    method StartTween(i: nat)
      requires Valid() && i < |tweens| && !tweens[i].started
      modifies this
      ensures Valid()
      ensures tweens == old(tweens)[i := old(tweens[i]).(started := true)]
      ensures Some(Anim()) == AnimStep(old(Anim()), Start(JumpAnim))
      ensures busy
      ensures sounds == old(sounds) + [JumpSound]
      ensures Where() == old(Where()) && depth == old(depth) && x == old(x) && y == old(y)
      ensures timers == old(timers) && completeWaiters == old(completeWaiters)
    {
      tweens := tweens[i := tweens[i].(started := true)];
      sounds := sounds + [JumpSound];
      Play(JumpAnim);
    }

    /** The tween's onComplete: the tweened property reaches its end value, idle plays,
        the depth follows an up or down move, and only now the hero's place becomes the
        neighbour in the move's direction. */
    method CompleteTween(i: nat)
      requires Valid() && i < |tweens| && tweens[i].started
      modifies this
      ensures Valid()
      ensures var t := old(tweens[i]);
        && (Horizontal(t.dir) ==> x == t.target && y == old(y))
        && (!Horizontal(t.dir) ==> y == t.target && x == old(x))
        && depth == old(depth) + DepthDelta(t.dir)
        && Where() == neighbour(t.dir, old(Where()))
      ensures tweens == old(tweens[..i] + tweens[i + 1..])
      ensures Some(Anim()) == AnimStep(old(Anim()), Start(IdleAnim))
      ensures timers == old(timers) && completeWaiters == old(completeWaiters) && sounds == old(sounds)
    {
      var t := tweens[i];
      if Horizontal(t.dir) {
        x := t.target;
      } else {
        y := t.target;
      }
      tweens := tweens[..i] + tweens[i + 1..];
      depth := depth + DepthDelta(t.dir);
      var next := neighbour(t.dir, Address(islandCoord, coord));
      islandCoord := next.islandCoord;
      coord := next.coord;
      Play(IdleAnim);
    }
  }
}
