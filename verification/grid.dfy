/** One farmable plot (src/Grid.ts): its soil state, the age of its plant and the timers
    that age the plant and finish a harvest. Phaser timers are explicit steps here:
    a growth tick and the completion of the harvest animation. */
module Plots {
  import opened GameTypes

  /** PLANT_MATURE_AGE: the age at which a plant can be reaped. */
  function MatureAge(t: PlantType): nat
  {
    match t
    case Carrot => 5
  }

  /** The simulation state of a plot. `plantAge` is -1 when there is no plant.
      `pendingGrowth` counts the growth-timer firings still scheduled (every firing adds
      one to the age, so only their number matters); `pendingReaps` counts harvest
      animations whose final phase has not completed yet. */
  datatype PlotState = PlotState(soil: SoilState, plantAge: int, pendingGrowth: nat, pendingReaps: nat)

  /** A plot as constructed: virgin soil, no plant, no timers. */
  const FreshPlot := PlotState(Virgin, -1, 0, 0)

  /** hasPlant: the sentinel -1 lies below every real age. */
  predicate HasPlant(s: PlotState)
    ensures s.plantAge >= 0 ==> HasPlant(s)
    ensures !HasPlant(s) ==> s.plantAge < 0
  {
    s.plantAge != -1
  }

  /** isMature: only a plot with a plant of positive age can be mature. */
  predicate IsMature(t: PlantType, s: PlotState)
    ensures IsMature(t, s) ==> HasPlant(s) && s.plantAge > 0
  {
    s.plantAge == MatureAge(t)
  }

  /** getAvailableActions: Plow on virgin soil only, Water on plowed soil only, Sow on
      plowed or watered soil without a plant, Reap on watered soil with a mature plant;
      each action is offered at most once. */
  function AvailableActions(t: PlantType, s: PlotState): (r: seq<ActionType>)
    ensures Plow in r <==> s.soil == Virgin
    ensures Water in r <==> s.soil == Plowed
    ensures Sow in r <==> (s.soil == Plowed || s.soil == Watered) && !HasPlant(s)
    ensures Reap in r <==> s.soil == Watered && IsMature(t, s)
    ensures forall i, j :: 0 <= i < j < |r| ==> r[i] != r[j]
  {
    match s.soil
    case Virgin => [Plow]
    case Plowed => if HasPlant(s) then [Water] else [Water, Sow]
    case Watered =>
      if !HasPlant(s) then [Sow]
      else if IsMature(t, s) then [Reap]
      else []
    case Deprecated => []
  }

  /** grow(): schedules a timer with repeat = mature - 1, that is mature firings. */
  function Grow(t: PlantType, s: PlotState): PlotState
  {
    s.(pendingGrowth := s.pendingGrowth + MatureAge(t))
  }

  function Plowing(s: PlotState): PlotState
  {
    s.(soil := Plowed)
  }

  function Watering(t: PlantType, s: PlotState): PlotState
  {
    var w := s.(soil := Watered);
    if s.plantAge == 0 then Grow(t, w) else w
  }

  function Sowing(t: PlantType, s: PlotState): PlotState
  {
    var p := s.(plantAge := 0);
    if s.soil == Watered then Grow(t, p) else p
  }

  /** beReaped: the age jumps past maturity and the two-phase harvest animation starts. */
  function Reaping(t: PlantType, s: PlotState): PlotState
  {
    s.(plantAge := MatureAge(t) + 1, pendingReaps := s.pendingReaps + 1)
  }

  /** beInteracted: dispatch on the action, with no legality check. */
  function Interact(t: PlantType, s: PlotState, a: ActionType): PlotState
  {
    match a
    case Plow => Plowing(s)
    case Sow => Sowing(t, s)
    case Water => Watering(t, s)
    case Reap => Reaping(t, s)
  }

  /** One firing of a growth timer. */
  function GrowthTick(s: PlotState): PlotState
    requires s.pendingGrowth > 0
  {
    s.(plantAge := s.plantAge + 1, pendingGrowth := s.pendingGrowth - 1)
  }

  /** The final phase of a harvest animation completes. */
  function ReapCompleted(s: PlotState): PlotState
    requires s.pendingReaps > 0
  {
    s.(soil := Plowed, plantAge := -1, pendingReaps := s.pendingReaps - 1)
  }

  // ---------------------------------------------------------------------------
  // The availability table and the single-step facts.

  /** getAvailableActions is exactly the decision table, and nothing else. */
  lemma AvailableActionsTable(t: PlantType, s: PlotState)
    ensures s.soil == Virgin ==> AvailableActions(t, s) == [Plow]
    ensures s.soil == Plowed && HasPlant(s) ==> AvailableActions(t, s) == [Water]
    ensures s.soil == Plowed && !HasPlant(s) ==> AvailableActions(t, s) == [Water, Sow]
    ensures s.soil == Watered && !HasPlant(s) ==> AvailableActions(t, s) == [Sow]
    ensures s.soil == Watered && IsMature(t, s) ==> AvailableActions(t, s) == [Reap]
    ensures s.soil == Watered && HasPlant(s) && !IsMature(t, s) ==> AvailableActions(t, s) == []
    ensures s.soil == Deprecated ==> AvailableActions(t, s) == []
  {
  }

  /** A fresh plot offers only Plow. */
  lemma FreshPlotOffersPlow(t: PlantType)
    ensures AvailableActions(t, FreshPlot) == [Plow]
  {
  }

  /** Plow and Sow act unconditionally: Plow sets the soil and keeps the plant,
      Sow sets the age to 0 and keeps the soil, whatever the state. */
  lemma InteractIgnoresLegality(t: PlantType, s: PlotState)
    ensures Interact(t, s, Plow).soil == Plowed && Interact(t, s, Plow).plantAge == s.plantAge
    ensures Interact(t, s, Sow).plantAge == 0 && Interact(t, s, Sow).soil == s.soil
  {
  }

  /** Water starts a growth run exactly when the plant age is 0; Sow starts one exactly
      when the soil is already watered. A growth run is MatureAge firings. */
  lemma GrowthStarts(t: PlantType, s: PlotState)
    ensures Interact(t, s, Water).soil == Watered
    ensures Interact(t, s, Water).pendingGrowth
            == s.pendingGrowth + (if s.plantAge == 0 then MatureAge(t) else 0)
    ensures Interact(t, s, Sow).pendingGrowth
            == s.pendingGrowth + (if s.soil == Watered then MatureAge(t) else 0)
  {
  }

  // ---------------------------------------------------------------------------
  // A growth run.

  /** The state after n growth-timer firings. */
  function Ticks(s: PlotState, n: nat): PlotState
    requires n <= s.pendingGrowth
    decreases n
  {
    if n == 0 then s else Ticks(GrowthTick(s), n - 1)
  }

  lemma {:induction false} TicksAdvanceAge(s: PlotState, n: nat)
    requires n <= s.pendingGrowth
    ensures Ticks(s, n) == s.(plantAge := s.plantAge + n, pendingGrowth := s.pendingGrowth - n)
    decreases n
  {
    if n > 0 {
      TicksAdvanceAge(GrowthTick(s), n - 1);
    }
  }

  /** A growth run started at age 0 fires MatureAge times and ends at exactly MatureAge:
      the plant is then mature and, on watered soil, can be reaped. */
  lemma {:induction false} GrowthRunReachesMaturity(t: PlantType, s: PlotState)
    requires s.plantAge == 0 && s.pendingGrowth == MatureAge(t)
    ensures Ticks(s, MatureAge(t)).plantAge == MatureAge(t)
    ensures Ticks(s, MatureAge(t)).pendingGrowth == 0
    ensures IsMature(t, Ticks(s, MatureAge(t)))
    ensures s.soil == Watered ==> AvailableActions(t, Ticks(s, MatureAge(t))) == [Reap]
  {
    TicksAdvanceAge(s, MatureAge(t));
  }

  /** Reaping: while the harvest animation runs the plot still has a plant, which is no
      longer mature, and a watered plot offers nothing; on completion the soil is plowed
      and the plant gone. */
  lemma ReapInTwoPhases(t: PlantType, s: PlotState)
    requires s.soil == Watered
    ensures var r := Interact(t, s, Reap);
      && r.plantAge == MatureAge(t) + 1
      && HasPlant(r) && !IsMature(t, r) && AvailableActions(t, r) == []
      && ReapCompleted(r).soil == Plowed && ReapCompleted(r).plantAge == -1
  {
  }

  // ---------------------------------------------------------------------------
  // Runs that apply only offered actions.

  /** What can happen to a plot: a player action, a growth-timer firing, or the end of
      a harvest animation. */
  datatype PlotEvent = Act(action: ActionType) | Tick | ReapDone

  /** The state after an event, or None when the event cannot happen: the action is not
      offered by getAvailableActions, or no timer or animation is pending. */
  function LegalStep(t: PlantType, s: PlotState, e: PlotEvent): Option<PlotState>
  {
    match e
    case Act(a) => if a in AvailableActions(t, s) then Some(Interact(t, s, a)) else None
    case Tick => if s.pendingGrowth > 0 then Some(GrowthTick(s)) else None
    case ReapDone => if s.pendingReaps > 0 then Some(ReapCompleted(s)) else None
  }

  function LegalRun(t: PlantType, s: PlotState, events: seq<PlotEvent>): Option<PlotState>
    decreases |events|
  {
    if events == [] then Some(s)
    else match LegalStep(t, s, events[0])
      case None => None
      case Some(s') => LegalRun(t, s', events[1..])
  }

  /** The states reachable from a fresh plot by legal events. */
  ghost predicate Sound(t: PlantType, s: PlotState)
  {
    var m := MatureAge(t);
    match s.soil
    case Virgin => s.plantAge == -1 && s.pendingGrowth == 0 && s.pendingReaps == 0
    case Plowed => (s.plantAge == -1 || s.plantAge == 0) && s.pendingGrowth == 0 && s.pendingReaps == 0
    case Watered =>
      || (s.plantAge == -1 && s.pendingGrowth == 0 && s.pendingReaps == 0)
      || (0 <= s.plantAge <= m && s.plantAge + s.pendingGrowth == m && s.pendingReaps == 0)
      || (s.plantAge == m + 1 && s.pendingGrowth == 0 && s.pendingReaps == 1)
    case Deprecated => false
  }

  lemma LegalStepKeepsSound(t: PlantType, s: PlotState, e: PlotEvent)
    requires Sound(t, s)
    ensures LegalStep(t, s, e).Some? ==> Sound(t, LegalStep(t, s, e).value)
  {
  }

  lemma {:induction false} LegalRunKeepsSound(t: PlantType, s: PlotState, events: seq<PlotEvent>)
    requires Sound(t, s)
    ensures LegalRun(t, s, events).Some? ==> Sound(t, LegalRun(t, s, events).value)
    decreases |events|
  {
    if events != [] {
      LegalStepKeepsSound(t, s, events[0]);
      var next := LegalStep(t, s, events[0]);
      if next.Some? {
        LegalRunKeepsSound(t, next.value, events[1..]);
      }
    }
  }

  /** If only offered actions are ever applied to a fresh plot, no plant ever sits on
      virgin soil and the plant age stays within -1 .. MatureAge + 1. */
  lemma LegalRunsStayInBounds(t: PlantType, events: seq<PlotEvent>)
    requires LegalRun(t, FreshPlot, events).Some?
    ensures var s := LegalRun(t, FreshPlot, events).value;
      && (s.plantAge >= 0 ==> s.soil != Virgin)
      && -1 <= s.plantAge <= MatureAge(t) + 1
  {
    LegalRunKeepsSound(t, FreshPlot, events);
  }

  // ---------------------------------------------------------------------------

  /** The Grid object. Its place is fixed at construction; soil, plant age and the
      scheduled timers change in place. */
  class Grid {
    const islandCoord: Coord
    const coord: Coord
    const plantType: PlantType
    var soilState: SoilState
    var plantAge: int
    var pendingGrowth: nat
    var pendingReaps: nat
    /** How many times `beDeprected` was invoked on this plot; the method's own effect is
        defined outside the modelled files. */
    var deprecatedCalls: nat

    function State(): PlotState
      reads this
    {
      PlotState(soilState, plantAge, pendingGrowth, pendingReaps)
    }

    constructor(islandCoord: Coord, coord: Coord)
      ensures this.islandCoord == islandCoord && this.coord == coord && plantType == Carrot
      ensures State() == FreshPlot && deprecatedCalls == 0
    {
      this.islandCoord := islandCoord;
      this.coord := coord;
      plantType := Carrot;
      soilState := Virgin;
      plantAge := -1;
      pendingGrowth := 0;
      pendingReaps := 0;
      deprecatedCalls := 0;
    }

    method BeInteracted(action: ActionType)
      modifies this
      ensures State() == Interact(plantType, old(State()), action)
      ensures deprecatedCalls == old(deprecatedCalls)
    {
      match action
      case Plow => BePlowed();
      case Sow => BeSowed();
      case Water => BeWatered();
      case Reap => BeReaped();
    }

    method BePlowed()
      modifies this
      ensures State() == Plowing(old(State())) && deprecatedCalls == old(deprecatedCalls)
    {
      soilState := Plowed;
    }

    method BeWatered()
      modifies this
      ensures State() == Watering(plantType, old(State())) && deprecatedCalls == old(deprecatedCalls)
    {
      soilState := Watered;
      if plantAge == 0 {
        StartGrowth();
      }
    }

    method BeSowed()
      modifies this
      ensures State() == Sowing(plantType, old(State())) && deprecatedCalls == old(deprecatedCalls)
    {
      plantAge := 0;
      if soilState == Watered {
        StartGrowth();
      }
    }

    method BeReaped()
      modifies this
      ensures State() == Reaping(plantType, old(State())) && deprecatedCalls == old(deprecatedCalls)
    {
      plantAge := MatureAge(plantType) + 1;
      pendingReaps := pendingReaps + 1;
    }

    /** grow(): schedules MatureAge firings of the growth timer. */
    method StartGrowth()
      modifies this
      ensures State() == Grow(plantType, old(State())) && deprecatedCalls == old(deprecatedCalls)
    {
      pendingGrowth := pendingGrowth + MatureAge(plantType);
    }

    /** The growth timer fires once. */
    method OnGrowthTick()
      requires pendingGrowth > 0
      modifies this
      ensures State() == GrowthTick(old(State())) && deprecatedCalls == old(deprecatedCalls)
    {
      plantAge := plantAge + 1;
      pendingGrowth := pendingGrowth - 1;
    }

    /** The second phase of the harvest timeline completes. */
    method OnReapComplete()
      requires pendingReaps > 0
      modifies this
      ensures State() == ReapCompleted(old(State())) && deprecatedCalls == old(deprecatedCalls)
    {
      soilState := Plowed;
      plantAge := -1;
      pendingReaps := pendingReaps - 1;
    }

    /** beDeprected, as invoked by the plot table: only the invocation is recorded. */
    method BeDeprecated()
      modifies this
      ensures deprecatedCalls == old(deprecatedCalls) + 1
    {
      deprecatedCalls := deprecatedCalls + 1;
    }
  }
}
