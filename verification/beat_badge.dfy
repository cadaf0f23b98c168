/** One scrolling beat marker (src/BeatBadge.ts): what it asks for, where it is, how fast
    it moves toward the hit zone, and whether it can be hit. Positions, speeds and frame
    times are exact reals. */
module Beats {
  import opened GameTypes

  /** BeatBadge.MAX_HIT_DISTANCE */
  const MAX_HIT_DISTANCE: real := 32.0

  /** The simulation fields of a badge. */
  datatype BadgeState = BadgeState(
    beatType: BeatType,
    action: Option<ActionType>,
    v: real,
    available: bool,
    hit: bool,
    x: real,
    active: bool)

  function Abs(r: real): real { if r < 0.0 then -r else r }

  /** getDistance: how far the badge is from the hit zone at the middle of the canvas. */
  function Distance(b: BadgeState, width: real): real
  {
    Abs(b.x - width / 2.0)
  }

  /** isInRange */
  predicate InRange(b: BadgeState, width: real)
  {
    Distance(b, width) <= MAX_HIT_DISTANCE
  }

  /** update(time, delta), motion part: an active badge moves left by delta * v; any
      badge left of the origin afterwards is deactivated. */
  function Advance(b: BadgeState, delta: real): BadgeState
  {
    var x := if b.active then b.x - delta * b.v else b.x;
    b.(x := x, active := b.active && !(x < 0.0))
  }

  /** A badge is within the hit window exactly when its x lies within 32 of the middle. */
  lemma InRangeWindow(b: BadgeState, width: real)
    ensures InRange(b, width) <==> width / 2.0 - 32.0 <= b.x <= width / 2.0 + 32.0
  {
  }

  /** One frame of motion: an active badge moves by delta * v, an inactive one stays put,
      and a badge that ends left of the origin is inactive; nothing else changes. */
  lemma AdvanceMoves(b: BadgeState, delta: real)
    ensures b.active ==> Advance(b, delta).x == b.x - delta * b.v
    ensures !b.active ==> Advance(b, delta).x == b.x && !Advance(b, delta).active
    ensures Advance(b, delta).x < 0.0 ==> !Advance(b, delta).active
    ensures Advance(b, delta).(x := b.x, active := b.active) == b
  {
  }

  function Sum(deltas: seq<real>): real
  {
    if deltas == [] then 0.0 else deltas[0] + Sum(deltas[1..])
  }

  /** The badge after a run of frames. */
  function AdvanceAll(b: BadgeState, deltas: seq<real>): BadgeState
    decreases |deltas|
  {
    if deltas == [] then b else AdvanceAll(Advance(b, deltas[0]), deltas[1..])
  }

  lemma {:induction false} SumNonNegative(deltas: seq<real>)
    requires forall i :: 0 <= i < |deltas| ==> deltas[i] >= 0.0
    ensures Sum(deltas) >= 0.0
  {
    if deltas != [] {
      SumNonNegative(deltas[1..]);
    }
  }

  /** Over frames whose times add up to T, an active badge that does not pass the origin
      moves exactly v * T and stays active. */
  lemma {:induction false} TravelOverFrames(b: BadgeState, deltas: seq<real>)
    requires b.active && b.v >= 0.0
    requires forall i :: 0 <= i < |deltas| ==> deltas[i] >= 0.0
    requires b.x - b.v * Sum(deltas) >= 0.0
    ensures AdvanceAll(b, deltas).x == b.x - b.v * Sum(deltas)
    ensures AdvanceAll(b, deltas).active
    decreases |deltas|
  {
    if deltas != [] {
      var rest := deltas[1..];
      SumNonNegative(rest);
      var b' := Advance(b, deltas[0]);
      assert b.v * Sum(deltas) == b.v * deltas[0] + b.v * Sum(rest);
      assert b.v * Sum(rest) >= 0.0;
      assert b'.x == b.x - deltas[0] * b.v;
      TravelOverFrames(b', rest);
    }
  }

  /** The BeatBadge game object. A badge created by the pool starts as a small, unhit,
      unavailable, motionless and active badge at the given position. */
  class BeatBadge {
    var beatType: BeatType
    var action: Option<ActionType>
    var v: real
    var available: bool
    var hit: bool
    var x: real
    var active: bool

    function View(): BadgeState
      reads this
    {
      BadgeState(beatType, action, v, available, hit, x, active)
    }

    constructor(x: real)
      ensures View() == BadgeState(Small, None, 0.0, false, false, x, true)
    {
      beatType := Small;
      action := None;
      v := 0.0;
      available := false;
      hit := false;
      this.x := x;
      active := true;
    }

    /** set(beat): records the template's type and action and nothing else. */
    method Set(beat: Beat)
      modifies this
      ensures View() == old(View()).(beatType := beat.beatType, action := beat.action)
    {
      beatType := beat.beatType;
      action := beat.action;
    }

    method SetV(v: real)
      modifies this
      ensures View() == old(View()).(v := v)
    {
      this.v := v;
    }

    method SetAvailable(available: bool)
      modifies this
      ensures View() == old(View()).(available := available)
    {
      this.available := available;
    }

    method SetHit(hit: bool)
      modifies this
      ensures View() == old(View()).(hit := hit)
    {
      this.hit := hit;
    }

    /** Phaser's setActive. */
    method SetActive(active: bool)
      modifies this
      ensures View() == old(View()).(active := active)
    {
      this.active := active;
    }

    /** Phaser's position update when the pool hands out a reused badge. */
    method SetX(x: real)
      modifies this
      ensures View() == old(View()).(x := x)
    {
      this.x := x;
    }

    /** isBigType: every badge that is not small. */
    predicate IsBigType()
      reads this
      ensures IsBigType() <==> beatType != Small
    {
      beatType == Big
    }

    /** isSmallType: every badge that is not big. */
    predicate IsSmallType()
      reads this
      ensures IsSmallType() <==> beatType != Big
    {
      beatType == Small
    }

    /** getDistance: never negative, zero exactly at the middle of the canvas. */
    function GetDistance(width: real): (d: real)
      reads this
      ensures d >= 0.0
      ensures d == x - width / 2.0 || d == width / 2.0 - x
      ensures d == 0.0 <==> x == width / 2.0
    {
      Distance(View(), width)
    }

    /** isInRange: x lies within 32 of the middle of the canvas. */
    predicate IsInRange(width: real)
      reads this
      ensures IsInRange(width) <==> width / 2.0 - 32.0 <= x <= width / 2.0 + 32.0
    {
      InRange(View(), width)
    }

    /** update(time, delta) without its alpha effects. */
    method Update(delta: real)
      modifies this
      ensures View() == Advance(old(View()), delta)
    {
      if active {
        x := x - delta * v;
      }
      if x < 0.0 {
        active := false;
      }
    }
  }

  /** isBigType and isSmallType exclude each other and cover every beat type. */
  lemma BigOrSmall(b: BeatBadge)
    ensures b.IsBigType() != b.IsSmallType()
  {
  }
}
