/** The rhythm track (src/RhythmBoard.ts): a pool of at most 40 beat badges fed from a
    cyclic template sequence, the velocity derived from the tempo, the availability
    marking and the nearest-hittable-beat query. The spawn timer, the per-frame update
    of the pool's children and the pool's own `get` are explicit steps here. */
module Rhythm {
  import opened GameTypes
  import opened Beats

  /** maxSize of the badge group. */
  const MAX_BADGES: nat := 40

  /** The default lead-in, in beat slots. */
  const DEFAULT_DELAY_BEATS: real := 8.0

  /** unitTime = 6e4 / bps * 0.5: the spawn interval in milliseconds (half a beat). */
  function UnitTime(bps: real): real
    requires bps > 0.0
  {
    60000.0 / bps * 0.5
  }

  /** v = BEAT_BADGE_SPACING / unitTime */
  function Velocity(spacing: real, bps: real): real
    requires bps > 0.0
  {
    spacing / UnitTime(bps)
  }

  /** Where a badge is spawned: delayBeats spacings right of the hit zone. */
  function SpawnX(width: real, spacing: real, delayBeats: real): real
  {
    width * 0.5 + spacing * delayBeats
  }

  /** The configured lead-in overrides the default only when it is present. */
  function DelayBeatsFrom(config: Option<real>): real
  {
    if config.Some? then config.value else DEFAULT_DELAY_BEATS
  }

  /** The template used for the beatCount-th beat. */
  function TemplateAt(sequence: seq<Beat>, beatCount: nat): Beat
    requires |sequence| > 0
  {
    sequence[beatCount % |sequence|]
  }

  /** In one spawn interval a badge travels exactly one spacing, whatever the tempo. */
  lemma VelocityCoversSpacing(spacing: real, bps: real)
    requires bps > 0.0
    ensures Velocity(spacing, bps) * UnitTime(bps) == spacing
  {
  }

  /** A badge spawned at the lead-in position reaches the hit zone after delayBeats spawn
      intervals, whatever the tempo. */
  lemma ArrivalAfterLeadIn(width: real, spacing: real, delayBeats: real, bps: real)
    requires bps > 0.0
    ensures SpawnX(width, spacing, delayBeats)
            - Velocity(spacing, bps) * (delayBeats * UnitTime(bps)) == width / 2.0
  {
    VelocityCoversSpacing(spacing, bps);
    calc {
      Velocity(spacing, bps) * (delayBeats * UnitTime(bps));
      (Velocity(spacing, bps) * UnitTime(bps)) * delayBeats;
      spacing * delayBeats;
    }
  }

  /** A badge armed at the lead-in position with the tempo's velocity stands exactly at
      the hit zone, still active, after frames whose times add up to delayBeats spawn
      intervals, however those frames are cut. */
  lemma SpawnedBadgeReachesHitZone(b: BadgeState, deltas: seq<real>, width: real,
                                   spacing: real, delayBeats: real, bps: real)
    requires bps > 0.0 && width >= 0.0 && spacing >= 0.0
    requires b.active && b.x == SpawnX(width, spacing, delayBeats) && b.v == Velocity(spacing, bps)
    requires forall i :: 0 <= i < |deltas| ==> deltas[i] >= 0.0
    requires Sum(deltas) == delayBeats * UnitTime(bps)
    ensures AdvanceAll(b, deltas).x == width / 2.0
    ensures AdvanceAll(b, deltas).active
  {
    ArrivalAfterLeadIn(width, spacing, delayBeats, bps);
    assert UnitTime(bps) > 0.0;
    assert b.v >= 0.0;
    TravelOverFrames(b, deltas);
  }

  /** The configured lead-in wins when present; otherwise it is 8. */
  lemma DelayBeatsDefault(config: Option<real>)
    ensures config.None? ==> DelayBeatsFrom(config) == 8.0
    ensures config.Some? ==> DelayBeatsFrom(config) == config.value
  {
  }

  // ---------------------------------------------------------------------------
  // Taking a slot from the pool and spawning a beat into it.

  /** The first inactive badge, the one the pool hands out again. */
  function FirstInactive(vs: seq<BadgeState>): (r: Option<nat>)
    ensures r.Some? ==> r.value < |vs| && !vs[r.value].active
                        && forall j :: 0 <= j < r.value ==> vs[j].active
    ensures r.None? ==> forall j :: 0 <= j < |vs| ==> vs[j].active
    decreases |vs|
  {
    if vs == [] then None
    else if !vs[0].active then Some(0)
    else match FirstInactive(vs[1..])
      case None => None
      case Some(i) => Some(i + 1)
  }

  /** The first inactive index is the one before which every badge is active. */
  lemma FirstInactiveAt(vs: seq<BadgeState>, i: nat)
    requires i <= |vs| && forall j :: 0 <= j < i ==> vs[j].active
    requires i < |vs| ==> !vs[i].active
    ensures i < |vs| ==> FirstInactive(vs) == Some(i)
    ensures i == |vs| ==> FirstInactive(vs).None?
  {
  }

  /** A badge made by the pool when it grows. */
  function NewBadge(x: real): BadgeState
  {
    BadgeState(Small, None, 0.0, false, false, x, true)
  }

  /** The slot `get` uses: the first inactive badge, else a new one at the end while the
      pool is not full, else none. */
  function Slot(vs: seq<BadgeState>): Option<nat>
  {
    match FirstInactive(vs)
    case Some(i) => Some(i)
    case None => if |vs| < MAX_BADGES then Some(|vs|) else None
  }

  /** The pool's `get(x, y)`: a reused badge is moved to x; a new one is appended. */
  function Take(vs: seq<BadgeState>, x: real): seq<BadgeState>
  {
    match Slot(vs)
    case None => vs
    case Some(i) => if i < |vs| then vs[i := vs[i].(x := x)] else vs + [NewBadge(x)]
  }

  /** setActive(true).set(beat).setV(v).setHit(false) on the badge taken. */
  function Armed(b: BadgeState, t: Beat, v: real): BadgeState
  {
    b.(active := true, beatType := t.beatType, action := t.action, v := v, hit := false)
  }

  /** createBeat's effect on the pool. */
  function Spawn(vs: seq<BadgeState>, t: Beat, x: real, v: real): seq<BadgeState>
  {
    match Slot(vs)
    case None => vs
    case Some(i) =>
      var taken := Take(vs, x);
      taken[i := Armed(taken[i], t, v)]
  }

  /** The three outcomes of `get`. */
  lemma TakeCases(vs: seq<BadgeState>, x: real)
    ensures FirstInactive(vs).Some? ==>
      Take(vs, x) == vs[FirstInactive(vs).value := vs[FirstInactive(vs).value].(x := x)]
    ensures FirstInactive(vs).None? && |vs| < MAX_BADGES ==>
      Slot(vs) == Some(|vs|) && Take(vs, x) == vs + [NewBadge(x)]
    ensures FirstInactive(vs).None? && |vs| >= MAX_BADGES ==> Slot(vs).None? && Take(vs, x) == vs
  {
  }

  /** Spawning is taking the slot, then arming the badge in it. */
  lemma SpawnArmsTaken(vs: seq<BadgeState>, t: Beat, x: real, v: real)
    ensures Slot(vs).None? ==> Spawn(vs, t, x, v) == vs && Take(vs, x) == vs
    ensures Slot(vs).Some? ==>
      (&& Slot(vs).value < |Take(vs, x)|
       && Spawn(vs, t, x, v) == Take(vs, x)[Slot(vs).value := Armed(Take(vs, x)[Slot(vs).value], t, v)])
  {
  }

  /** Spawning never grows the pool beyond 40 badges. */
  lemma SpawnBounded(vs: seq<BadgeState>, t: Beat, x: real, v: real)
    requires |vs| <= MAX_BADGES
    ensures |vs| <= |Spawn(vs, t, x, v)| <= MAX_BADGES
  {
  }

  /** The spawned badge: the first inactive one if any (keeping its `available` flag),
      else a new badge (not available) when the pool has room; it carries the template,
      x, v, is active and unhit, and every other badge is unchanged. With no inactive badge
      and 40 badges in the pool nothing changes. */
  lemma SpawnPlacesBeat(vs: seq<BadgeState>, t: Beat, x: real, v: real)
    ensures var r := Spawn(vs, t, x, v);
      match Slot(vs)
      case None =>
        && r == vs && |vs| >= MAX_BADGES
        && forall j :: 0 <= j < |vs| ==> vs[j].active
      case Some(i) =>
        && |r| == (if i < |vs| then |vs| else |vs| + 1)
        && r[i].beatType == t.beatType && r[i].action == t.action
        && r[i].x == x && r[i].v == v && !r[i].hit && r[i].active
        && r[i].available == (if i < |vs| then vs[i].available else false)
        && (i < |vs| ==> !vs[i].active && forall j :: 0 <= j < i ==> vs[j].active)
        && (i == |vs| ==> forall j :: 0 <= j < |vs| ==> vs[j].active)
        && forall j :: 0 <= j < |vs| && j != i ==> r[j] == vs[j]
  {
  }

  // ---------------------------------------------------------------------------
  // The nearest-hittable-beat query: filter, then reduce with a strict comparison.

  predicate Hitable(b: BadgeState, width: real)
  {
    b.available && !b.hit && InRange(b, width)
  }

  predicate Increasing(s: seq<nat>)
  {
    forall i, j :: 0 <= i < j < |s| ==> s[i] < s[j]
  }

  /** The filter: indices of the hittable badges from `from` on, in pool order. */
  function Candidates(vs: seq<BadgeState>, width: real, from: nat): (r: seq<nat>)
    requires from <= |vs|
    ensures Increasing(r)
    ensures forall k :: 0 <= k < |r| ==> from <= r[k] < |vs|
    ensures forall i :: i in r <==> from <= i < |vs| && Hitable(vs[i], width)
    decreases |vs| - from
  {
    if from == |vs| then []
    else (if Hitable(vs[from], width) then [from] else []) + Candidates(vs, width, from + 1)
  }

  /** The reduce: keep the previous pick unless the current one is strictly closer. */
  function Reduce(vs: seq<BadgeState>, width: real, prev: Option<nat>, idxs: seq<nat>): Option<nat>
    requires prev.Some? ==> prev.value < |vs|
    requires forall k :: 0 <= k < |idxs| ==> idxs[k] < |vs|
    decreases |idxs|
  {
    if idxs == [] then prev
    else
      var curr := idxs[0];
      var next :=
        if prev.None? then Some(curr)
        else if Distance(vs[curr], width) < Distance(vs[prev.value], width) then Some(curr)
        else prev;
      Reduce(vs, width, next, idxs[1..])
  }

  /** getHitableBeat on the pool's badges, as an index. */
  function HitableIndex(vs: seq<BadgeState>, width: real): Option<nat>
  {
    Reduce(vs, width, None, Candidates(vs, width, 0))
  }

  lemma {:induction false} ReduceArgmin(vs: seq<BadgeState>, width: real, prev: Option<nat>, idxs: seq<nat>)
    requires prev.Some? ==> prev.value < |vs|
    requires forall k :: 0 <= k < |idxs| ==> idxs[k] < |vs|
    requires Increasing(idxs)
    requires prev.Some? ==> forall k :: 0 <= k < |idxs| ==> prev.value < idxs[k]
    ensures var r := Reduce(vs, width, prev, idxs);
      && (r.None? <==> prev.None? && idxs == [])
      && (r.Some? ==> r.value < |vs|)
      && (r.Some? ==> r == prev || r.value in idxs)
      && (r.Some? && prev.Some? ==> Distance(vs[r.value], width) <= Distance(vs[prev.value], width))
      && (r.Some? && prev.Some? && prev.value < r.value ==>
            Distance(vs[prev.value], width) > Distance(vs[r.value], width))
      && (forall j :: j in idxs ==> r.Some? && Distance(vs[r.value], width) <= Distance(vs[j], width))
      && (forall j :: j in idxs && r.Some? && j < r.value ==>
            Distance(vs[j], width) > Distance(vs[r.value], width))
    decreases |idxs|
  {
    if idxs != [] {
      var curr := idxs[0];
      var rest := idxs[1..];
      var next :=
        if prev.None? then Some(curr)
        else if Distance(vs[curr], width) < Distance(vs[prev.value], width) then Some(curr)
        else prev;
      assert forall k :: 0 <= k < |rest| ==> curr < rest[k];
      ReduceArgmin(vs, width, next, rest);
      assert forall j :: j in idxs ==> j == curr || j in rest;
    }
  }

  /** getHitableBeat returns nothing exactly when no badge is available, unhit and in
      range; otherwise it returns such a badge, no farther from the hit zone than any
      other such badge, and strictly closer than every such badge before it in the pool
      (on equal distances the earlier badge wins). */
  lemma HitableIndexSelects(vs: seq<BadgeState>, width: real)
    ensures var r := HitableIndex(vs, width);
      && (r.None? <==> forall j :: 0 <= j < |vs| ==> !Hitable(vs[j], width))
      && (r.Some? ==> r.value < |vs| && Hitable(vs[r.value], width))
      && (r.Some? ==> forall j :: 0 <= j < |vs| && Hitable(vs[j], width) ==>
            Distance(vs[r.value], width) <= Distance(vs[j], width))
      && (r.Some? ==> forall j :: 0 <= j < r.value && Hitable(vs[j], width) ==>
            Distance(vs[j], width) > Distance(vs[r.value], width))
  {
    var cands := Candidates(vs, width, 0);
    ReduceArgmin(vs, width, None, cands);
    var r := HitableIndex(vs, width);
    if r.None? {
      forall j | 0 <= j < |vs|
        ensures !Hitable(vs[j], width)
      {
        assert j !in cands;
      }
    } else {
      assert r.value in cands;
      forall j | 0 <= j < |vs| && Hitable(vs[j], width)
        ensures Distance(vs[r.value], width) <= Distance(vs[j], width)
      {
        assert j in cands;
      }
      forall j | 0 <= j < r.value && Hitable(vs[j], width)
        ensures Distance(vs[j], width) > Distance(vs[r.value], width)
      {
        assert j in cands;
      }
    }
  }

  // ---------------------------------------------------------------------------
  // Availability marking.

  /** `availableActions.includes(badge.action)`: an absent action is never included. */
  predicate Includes(actions: seq<ActionType>, action: Option<ActionType>)
  {
    action.Some? && action.value in actions
  }

  /** updateBeatsAvailable on one badge: big badges get "my action is offered", small
      badges are left alone. */
  function MarkAvailable(b: BadgeState, actions: seq<ActionType>): BadgeState
  {
    if b.beatType == Big then b.(available := Includes(actions, b.action)) else b
  }

  function MarkAll(vs: seq<BadgeState>, actions: seq<ActionType>): (r: seq<BadgeState>)
    ensures |r| == |vs|
    ensures forall i :: 0 <= i < |vs| ==> r[i] == MarkAvailable(vs[i], actions)
  {
    seq(|vs|, i requires 0 <= i < |vs| => MarkAvailable(vs[i], actions))
  }

  /** After marking, a big badge is available exactly when its action is offered; a small
      badge keeps whatever flag it had; nothing else about a badge changes. */
  lemma MarkAllSetsBigOnly(vs: seq<BadgeState>, actions: seq<ActionType>)
    ensures forall i :: 0 <= i < |vs| ==>
      && MarkAll(vs, actions)[i].(available := vs[i].available) == vs[i]
      && (vs[i].beatType == Big ==>
            (MarkAll(vs, actions)[i].available <==> vs[i].action.Some? && vs[i].action.value in actions))
      && (vs[i].beatType == Small ==> MarkAll(vs, actions)[i].available == vs[i].available)
  {
  }

  /** A big badge whose action is not offered can never be the hittable beat after
      marking. */
  lemma MarkedUnofferedBigNeverHit(vs: seq<BadgeState>, actions: seq<ActionType>, width: real)
    ensures var r := HitableIndex(MarkAll(vs, actions), width);
      r.Some? ==> r.value < |vs| && (vs[r.value].beatType == Big ==> Includes(actions, vs[r.value].action))
  {
    HitableIndexSelects(MarkAll(vs, actions), width);
  }

  /** A badge that scrolled out while big and available, reused for a small template,
      keeps `available` (createBeat resets only `hit`, and marking skips small badges),
      so the query can return a small badge. */
  lemma ReusedSmallBadgeIsHittable(width: real, v: real, actions: seq<ActionType>)
    ensures var stale := BadgeState(Big, Some(Plow), v, true, false, -1.0, false);
      var pool := MarkAll(Spawn([stale], Beat(Small, None), width / 2.0, v), actions);
      && pool[0].beatType == Small
      && HitableIndex(pool, width) == Some(0)
  {
    var stale := BadgeState(Big, Some(Plow), v, true, false, -1.0, false);
    var pool := MarkAll(Spawn([stale], Beat(Small, None), width / 2.0, v), actions);
    assert Hitable(pool[0], width);
    HitableIndexSelects(pool, width);
  }

  /** The per-frame update of every badge in the pool. */
  function AdvancePool(vs: seq<BadgeState>, delta: real): (r: seq<BadgeState>)
    ensures |r| == |vs|
    ensures forall i :: 0 <= i < |vs| ==> r[i] == Advance(vs[i], delta)
  {
    seq(|vs|, i requires 0 <= i < |vs| => Advance(vs[i], delta))
  }

  // ---------------------------------------------------------------------------

  function ViewsOf(s: seq<BeatBadge>): (r: seq<BadgeState>)
    reads s
    ensures |r| == |s|
    ensures forall i :: 0 <= i < |s| ==> r[i] == s[i].View()
  {
    if s == [] then [] else [s[0].View()] + ViewsOf(s[1..])
  }

  /** No badge object occurs twice. */
  predicate Distinct(s: seq<BeatBadge>)
  {
    forall i, j :: 0 <= i < j < |s| ==> s[i] != s[j]
  }

  /** The views of a pool are determined badge by badge. */
  lemma ViewsOfPointwise(s: seq<BeatBadge>, vs: seq<BadgeState>)
    requires |s| == |vs| && forall j :: 0 <= j < |s| ==> s[j].View() == vs[j]
    ensures ViewsOf(s) == vs
  {
  }

  /** The badge at i is hittable, no farther from the hit zone than any hittable badge,
      and strictly nearer than every hittable badge before it. */
  ghost predicate NearestHitable(s: seq<BeatBadge>, i: int, width: real)
    reads s
  {
    && 0 <= i < |s| && Hitable(s[i].View(), width)
    && (forall j :: 0 <= j < |s| && Hitable(s[j].View(), width) ==>
          Distance(s[i].View(), width) <= Distance(s[j].View(), width))
    && (forall j :: 0 <= j < i && Hitable(s[j].View(), width) ==>
          Distance(s[j].View(), width) > Distance(s[i].View(), width))
  }

  /** HitableIndexSelects read on the badge objects themselves. */
  lemma HitableBadgeSelects(s: seq<BeatBadge>, width: real)
    ensures var r := HitableIndex(ViewsOf(s), width);
      && (r.None? <==> forall j :: 0 <= j < |s| ==> !Hitable(s[j].View(), width))
      && (r.Some? ==> NearestHitable(s, r.value, width))
  {
    HitableIndexSelects(ViewsOf(s), width);
  }

  /** The RhythmBoard. Configuration is fixed at construction; the beat counter and the
      badge pool change. `width` is the canvas width and `spacing` BEAT_BADGE_SPACING,
      both defined outside the modelled files. */
  class RhythmBoard {
    const bps: real
    const sequence: seq<Beat>
    const delayBeats: real
    const width: real
    const spacing: real
    var beatCount: nat
    var pool: seq<BeatBadge>

    ghost predicate Valid()
      reads this
    {
      && bps > 0.0
      && |sequence| > 0
      && |pool| <= MAX_BADGES
      && Distinct(pool)
    }

    function Views(): seq<BadgeState>
      reads this, pool
    {
      ViewsOf(pool)
    }

    constructor(bps: real, sequence: seq<Beat>, delayBeats: Option<real>, width: real, spacing: real)
      requires bps > 0.0 && |sequence| > 0
      ensures Valid()
      ensures this.bps == bps && this.sequence == sequence && this.width == width && this.spacing == spacing
      ensures this.delayBeats == DelayBeatsFrom(delayBeats)
      ensures beatCount == 0 && pool == []
    {
      this.bps := bps;
      this.sequence := sequence;
      this.width := width;
      this.spacing := spacing;
      beatCount := 0;
      this.delayBeats := if delayBeats.Some? then delayBeats.value else DEFAULT_DELAY_BEATS;
      pool := [];
    }

    /** The pool's `get(x, y)`: the first inactive badge, moved to x, else a new badge
        while fewer than 40 exist, else null. */
    method TakeBadge(x: real) returns (b: BeatBadge?)
      requires Valid()
      modifies this, pool
      ensures Valid()
      ensures Views() == Take(old(Views()), x)
      ensures old(pool) <= pool
      ensures b == null <==> Slot(old(Views())).None?
      ensures b != null ==> Slot(old(Views())).value < |pool| && pool[Slot(old(Views())).value] == b
      ensures b != null && b !in old(pool) ==> fresh(b)
      ensures beatCount == old(beatCount)
    {
      ghost var vs := Views();
      var i := FindInactive(pool);
      TakeCases(vs, x);
      if i < |pool| {
        b := ReuseBadge(i, x);
      } else if |pool| < MAX_BADGES {
        b := AppendBadge(x);
      } else {
        b := null;
      }
    }

    /** `get` hands out the inactive badge at i, moved to x. */
    method ReuseBadge(i: nat, x: real) returns (b: BeatBadge)
      requires Valid() && i < |pool|
      modifies pool[i]
      ensures b == pool[i]
      ensures Views() == old(Views())[i := old(Views())[i].(x := x)]
    {
      ghost var vs := Views();
      b := pool[i];
      b.SetX(x);
      ViewsOfPointwise(pool, vs[i := vs[i].(x := x)]);
    }

    /** `get` creates a badge at x and adds it to the pool. */
    method AppendBadge(x: real) returns (b: BeatBadge)
      requires Valid() && |pool| < MAX_BADGES
      modifies this
      ensures Valid()
      ensures fresh(b) && pool == old(pool) + [b] && beatCount == old(beatCount)
      ensures Views() == old(Views()) + [NewBadge(x)]
    {
      ghost var vs := Views();
      b := new BeatBadge(x);
      pool := pool + [b];
      ViewsOfPointwise(pool, vs + [NewBadge(x)]);
    }

    /** The search of `get`: the index of the first inactive badge, or the pool's size. */
    static method FindInactive(badges: seq<BeatBadge>) returns (i: nat)
      ensures i <= |badges|
      ensures i < |badges| ==> FirstInactive(ViewsOf(badges)) == Some(i)
      ensures i == |badges| ==> FirstInactive(ViewsOf(badges)).None?
    {
      i := 0;
      while i < |badges| && badges[i].active
        invariant 0 <= i <= |badges|
        invariant forall j :: 0 <= j < i ==> badges[j].active
      {
        i := i + 1;
      }
      FirstInactiveAt(ViewsOf(badges), i);
    }

    /** The chain setActive(true).set(beat).setV(v).setHit(false) on one badge. */
    static method Arm(badge: BeatBadge, beat: Beat, v: real)
      modifies badge
      ensures badge.View() == Armed(old(badge.View()), beat, v)
    {
      badge.SetActive(true);
      badge.Set(beat);
      badge.SetV(v);
      badge.SetHit(false);
    }

    /** createBeat: takes a slot and arms it with the next template, x and v; the counter
        advances by one even when the pool is full and nothing is returned. */
    method CreateBeat() returns (badge: BeatBadge?)
      requires Valid()
      modifies this, pool
      ensures Valid()
      ensures beatCount == old(beatCount) + 1
      ensures Views() == Spawn(old(Views()), TemplateAt(sequence, old(beatCount)),
                               SpawnX(width, spacing, delayBeats), Velocity(spacing, bps))
      ensures old(pool) <= pool
      ensures badge == null <==> Slot(old(Views())).None?
      ensures badge != null ==> pool[Slot(old(Views())).value] == badge
    {
      var x := SpawnX(width, spacing, delayBeats);
      var v := Velocity(spacing, bps);
      var beat := sequence[beatCount % |sequence|];
      ghost var vs := Views();
      badge := TakeBadge(x);
      ghost var taken := Views();
      SpawnArmsTaken(vs, beat, x, v);
      if badge != null {
        ghost var i := Slot(vs).value;
        Arm(badge, beat, v);
        ViewsOfPointwise(pool, taken[i := Armed(taken[i], beat, v)]);
      }
      beatCount := beatCount + 1;
    }

    /** getHitableBeat */
    function GetHitableBeat(): (r: BeatBadge?)
      requires Valid()
      reads this, pool
      ensures r == null <==> forall j :: 0 <= j < |pool| ==> !Hitable(pool[j].View(), width)
      ensures r != null ==> exists i :: NearestHitable(pool, i, width) && pool[i] == r
    {
      HitableBadgeSelects(pool, width);
      match HitableIndex(ViewsOf(pool), width)
      case None => null
      case Some(i) => pool[i]
    }

    /** updateBeatsAvailable */
    method UpdateBeatsAvailable(availableActions: seq<ActionType>)
      requires Valid()
      modifies pool
      ensures Valid()
      ensures Views() == MarkAll(old(Views()), availableActions)
    {
      MarkEach(pool, availableActions);
    }

    /** The `children.each` of updateBeatsAvailable. */
    static method MarkEach(badges: seq<BeatBadge>, availableActions: seq<ActionType>)
      requires Distinct(badges)
      modifies badges
      ensures ViewsOf(badges) == MarkAll(old(ViewsOf(badges)), availableActions)
    {
      ghost var vs := ViewsOf(badges);
      var i := 0;
      while i < |badges|
        invariant 0 <= i <= |badges|
        invariant forall j :: 0 <= j < i ==> badges[j].View() == MarkAvailable(vs[j], availableActions)
        invariant forall j :: i <= j < |badges| ==> badges[j].View() == vs[j]
      {
        var badge := badges[i];
        if badge.IsBigType() {
          badge.SetAvailable(Includes(availableActions, badge.action));
        }
        i := i + 1;
      }
      ViewsOfPointwise(badges, MarkAll(vs, availableActions));
    }

    /** One frame of the group's child updates. */
    method UpdateBadges(delta: real)
      requires Valid()
      modifies pool
      ensures Valid()
      ensures Views() == AdvancePool(old(Views()), delta)
    {
      AdvanceEach(pool, delta);
    }

    /** runChildUpdate: `update` on every badge of the group. */
    static method AdvanceEach(badges: seq<BeatBadge>, delta: real)
      requires Distinct(badges)
      modifies badges
      ensures ViewsOf(badges) == AdvancePool(old(ViewsOf(badges)), delta)
    {
      ghost var vs := ViewsOf(badges);
      var i := 0;
      while i < |badges|
        invariant 0 <= i <= |badges|
        invariant forall j :: 0 <= j < i ==> badges[j].View() == Advance(vs[j], delta)
        invariant forall j :: i <= j < |badges| ==> badges[j].View() == vs[j]
      {
        badges[i].Update(delta);
        i := i + 1;
      }
      ViewsOfPointwise(badges, AdvancePool(vs, delta));
    }
  }
}
