/**
 * Where the movement actions send a drone: slots on a circle round a mothership, slots on
 * the line of attack before an enemy sector, the loot a harvester heads for, and the step
 * taken towards an enemy base once the start position is reached.
 */
module Placement {
  import opened Wrappers
  import opened Geometry
  import opened Seqs
  import opened Snapshot
  import opened Sectors

  /**
   * What one teammate (`self.drone.teammates`, the other drones of this bot) shows the
   * drone deciding: whether it lives, its free cargo space and the three targets the bot
   * keeps on it.
   */
  datatype Mate = Mate(
    alive: bool,
    freeSpace: nat,
    startPosition: Target,
    targetMove: Target,
    targetAttack: Target)

  function IsAlive(): Mate -> bool {
    (m: Mate) => m.alive
  }

  /** The number of living teammates. */
  function AliveMates(mates: seq<Mate>): nat {
    Count(mates, IsAlive())
  }

  /** A living teammate whose start position is set and lies exactly at `p`. */
  predicate Claims(w: World, m: Mate, p: Point) {
    m.alive && Locate(w, m.startPosition).Some? && IsSamePoints(p, Locate(w, m.startPosition).value)
  }

  /** `MoveBaseAction.is_valid_point`: no living teammate has taken `p` as its start position. */
  function IsValidPoint(w: World, mates: seq<Mate>, p: Point): (valid: bool)
    ensures !valid <==> exists i :: 0 <= i < |mates| && Claims(w, mates[i], p)
  {
    FirstIndex(mates, (m: Mate) => Claims(w, m, p)).None?
  }

  // ----- get_position_on_circle -----

  /** `number_guard`: the living teammates, or 1 when there are none. */
  function Guards(mates: seq<Mate>): (n: nat)
    ensures n >= 1
    ensures AliveMates(mates) > 0 ==> n == AliveMates(mates)
  {
    if AliveMates(mates) == 0 then 1 else AliveMates(mates)
  }

  /** `int((end_angle - start_angle) / number_guard)`. */
  function CircleStep(angle: int, mates: seq<Mate>): int {
    Trunc((2 * angle) as real / Guards(mates) as real)
  }

  /** `int(direction_to_center)`: the direction from the mothership to the field's centre, truncated. */
  function CenterDirection(env: Env, center: Point): int {
    Trunc(env.direction(center, CenterOfField(env.width, env.height)))
  }

  /** `range(start_angle, end_angle + 1, step)`: from `angle` degrees on one side of the centre direction to `angle` on the other. */
  function CircleAngles(env: Env, mates: seq<Mate>, center: Point, angle: int): (ds: seq<int>)
    requires CircleStep(angle, mates) > 0
    ensures forall i :: 0 <= i < |ds| ==>
      CenterDirection(env, center) - angle <= ds[i] <= CenterDirection(env, center) + angle
    ensures 0 <= angle ==> |ds| > 0 && ds[0] == CenterDirection(env, center) - angle
  {
    var dir := CenterDirection(env, center);
    PyRange(dir - angle, dir + angle + 1, CircleStep(angle, mates))
  }

  /** The point at `distance` from `center` in direction `d` degrees. */
  function OnCircle(env: Env, center: Point, distance: real, d: int): Point {
    env.shift(center, d as real, distance)
  }

  /** The value of `get_position_on_circle`: the first unclaimed point over the candidate angles. */
  function CirclePoint(w: World, env: Env, mates: seq<Mate>, center: Point, distance: real, angle: int): Option<Point>
    requires CircleStep(angle, mates) > 0
  {
    var ds := CircleAngles(env, mates, center, angle);
    var k := FirstIndex(ds, Unclaimed(w, env, mates, center, distance));
    if k.Some? then Some(OnCircle(env, center, distance, ds[k.value])) else None
  }

  /** `CirclePoint` is the point of the first candidate angle that no living teammate has claimed. */
  lemma CirclePointFirst(w: World, env: Env, mates: seq<Mate>, center: Point, distance: real, angle: int)
    requires CircleStep(angle, mates) > 0
    ensures var p := CirclePoint(w, env, mates, center, distance, angle);
      var ds := CircleAngles(env, mates, center, angle);
      p.None? <==> forall i :: 0 <= i < |ds| ==> !IsValidPoint(w, mates, OnCircle(env, center, distance, ds[i]))
    ensures var p := CirclePoint(w, env, mates, center, distance, angle);
      var ds := CircleAngles(env, mates, center, angle);
      p.Some? ==> exists i :: (0 <= i < |ds| && p.value == OnCircle(env, center, distance, ds[i]) &&
        IsValidPoint(w, mates, p.value) &&
        forall j :: 0 <= j < i ==> !IsValidPoint(w, mates, OnCircle(env, center, distance, ds[j])))
  {
  }

  function Unclaimed(w: World, env: Env, mates: seq<Mate>, center: Point, distance: real): int -> bool {
    (d: int) => IsValidPoint(w, mates, OnCircle(env, center, distance, d))
  }

  /**
   * `MoveBaseAction.get_position_on_circle`. `range` refuses a zero step, so the living
   * teammates must not outnumber twice the angle.
   */
  method PositionOnCircle(w: World, env: Env, mates: seq<Mate>, center: Point, distance: real, angle: int)
    returns (p: Option<Point>)
    requires CircleStep(angle, mates) > 0
    ensures p == CirclePoint(w, env, mates, center, distance, angle)
  {
    var direction := CenterDirection(env, center);
    var step := CircleStep(angle, mates);
    var ds := PyRange(direction - angle, direction + angle + 1, step);
    assert ds == CircleAngles(env, mates, center, angle);
    var i := 0;
    while i < |ds|
      invariant 0 <= i <= |ds|
      invariant forall j :: 0 <= j < i ==> !IsValidPoint(w, mates, OnCircle(env, center, distance, ds[j]))
    {
      var point := env.shift(center, ds[i] as real, distance);
      if IsValidPoint(w, mates, point) {
        FirstIndexAt(ds, Unclaimed(w, env, mates, center, distance), i);
        return Some(point);
      }
      i := i + 1;
    }
    assert FirstIndex(ds, Unclaimed(w, env, mates, center, distance)).None?;
    assert CirclePoint(w, env, mates, center, distance, angle) == None;
    return None;
  }

  // ----- get_point_on_axis -----

  /** `int(2 * self.drone.radius)`. */
  function AxisStep(radius: real): int {
    Trunc(2.0 * radius)
  }

  /** `range(int(min_coord + radius), int(max_coord), step)` over the main coordinates of the two points. */
  function AxisRange(top: Point, bottom: Point, main: Axis, radius: real): (cs: seq<int>)
    requires AxisStep(radius) > 0
    ensures var lo := if Coord(top, main) <= Coord(bottom, main) then Coord(top, main) else Coord(bottom, main);
      var hi := if Coord(top, main) <= Coord(bottom, main) then Coord(bottom, main) else Coord(top, main);
      forall i :: 0 <= i < |cs| ==> Trunc(lo + radius) <= cs[i] < Trunc(hi)
  {
    var a := Coord(top, main);
    var b := Coord(bottom, main);
    var lo := if a <= b then a else b;
    var hi := if a <= b then b else a;
    PyRange(Trunc(lo + radius), Trunc(hi), AxisStep(radius))
  }

  /** The candidate with main coordinate `c` and the bottom point's other coordinate. */
  function OnAxis(bottom: Point, main: Axis, c: int): (p: Point)
    ensures Coord(p, main) == c as real && Coord(p, Other(main)) == Coord(bottom, Other(main))
  {
    WithCoords(main, c as real, Coord(bottom, Other(main)))
  }

  /** A point fit for a start position: unclaimed and out of reach of standing enemies. */
  predicate Free(w: World, env: Env, mates: seq<Mate>, p: Point) {
    IsValidPoint(w, mates, p) && IsObjSafe(w, env, p)
  }

  /** The value of `get_point_on_axis`: the first free candidate on the line of attack. */
  function AxisPoint(w: World, env: Env, mates: seq<Mate>, top: Point, bottom: Point, main: Axis, radius: real)
    : Option<Point>
    requires AxisStep(radius) > 0
  {
    var cs := AxisRange(top, bottom, main, radius);
    var k := FirstIndex(cs, FreeOnAxis(w, env, mates, bottom, main));
    if k.Some? then Some(OnAxis(bottom, main, cs[k.value])) else None
  }

  /** `AxisPoint` is the first free candidate, keeping the bottom point's other coordinate. */
  lemma AxisPointFirst(w: World, env: Env, mates: seq<Mate>, top: Point, bottom: Point, main: Axis, radius: real)
    requires AxisStep(radius) > 0
    ensures var p := AxisPoint(w, env, mates, top, bottom, main, radius);
      var cs := AxisRange(top, bottom, main, radius);
      p.None? <==> forall i :: 0 <= i < |cs| ==> !Free(w, env, mates, OnAxis(bottom, main, cs[i]))
    ensures var p := AxisPoint(w, env, mates, top, bottom, main, radius);
      var cs := AxisRange(top, bottom, main, radius);
      p.Some? ==> exists i :: (0 <= i < |cs| && p.value == OnAxis(bottom, main, cs[i]) &&
        Free(w, env, mates, p.value) &&
        forall j :: 0 <= j < i ==> !Free(w, env, mates, OnAxis(bottom, main, cs[j])))
  {
  }

  function FreeOnAxis(w: World, env: Env, mates: seq<Mate>, bottom: Point, main: Axis): int -> bool {
    (c: int) => Free(w, env, mates, OnAxis(bottom, main, c))
  }

  /** `MoveToSector.get_point_on_axis`; `range` refuses the zero step of a drone narrower than half a unit. */
  method PointOnAxis(w: World, env: Env, mates: seq<Mate>, top: Point, bottom: Point, main: Axis, radius: real)
    returns (p: Option<Point>)
    requires AxisStep(radius) > 0
    ensures p == AxisPoint(w, env, mates, top, bottom, main, radius)
  {
    var a := Coord(top, main);
    var b := Coord(bottom, main);
    var lo := if a <= b then a else b;
    var hi := if a <= b then b else a;
    var cs := PyRange(Trunc(lo + radius), Trunc(hi), AxisStep(radius));
    assert cs == AxisRange(top, bottom, main, radius);
    ghost var free := FreeOnAxis(w, env, mates, bottom, main);
    var i := 0;
    while i < |cs|
      invariant 0 <= i <= |cs|
      invariant forall j :: 0 <= j < i ==> !free(cs[j])
    {
      var point := OnAxis(bottom, main, cs[i]);
      if Free(w, env, mates, point) {
        FirstIndexAt(cs, free, i);
        return Some(point);
      }
      i := i + 1;
    }
    assert FirstIndex(cs, free).None?;
    assert AxisPoint(w, env, mates, top, bottom, main, radius) == None;
    return None;
  }

  // ----- get_start_position -----

  /**
   * The value of `get_start_position`: a free point on the line of attack found along the
   * x axis when the bottom point lies level with the start point in x, else along y when
   * level in y, else the home mothership. `ship` is the mothership the attack starts from,
   * `team` the number of this bot's living drones.
   */
  function StartPosition(w: World, env: Env, mates: seq<Mate>, ship: GameObject, team: nat, radius: real,
                         direction: real, home: nat): (t: Target)
    requires AxisStep(radius) > 0
    ensures t.Spot? || t == Thing(ShipRef(home))
    ensures t.Spot? ==> Free(w, env, mates, t.p)
    ensures var (start, top, bottom) := env.startPoints(ship.pos, ship.radius, team, radius, direction);
      t == Thing(ShipRef(home)) <==>
        (Trunc(bottom.x) == Trunc(start.x) ==> AxisPoint(w, env, mates, top, bottom, X, radius).None?) &&
        (Trunc(bottom.y) == Trunc(start.y) ==> AxisPoint(w, env, mates, top, bottom, Y, radius).None?)
    ensures var (start, top, bottom) := env.startPoints(ship.pos, ship.radius, team, radius, direction);
      var alongX := AxisPoint(w, env, mates, top, bottom, X, radius);
      Trunc(bottom.x) == Trunc(start.x) && alongX.Some? ==> t == Spot(alongX.value)
    ensures var (start, top, bottom) := env.startPoints(ship.pos, ship.radius, team, radius, direction);
      var alongY := AxisPoint(w, env, mates, top, bottom, Y, radius);
      (!(Trunc(bottom.x) == Trunc(start.x) && AxisPoint(w, env, mates, top, bottom, X, radius).Some?) &&
       Trunc(bottom.y) == Trunc(start.y) && alongY.Some?) ==> t == Spot(alongY.value)
  {
    var (start, top, bottom) := env.startPoints(ship.pos, ship.radius, team, radius, direction);
    var alongX := if Trunc(bottom.x) == Trunc(start.x) then AxisPoint(w, env, mates, top, bottom, X, radius) else None;
    var alongY := if Trunc(bottom.y) == Trunc(start.y) then AxisPoint(w, env, mates, top, bottom, Y, radius) else None;
    if alongX.Some? then Spot(alongX.value)
    else if alongY.Some? then Spot(alongY.value)
    else Thing(ShipRef(home))
  }

  /** `MoveToSector.get_start_position`. */
  method GetStartPosition(w: World, env: Env, mates: seq<Mate>, ship: GameObject, team: nat, radius: real,
                          direction: real, home: nat) returns (t: Target)
    requires AxisStep(radius) > 0
    ensures t == StartPosition(w, env, mates, ship, team, radius, direction, home)
  {
    var (start, top, bottom) := env.startPoints(ship.pos, ship.radius, team, radius, direction);
    if Trunc(bottom.x) == Trunc(start.x) {
      var p := PointOnAxis(w, env, mates, top, bottom, X, radius);
      if p.Some? {
        return Spot(p.value);
      }
    }
    if Trunc(bottom.y) == Trunc(start.y) {
      var p := PointOnAxis(w, env, mates, top, bottom, Y, radius);
      if p.Some? {
        return Spot(p.value);
      }
    }
    return Thing(ShipRef(home));
  }

  // ----- MoveHarvestAction -----

  /** The payload of an object; a reference to nothing holds nothing. */
  function PayloadOf(w: World, r: Ref): nat {
    if Object(w, r).Some? then Object(w, r).value.payload else 0
  }

  /** A living teammate already heading for `r`. */
  predicate Heading(w: World, m: Mate, r: Ref) {
    m.alive && Matches(w, m.targetMove, r)
  }

  function FreeSpace(m: Mate): nat {
    m.freeSpace
  }

  /**
   * `MoveHarvestAction.is_obj_free_for_group`: nobody is heading for the object, or those
   * who are cannot carry off all of it.
   */
  function IsObjFreeForGroup(w: World, mates: seq<Mate>, r: Ref): (free: bool)
    ensures free <==> ((forall i :: 0 <= i < |mates| ==> !Heading(w, mates[i], r)) ||
      SumIf(mates, (m: Mate) => Heading(w, m, r), FreeSpace) < PayloadOf(w, r))
  {
    var heading := (m: Mate) => Heading(w, m, r);
    if Count(mates, heading) > 0 then SumIf(mates, heading, FreeSpace) < PayloadOf(w, r) else true
  }

  /** The search area of `get_objects_with_loot(sector=...)`: the sector's corners, or the whole field. */
  function Region(sector: Option<Sector>): Option<seq<Point>> {
    if sector.Some? then Some(sector.value.corners) else None
  }

  /** The distance from `me` to a piece of loot. */
  function LootDistance(w: World, env: Env, me: Point): Ref -> real {
    (r: Ref) => env.dist(me, LootPos(w, r))
  }

  /** The free loot a harvester may head for. */
  function FreeLoot(w: World, env: Env, mates: seq<Mate>, region: Option<seq<Point>>, safe: bool): (rs: seq<Ref>)
    ensures forall r :: r in rs <==> r in ObjectsWithLoot(w, env, region, safe) && IsObjFreeForGroup(w, mates, r)
  {
    Keep(ObjectsWithLoot(w, env, region, safe), (r: Ref) => IsObjFreeForGroup(w, mates, r))
  }

  /**
   * `MoveHarvestAction.get_target_move`: the nearest free loot (the first of several
   * equally near), or nothing.
   */
  function HarvestTarget(w: World, env: Env, mates: seq<Mate>, me: Point, region: Option<seq<Point>>, safe: bool)
    : (t: Option<Ref>)
    ensures t.None? <==> forall r :: r in ObjectsWithLoot(w, env, region, safe) ==> !IsObjFreeForGroup(w, mates, r)
    ensures t.Some? ==> t.value in ObjectsWithLoot(w, env, region, safe) && IsObjFreeForGroup(w, mates, t.value)
    ensures t.Some? ==> forall r :: r in FreeLoot(w, env, mates, region, safe) ==>
      env.dist(me, LootPos(w, t.value)) <= env.dist(me, LootPos(w, r))
    ensures var free := FreeLoot(w, env, mates, region, safe);
      t.Some? ==> |free| > 0 && t.value == free[ArgMin(free, LootDistance(w, env, me))]
  {
    var free := FreeLoot(w, env, mates, region, safe);
    if |free| > 0 then
      var k := ArgMin(free, LootDistance(w, env, me));
      assert free[k] in free;
      Some(free[k])
    else
      assert forall r :: r !in free;
      None
  }

  /** Of several equally near pieces of free loot, `HarvestTarget` picks the first listed. */
  lemma HarvestTargetFirst(w: World, env: Env, mates: seq<Mate>, me: Point, region: Option<seq<Point>>, safe: bool)
    ensures var t := HarvestTarget(w, env, mates, me, region, safe);
      var free := FreeLoot(w, env, mates, region, safe);
      var near := LootDistance(w, env, me);
      t.Some? ==> exists i :: (0 <= i < |free| && free[i] == t.value &&
        forall j :: 0 <= j < i ==> near(t.value) < near(free[j]))
  {
    var free := FreeLoot(w, env, mates, region, safe);
    if |free| > 0 {
      ArgMinFirst(free, LootDistance(w, env, me));
    }
  }

  // ----- the step towards an enemy base -----

  /**
   * `MoveToSector.get_target_move`: aimed at the home mothership the target stays; else
   * it moves 10 along the direction of attack when the sector's team still has drones,
   * 60 when it has none.
   */
  function SectorAdvance(w: World, env: Env, target: Target, soldiers: nat, direction: real, home: nat): (t: Target)
    ensures target == Thing(ShipRef(home)) ==> t == target
    ensures target != Thing(ShipRef(home)) && Locate(w, target).Some? ==>
      t == Spot(env.shift(Locate(w, target).value, direction, if soldiers > 0 then 10.0 else 60.0))
  {
    if target == Thing(ShipRef(home)) then target
    else if Locate(w, target).Some? then
      Spot(env.shift(Locate(w, target).value, direction, if soldiers > 0 then 10.0 else 60.0))
    else Nowhere
  }

  /** Alive enemy drones somewhere on the field. */
  predicate EnemiesLeft(w: World) {
    exists i :: 0 <= i < |w.drones| && w.drones[i].alive && !w.drones[i].Ours()
  }

  /** `MoveLastSectorAction.get_target_move`: 10 along the attack direction while enemies live, else 70. */
  function LastSectorAdvance(w: World, env: Env, target: Target, direction: real): (t: Target)
    ensures Locate(w, target).Some? ==>
      t == Spot(env.shift(Locate(w, target).value, direction, if EnemiesLeft(w) then 10.0 else 70.0))
  {
    var enemies := FirstIndex(w.drones, (d: GameObject) => d.alive && !d.Ours());
    if Locate(w, target).Some? then
      Spot(env.shift(Locate(w, target).value, direction, if enemies.Some? then 10.0 else 70.0))
    else Nowhere
  }
}
