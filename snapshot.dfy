/**
 * One snapshot of the game as the command centre sees it: drones, motherships and asteroids
 * with the attributes the bot reads, the engine's geometric queries as parameters, the
 * targets a drone can aim at, and the command centre's object filters (`get_alive_obj`,
 * `get_enemy_drones`, ...), loot search and safety test.
 */
module Snapshot {
  import opened Wrappers
  import opened Geometry
  import opened Seqs

  /** The team name of this bot's drones and mothership. */
  const OWN_TEAM: string := "DontsovDrone"

  /** A drone with less health than this goes back to heal. */
  const HEAL_LIMIT: int := 60

  /**
   * A drone, mothership or asteroid. A drone or mothership belongs to this bot when its
   * team is `OWN_TEAM`; asteroids have no meaningful team.
   */
  datatype GameObject = GameObject(
    team: string,
    pos: Point,
    alive: bool,
    moving: bool,
    payload: nat,
    freeSpace: nat,
    health: int,
    radius: real)
  {
    predicate IsEmpty() { payload == 0 }
    predicate IsFull() { freeSpace == 0 }
    predicate Ours() { team == OWN_TEAM }
  }

  /**
   * The scene: every drone of every team (in the engine's team-by-team order), the
   * motherships and the asteroids. Objects are never removed during a game, so an index
   * into one of these lists identifies an object for the whole game.
   */
  datatype World = World(drones: seq<GameObject>, motherships: seq<GameObject>, asteroids: seq<GameObject>)

  /**
   * The engine's theme constants and geometric queries. `dist`, `near`, the direction of
   * the vector between two points in degrees, the point reached by moving a given length
   * along a direction, `MoveToSector.get_start_points` and the lead point for a moving
   * enemy are floating-point and trigonometric code outside this model.
   */
  datatype Env = Env(
    width: nat,
    height: nat,
    healingDistance: real,
    radiusAttack: real,
    shotDistance: real,
    diagonal: real,
    dist: (Point, Point) -> real,
    near: (Point, Point) -> bool,
    direction: (Point, Point) -> real,
    shift: (Point, real, real) -> Point,
    startPoints: (Point, real, nat, real, real) -> (Point, Point, Point),
    lead: (Point, GameObject) -> Point)

  /** A game object, by list and position in that list. */
  datatype Ref = AsteroidRef(i: nat) | DroneRef(i: nat) | ShipRef(i: nat)

  /** What a drone's `target_move`, `start_position` or `target_attack` holds: None, a Point or an object. */
  datatype Target = Nowhere | Spot(p: Point) | Thing(r: Ref)

  function Object(w: World, r: Ref): (o: Option<GameObject>)
    ensures o.Some? <==>
      match r
      case AsteroidRef(i) => i < |w.asteroids|
      case DroneRef(i) => i < |w.drones|
      case ShipRef(i) => i < |w.motherships|
  {
    match r
    case AsteroidRef(i) => if i < |w.asteroids| then Some(w.asteroids[i]) else None
    case DroneRef(i) => if i < |w.drones| then Some(w.drones[i]) else None
    case ShipRef(i) => if i < |w.motherships| then Some(w.motherships[i]) else None
  }

  /** The coordinates of a target: the point itself, or the object's position. */
  function Locate(w: World, t: Target): Option<Point> {
    match t
    case Nowhere => None
    case Spot(p) => Some(p)
    case Thing(r) => if Object(w, r).Some? then Some(Object(w, r).value.pos) else None
  }

  /**
   * `target == obj` for an object `obj`: the target is that very object, or a point with
   * the object's coordinates (a point compares equal to anything with the same x and y).
   */
  predicate Matches(w: World, t: Target, r: Ref) {
    t == Thing(r) || (t.Spot? && Object(w, r).Some? && Object(w, r).value.pos == t.p)
  }

  /** The filter functions the command centre chains through `get_drones(filters=...)`. */
  datatype Filter = AliveOnly | DeadOnly | NotEmpty | EnemyOnly | TeamOnly

  predicate Passes(f: Filter, o: GameObject) {
    match f
    case AliveOnly => o.alive
    case DeadOnly => !o.alive
    case NotEmpty => !o.IsEmpty()
    case EnemyOnly => !o.Ours()
    case TeamOnly => o.Ours()
  }

  predicate PassesEvery(fs: seq<Filter>, o: GameObject) {
    forall k :: 0 <= k < |fs| ==> Passes(fs[k], o)
  }

  /** A two-filter chain passes exactly what passes both filters. */
  lemma PassesPair(f: Filter, g: Filter, o: GameObject)
    ensures PassesEvery([f, g], o) <==> Passes(f, o) && Passes(g, o)
  {
    assert [f, g][0] == f && [f, g][1] == g;
  }

  function Passing(f: Filter): GameObject -> bool {
    o => Passes(f, o)
  }

  function PassingEvery(fs: seq<Filter>): GameObject -> bool {
    o => PassesEvery(fs, o)
  }

  /** The objects of `s` that pass every filter, in their order. */
  function Select(s: seq<GameObject>, fs: seq<Filter>): (r: seq<GameObject>)
    ensures forall o :: o in r <==> o in s && PassesEvery(fs, o)
  {
    Keep(s, PassingEvery(fs))
  }

  /** Filtering a selection once more is selecting with one more filter. */
  lemma {:induction false} SelectThen(s: seq<GameObject>, fs: seq<Filter>, f: Filter)
    ensures Keep(Select(s, fs), Passing(f)) == Select(s, fs + [f])
  {
    if |s| > 0 {
      SelectThen(s[1..], fs, f);
      assert PassesEvery(fs + [f], s[0]) <==> PassesEvery(fs, s[0]) && Passes(f, s[0]) by {
        assert forall k :: 0 <= k < |fs| ==> (fs + [f])[k] == fs[k];
        assert (fs + [f])[|fs|] == f;
      }
    }
  }

  /** `CommandCenter.get_drones`: every drone of the scene, passed through each filter in turn. */
  method GetDrones(w: World, filters: seq<Filter>) returns (drones: seq<GameObject>)
    ensures forall o :: o in drones <==> o in w.drones && PassesEvery(filters, o)
  {
    drones := w.drones;
    var k := 0;
    assert drones == Select(w.drones, []) by { KeepAll(w.drones, PassingEvery([])); }
    while k < |filters|
      invariant 0 <= k <= |filters|
      invariant drones == Select(w.drones, filters[..k])
    {
      assert filters[..k + 1] == filters[..k] + [filters[k]];
      SelectThen(w.drones, filters[..k], filters[k]);
      drones := Keep(drones, Passing(filters[k]));
      k := k + 1;
    }
    assert filters[..k] == filters;
  }

  lemma {:induction false} KeepAll(s: seq<GameObject>, p: GameObject -> bool)
    requires forall k :: 0 <= k < |s| ==> p(s[k])
    ensures Keep(s, p) == s
  {
    if |s| > 0 {
      KeepAll(s[1..], p);
    }
  }

  /** `len(get_drones(filters=[get_alive_obj, get_team_drones]))`: this bot's living drones. */
  function AliveTeammates(w: World): nat {
    |Select(w.drones, [AliveOnly, TeamOnly])|
  }

  predicate IsLoot(w: World, r: Ref) {
    match r
    case AsteroidRef(i) => i < |w.asteroids| && !w.asteroids[i].IsEmpty()
    case DroneRef(i) => i < |w.drones| && !w.drones[i].alive && !w.drones[i].IsEmpty()
    case ShipRef(i) =>
      i < |w.motherships| && w.motherships[i].team != OWN_TEAM &&
      !w.motherships[i].alive && !w.motherships[i].IsEmpty()
  }

  /**
   * `CommandCenter.is_obj_safe`: no living enemy drone that stands still is strictly
   * closer than the attack radius.
   */
  function IsObjSafe(w: World, env: Env, p: Point): (safe: bool)
    ensures !safe <==> exists i :: 0 <= i < |w.drones| && Threatens(env, w.drones[i], p)
  {
    FirstIndex(w.drones, (d: GameObject) => Threatens(env, d, p)).None?
  }

  predicate Threatens(env: Env, d: GameObject, p: Point) {
    d.alive && !d.Ours() && !d.moving && env.dist(d.pos, p) < env.radiusAttack
  }

  /** `CommandCenter.is_radius_attack`: the object is at most the attack radius away. */
  predicate IsRadiusAttack(env: Env, from: Point, p: Point) {
    env.radiusAttack >= env.dist(from, p)
  }

  /** `CommandCenter.is_base_radius_attack`: within the attack radius of the mothership's rim. */
  predicate IsBaseRadiusAttack(env: Env, home: GameObject, p: Point) {
    env.radiusAttack + home.radius >= env.dist(home.pos, p)
  }

  /** `CommandCenter.is_need_heal`. */
  predicate IsNeedHeal(o: GameObject) {
    o.health < HEAL_LIMIT
  }

  /** The sector test of `get_objects_with_loot`; corners that leave `min` nothing to work on match nothing. */
  predicate InRegion(region: Option<seq<Point>>, p: Point) {
    region.None? || (|region.value| > 0 && InSector(region.value, p))
  }

  function LootCandidates(w: World): (rs: seq<Ref>)
    ensures forall r :: r in rs <==> IsLoot(w, r)
  {
    var ast := Indices(w.asteroids, (a: GameObject) => !a.IsEmpty());
    var ds := Indices(w.drones, (d: GameObject) => !d.alive && !d.IsEmpty());
    var ms := Indices(w.motherships, (m: GameObject) => m.team != OWN_TEAM && !m.alive && !m.IsEmpty());
    var rs := Tagged(ast, (i: nat) => AsteroidRef(i)) + Tagged(ds, (i: nat) => DroneRef(i)) + Tagged(ms, (i: nat) => ShipRef(i));
    assert forall r :: r in rs <==> r in Tagged(ast, (i: nat) => AsteroidRef(i)) || r in Tagged(ds, (i: nat) => DroneRef(i)) || r in Tagged(ms, (i: nat) => ShipRef(i));
    rs
  }

  /** Each index tagged as a reference into one list. */
  function Tagged(ns: seq<nat>, tag: nat -> Ref): (rs: seq<Ref>)
    ensures |rs| == |ns| && forall k :: 0 <= k < |ns| ==> rs[k] == tag(ns[k])
    ensures forall r :: r in rs <==> exists k :: 0 <= k < |ns| && r == tag(ns[k])
  {
    seq(|ns|, k requires 0 <= k < |ns| => tag(ns[k]))
  }

  function LootPos(w: World, r: Ref): Point {
    if Object(w, r).Some? then Object(w, r).value.pos else Point(0.0, 0.0)
  }

  /**
   * `CommandCenter.get_objects_with_loot`: non-empty asteroids, then dead non-empty drones,
   * then dead non-empty enemy motherships; only the safe ones when `safe`, only those in
   * the region's bounding box when a region is given.
   */
  function ObjectsWithLoot(w: World, env: Env, region: Option<seq<Point>>, safe: bool): (rs: seq<Ref>)
    ensures forall r :: r in rs <==>
      IsLoot(w, r) && (safe ==> IsObjSafe(w, env, LootPos(w, r))) && InRegion(region, LootPos(w, r))
  {
    var all := LootCandidates(w);
    var guarded := if safe then Keep(all, (r: Ref) => IsObjSafe(w, env, LootPos(w, r))) else all;
    Keep(guarded, (r: Ref) => InRegion(region, LootPos(w, r)))
  }
}
