/**
 * `AttackBaseAction`'s choice of what to shoot: the nearest enemy drone in range that
 * fewer teammates than the cap are already aiming at, else the sector's mothership when
 * the strategy attacks bases.
 */
module Targeting {
  import opened Wrappers
  import opened Geometry
  import opened Seqs
  import opened Snapshot
  import opened Sectors
  import opened Placement

  /** A living enemy drone within attack range of `me`. */
  predicate InReach(env: Env, me: GameObject, d: GameObject) {
    d.alive && !d.Ours() && IsRadiusAttack(env, me.pos, d.pos)
  }

  /**
   * `get_objects_in_radius_attack(get_drones([get_enemy_drones, get_alive_obj]))` as
   * indices into the scene's drones, in the scene's order.
   */
  function EnemiesInReach(w: World, env: Env, me: GameObject): (es: seq<nat>)
    ensures forall k :: 0 <= k < |es| ==> es[k] < |w.drones| && InReach(env, me, w.drones[es[k]])
    ensures forall i :: 0 <= i < |w.drones| && InReach(env, me, w.drones[i]) ==> i in es
  {
    Indices(w.drones, (d: GameObject) => InReach(env, me, d))
  }

  /** `get_number_attack`: at most 2 attackers per enemy when enemies outnumber the living teammates, else 4. */
  function NumberAttack(enemies: nat, mates: seq<Mate>): (cap: nat)
    ensures cap == 2 <==> enemies > AliveMates(mates)
    ensures cap == 4 <==> enemies <= AliveMates(mates)
  {
    if enemies > AliveMates(mates) then 2 else 4
  }

  /** `len([drone for drone in self.drone.teammates if drone.target_attack == enemy])`. */
  function Attackers(w: World, mates: seq<Mate>, i: nat): nat {
    Count(mates, (m: Mate) => Matches(w, m.targetAttack, DroneRef(i)))
  }

  /** The distance from `me` to the `i`-th drone. */
  function DistanceTo(w: World, env: Env, me: GameObject): nat -> real {
    (i: nat) => if i < |w.drones| then env.dist(me.pos, w.drones[i].pos) else 0.0
  }

  /** `sorted(enemy_drones_alive, key=self.drone.distance_to)`: nearest first, ties in scene order. */
  function ByDistance(w: World, env: Env, me: GameObject): (es: seq<nat>)
    ensures SortedBy(es, DistanceTo(w, env, me))
    ensures multiset(es) == multiset(EnemiesInReach(w, env, me))
    ensures StableBy(es, EnemiesInReach(w, env, me), DistanceTo(w, env, me))
  {
    SortBy(EnemiesInReach(w, env, me), DistanceTo(w, env, me))
  }

  /** An enemy that fewer teammates than the cap aim at. */
  predicate Open(w: World, env: Env, me: GameObject, mates: seq<Mate>, i: nat) {
    Attackers(w, mates, i) < NumberAttack(|EnemiesInReach(w, env, me)|, mates)
  }

  /** The loop over the sorted enemies in `next_target_attack`: the first open one. */
  function PickEnemy(w: World, env: Env, me: GameObject, mates: seq<Mate>): Option<nat> {
    var es := ByDistance(w, env, me);
    var k := FirstIndex(es, (i: nat) => Open(w, env, me, mates, i));
    if k.Some? then Some(es[k.value]) else None
  }

  /** The sorted enemies are exactly the living enemies in range. */
  lemma ByDistanceMembers(w: World, env: Env, me: GameObject)
    ensures forall x :: x in ByDistance(w, env, me) ==> x < |w.drones| && InReach(env, me, w.drones[x])
    ensures forall i :: 0 <= i < |w.drones| && InReach(env, me, w.drones[i]) ==> i in ByDistance(w, env, me)
  {
    var es := ByDistance(w, env, me);
    var all := EnemiesInReach(w, env, me);
    forall x | x in es
      ensures x in all
    {
      assert multiset(es)[x] > 0;
    }
    forall i | 0 <= i < |w.drones| && InReach(env, me, w.drones[i])
      ensures i in es
    {
      var n: nat := i;
      var bag: multiset<nat> := multiset(all);
      assert n in all;
      assert bag[n] > 0;
    }
  }

  /** The enemy picked is a living enemy in range, open to one more attacker. */
  lemma PickedIsOpen(w: World, env: Env, me: GameObject, mates: seq<Mate>)
    ensures var e := PickEnemy(w, env, me, mates);
      e.Some? ==> e.value < |w.drones| && InReach(env, me, w.drones[e.value]) && Open(w, env, me, mates, e.value)
  {
    ByDistanceMembers(w, env, me);
  }

  /** No living enemy in range that is strictly nearer than the one picked is open. */
  lemma NoNearerOpen(w: World, env: Env, me: GameObject, mates: seq<Mate>, i: nat)
    requires i < |w.drones| && InReach(env, me, w.drones[i])
    requires PickEnemy(w, env, me, mates).Some? && PickEnemy(w, env, me, mates).value < |w.drones|
    requires env.dist(me.pos, w.drones[i].pos) < env.dist(me.pos, w.drones[PickEnemy(w, env, me, mates).value].pos)
    ensures !Open(w, env, me, mates, i)
  {
    ByDistanceMembers(w, env, me);
    SortedFirstIsLeast(ByDistance(w, env, me), DistanceTo(w, env, me), (i: nat) => Open(w, env, me, mates, i), i);
  }

  /** No enemy is picked exactly when no living enemy in range is open. */
  lemma NonePickedNoneOpen(w: World, env: Env, me: GameObject, mates: seq<Mate>)
    ensures PickEnemy(w, env, me, mates).None? <==>
      forall i :: 0 <= i < |w.drones| && InReach(env, me, w.drones[i]) ==> !Open(w, env, me, mates, i)
  {
    ByDistanceMembers(w, env, me);
    var es := ByDistance(w, env, me);
    if PickEnemy(w, env, me, mates).None? {
      forall i | 0 <= i < |w.drones| && InReach(env, me, w.drones[i])
        ensures !Open(w, env, me, mates, i)
      {
        var l :| 0 <= l < |es| && es[l] == i;
      }
    }
  }

  /** `get_point_attack`: a standing enemy's own position, or the engine's lead point for a moving one. */
  function PointAttack(env: Env, me: GameObject, e: GameObject): (t: Target)
    ensures t.Spot?
    ensures !e.moving ==> t == Spot(e.pos)
    ensures e.moving ==> t == Spot(env.lead(me.pos, e))
  {
    if e.moving then Spot(env.lead(me.pos, e)) else Spot(e.pos)
  }

  /** The sector's mothership, when it is alive and within attack range of `me`. */
  predicate BaseInReach(w: World, env: Env, me: GameObject, sector: Option<Sector>) {
    sector.Some? && ShipAlive(w, sector.value) &&
    IsRadiusAttack(env, me.pos, w.motherships[sector.value.mothership.value].pos)
  }

  /**
   * `AttackBaseAction.next_target_attack`: the picked enemy's aiming point; else, when
   * `base_attack` is set, the sector's mothership if it is alive and in range; else nothing.
   */
  function NextTargetAttack(w: World, env: Env, me: GameObject, mates: seq<Mate>, baseAttack: Option<bool>,
                            sector: Option<Sector>): (t: Target)
    ensures PickEnemy(w, env, me, mates).Some? ==>
      var e := PickEnemy(w, env, me, mates).value;
      e < |w.drones| && t == PointAttack(env, me, w.drones[e])
    ensures PickEnemy(w, env, me, mates).None? ==>
      (t != Nowhere <==> baseAttack == Some(true) && BaseInReach(w, env, me, sector))
    ensures PickEnemy(w, env, me, mates).None? && t != Nowhere ==>
      t == Thing(ShipRef(sector.value.mothership.value))
  {
    PickedIsOpen(w, env, me, mates);
    var e := PickEnemy(w, env, me, mates);
    if e.Some? then PointAttack(env, me, w.drones[e.value])
    else if baseAttack == Some(true) && BaseInReach(w, env, me, sector) then
      Thing(ShipRef(sector.value.mothership.value))
    else Nowhere
  }

  /** `AttackBaseAction.next_target_attack`: the loop over the enemies sorted by distance. */
  method ChooseTarget(w: World, env: Env, me: GameObject, mates: seq<Mate>, baseAttack: Option<bool>,
                      sector: Option<Sector>) returns (t: Target)
    ensures t == NextTargetAttack(w, env, me, mates, baseAttack, sector)
  {
    PickedIsOpen(w, env, me, mates);
    var es := ByDistance(w, env, me);
    var k := FindFirst(es, (i: nat) => Open(w, env, me, mates, i));
    if k.Some? {
      return PointAttack(env, me, w.drones[es[k.value]]);
    }
    if baseAttack == Some(true) && BaseInReach(w, env, me, sector) {
      return Thing(ShipRef(sector.value.mothership.value));
    }
    return Nowhere;
  }
}
