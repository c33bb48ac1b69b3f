/**
 * What one call of an action's `go` does, as a value: the drone's new `target_move`,
 * `start_position` and `target_attack`, the action's new attributes, the strategy slot the
 * strategy's `current_action` moves to (none when it stays), and the orders given to the
 * engine. The classes of the controller run these steps on their fields.
 */
module Steps {
  import opened Wrappers
  import opened Geometry
  import opened Seqs
  import opened Snapshot
  import opened GameData
  import opened Sectors
  import opened Events
  import opened Placement
  import opened Targeting

  /** An order to the engine: `move_at`, `turn_to`, `gun.shot`, `load_from`, `unload_to`. */
  datatype Command = MoveAt(t: Target) | TurnTo(t: Target) | Shoot(t: Target) | LoadFrom(t: Target) | UnloadTo(t: Target)

  /** The action classes of the bot. */
  datatype ActionKind =
    | Load | Unload | MoveDefender | MoveHarvest | MoveToSector | MoveLastSector | MoveRecovery | MoveHome | Attack

  /** The attributes of a strategy that hold an action: `recovery_action`, `unload_action`, ... */
  datatype Slot = RecoverySlot | UnloadSlot | MoveSlot | AttackSlot | LoadSlot

  /** The slots an action of this kind may make the strategy's current action. */
  function Successors(k: ActionKind): set<Slot> {
    match k
    case Load => {RecoverySlot, MoveSlot}
    case Unload => {MoveSlot}
    case MoveDefender => {UnloadSlot, AttackSlot}
    case MoveHarvest => {RecoverySlot, LoadSlot}
    case MoveToSector => {UnloadSlot, AttackSlot}
    case MoveLastSector => {UnloadSlot, AttackSlot}
    case MoveRecovery => {MoveSlot}
    case MoveHome => {UnloadSlot}
    case Attack => {RecoverySlot, MoveSlot}
  }

  /** The slot an action of this kind sits in. */
  function SlotOf(k: ActionKind): Slot {
    match k
    case Load => LoadSlot
    case Unload => UnloadSlot
    case MoveRecovery => RecoverySlot
    case MoveHome => RecoverySlot
    case Attack => AttackSlot
    case _ => MoveSlot
  }

  /**
   * The action each strategy class builds for a slot, `None` for an attribute the class
   * does not have: harvesting never attacks and the other strategies never load.
   */
  function Builds(k: StrategyKind, s: Slot): (a: Option<ActionKind>)
    ensures a.Some? ==> SlotOf(a.value) == s
    ensures s == UnloadSlot ==> a == Some(Unload)
    ensures s == RecoverySlot || s == MoveSlot ==> a.Some?
    ensures s == AttackSlot ==> (a.Some? <==> k != HarvestKind) && (a.Some? ==> a.value == Attack)
    ensures s == LoadSlot ==> (a.Some? <==> k == HarvestKind) && (a.Some? ==> a.value == Load)
  {
    match (k, s)
    case (_, UnloadSlot) => Some(Unload)
    case (HarvestKind, RecoverySlot) => Some(MoveHome)
    case (_, RecoverySlot) => Some(MoveRecovery)
    case (DefenderKind, MoveSlot) => Some(MoveDefender)
    case (HarvestKind, MoveSlot) => Some(MoveHarvest)
    case (SabotageKind, MoveSlot) => Some(MoveToSector)
    case (LastBattleKind, MoveSlot) => Some(MoveLastSector)
    case (HarvestKind, AttackSlot) => None
    case (_, AttackSlot) => Some(Attack)
    case (HarvestKind, LoadSlot) => Some(Load)
    case (_, LoadSlot) => None
  }

  /**
   * Every action a strategy class builds hands over only to slots the class fills, so
   * `current_action` is never set to a missing attribute.
   */
  lemma ShapeClosed(k: StrategyKind, s: Slot, n: Slot)
    requires Builds(k, s).Some? && n in Successors(Builds(k, s).value)
    ensures Builds(k, n).Some?
  {
  }

  /** The drone's `target_move`, `start_position` and `target_attack`. */
  datatype Pose = Pose(targetMove: Target, startPosition: Target, targetAttack: Target)

  /** The attributes an action keeps between calls; `direction` is `direction_attack`. */
  datatype Setting = Setting(
    sector: Option<Sector>,
    startSector: Option<Sector>,
    currentSector: Option<Sector>,
    safeHarvest: Option<bool>,
    baseAttack: Option<bool>,
    direction: Option<real>)

  /**
   * What `go` reads of the game: the scene, the engine's geometry, the drone itself as the
   * scene shows it, its teammates and the index of its mothership.
   */
  datatype Tick = Tick(w: World, env: Env, me: GameObject, mates: seq<Mate>, home: nat)

  /** The effect of one `go`. */
  datatype Outcome = Outcome(pose: Pose, setting: Setting, next: Option<Slot>, cmds: seq<Command>)

  /** `go` is defined for this kind: the mothership exists, and the scan ranges have a positive step. */
  predicate Feasible(k: ActionKind, t: Tick) {
    t.home < |t.w.motherships| &&
    (k == MoveDefender ==> CircleStep(60, t.mates) > 0) &&
    (k == MoveLastSector ==> CircleStep(45, t.mates) > 0) &&
    (k == MoveToSector ==> AxisStep(t.me.radius) > 0)
  }

  /** Every kind of action can run. */
  predicate AllFeasible(t: Tick) {
    t.home < |t.w.motherships| && CircleStep(60, t.mates) > 0 && CircleStep(45, t.mates) > 0 && AxisStep(t.me.radius) > 0
  }

  function HomeShip(t: Tick): Target {
    Thing(ShipRef(t.home))
  }

  /** `drone.near(target)`; a target that is not there is never near. */
  predicate Near(t: Tick, target: Target) {
    Locate(t.w, target).Some? && t.env.near(t.me.pos, Locate(t.w, target).value)
  }

  /** `safe_distance` of the defender (0.88 of the healing distance) and the last-sector action. */
  function SafeDistance(k: ActionKind, env: Env): real {
    if k == MoveDefender then 0.88 * env.healingDistance
    else if k == MoveLastSector then 0.8 * env.healingDistance + env.shotDistance
    else 0.0
  }

  /**
   * The mothership of a sector, as an index; a missing sector, or one without a
   * mothership, stands for the home mothership.
   */
  function SectorShip(w: World, home: nat, s: Option<Sector>): (k: nat)
    requires home < |w.motherships|
    ensures k < |w.motherships|
  {
    if s.Some? && s.value.mothership.Some? && s.value.mothership.value < |w.motherships| then s.value.mothership.value
    else home
  }

  /** `direction_attack` of `MoveToSector`: from the start sector's (or the home) mothership to the sector's. */
  function AttackDirection(w: World, env: Env, home: nat, s: Setting): real
    requires home < |w.motherships|
  {
    env.direction(w.motherships[SectorShip(w, home, s.startSector)].pos, w.motherships[SectorShip(w, home, s.sector)].pos)
  }

  /**
   * The attributes an action's constructor takes from the keyword arguments: every action
   * keeps `sector`; the harvester `safe_harvest`; the attack `base_attack`; the sector
   * raid `start_sector`, the sector as `current_sector`, and its direction of attack.
   */
  function Configure(k: ActionKind, p: Params, w: World, env: Env, home: nat): (s: Setting)
    requires home < |w.motherships|
    ensures s.sector == p.sector
    ensures s.safeHarvest == (if k == MoveHarvest then p.safeHarvest else None)
    ensures s.baseAttack == (if k == Attack then p.baseAttack else None)
    ensures k != MoveToSector ==> s.startSector.None? && s.currentSector.None? && s.direction.None?
    ensures k == MoveToSector ==> (s.startSector == p.startSector && s.currentSector == p.sector &&
      s.direction == Some(AttackDirection(w, env, home, s)))
  {
    var s0 := Setting(p.sector, None, None, if k == MoveHarvest then p.safeHarvest else None,
                      if k == Attack then p.baseAttack else None, None);
    if k == MoveToSector then
      var s1 := s0.(startSector := p.startSector, currentSector := p.sector);
      s1.(direction := Some(AttackDirection(w, env, home, s1)))
    else s0
  }

  /**
   * The attributes of the action in `slot` after the strategy's `update(**params)`: the
   * harvester takes `sector` and `safe_harvest`; the sector raid `sector` and
   * `start_sector`, and its attack `base_attack` and `sector`; the last battle `sector`.
   * Defending updates nothing.
   */
  function Tuned(k: StrategyKind, slot: Slot, s: Setting, p: Params): Setting {
    match (k, slot)
    case (HarvestKind, MoveSlot) => s.(sector := p.sector, safeHarvest := p.safeHarvest)
    case (SabotageKind, MoveSlot) => s.(sector := p.sector, startSector := p.startSector)
    case (SabotageKind, AttackSlot) => s.(baseAttack := p.baseAttack, sector := p.sector)
    case (LastBattleKind, MoveSlot) => s.(sector := p.sector)
    case _ => s
  }

  // ----- the steps, one per action class -----

  /** `MoveBaseAction.unload_move`: head for the home mothership and hand over to unloading. */
  function UnloadMove(t: Tick, pose: Pose, s: Setting): (o: Outcome)
    ensures o.pose == pose.(targetMove := HomeShip(t)) && o.setting == s && o.next == Some(UnloadSlot)
    ensures o.cmds == [] <==> Near(t, HomeShip(t))
  {
    Outcome(pose.(targetMove := HomeShip(t)), s, Some(UnloadSlot), if Near(t, HomeShip(t)) then [] else [MoveAt(HomeShip(t))])
  }

  /** A living enemy drone right next to `me` that stands still: what a loader robs first. */
  predicate Victim(t: Tick, d: GameObject) {
    d.alive && !d.Ours() && t.env.near(t.me.pos, d.pos) && !d.moving
  }

  /** `target_move.is_empty`; a point or nothing has nothing to load. */
  predicate TargetEmpty(w: World, target: Target) {
    match target
    case Thing(r) => Object(w, r).None? || Object(w, r).value.IsEmpty()
    case _ => true
  }

  /**
   * `LoadAction.go`: while the drone has room and its target holds loot it loads, from a
   * standing enemy drone next to it if there is one, else from its target; a full drone
   * goes home, one whose target ran dry moves on; a damaged drone always goes home.
   */
  function LoadStep(t: Tick, pose: Pose, s: Setting): (o: Outcome)
    ensures o.pose == pose && o.setting == s
    ensures o.next == Some(RecoverySlot) <==> IsNeedHeal(t.me) || t.me.IsFull()
    ensures o.next == Some(MoveSlot) <==> !IsNeedHeal(t.me) && !t.me.IsFull() && TargetEmpty(t.w, pose.targetMove)
    ensures o.next.None? <==> !IsNeedHeal(t.me) && !t.me.IsFull() && !TargetEmpty(t.w, pose.targetMove)
    ensures o.cmds != [] <==> !t.me.IsFull() && !TargetEmpty(t.w, pose.targetMove)
    ensures o.cmds != [] ==> (|o.cmds| == 1 && o.cmds[0].LoadFrom? &&
      ((o.cmds[0].t == pose.targetMove && forall i :: 0 <= i < |t.w.drones| ==> !Victim(t, t.w.drones[i])) ||
       exists i :: (0 <= i < |t.w.drones| && o.cmds[0].t == Thing(DroneRef(i)) && Victim(t, t.w.drones[i]) &&
         forall j :: 0 <= j < i ==> !Victim(t, t.w.drones[j]))))
  {
    var loading := !t.me.IsFull() && !TargetEmpty(t.w, pose.targetMove);
    var victim := FirstIndex(t.w.drones, (d: GameObject) => Victim(t, d));
    var cmds := if loading then [LoadFrom(if victim.Some? then Thing(DroneRef(victim.value)) else pose.targetMove)] else [];
    var next := if loading then None else if t.me.IsFull() then Some(RecoverySlot) else Some(MoveSlot);
    Outcome(pose, s, if IsNeedHeal(t.me) then Some(RecoverySlot) else next, cmds)
  }

  /** `UnloadAction.go`: unload into the home mothership; once empty, move on. */
  function UnloadStep(t: Tick, pose: Pose, s: Setting): (o: Outcome)
    ensures o.pose == pose && o.setting == s && o.cmds == [UnloadTo(HomeShip(t))]
    ensures o.next.Some? <==> t.me.IsEmpty()
    ensures o.next.Some? ==> o.next == Some(MoveSlot)
  {
    Outcome(pose, s, if t.me.IsEmpty() then Some(MoveSlot) else None, [UnloadTo(HomeShip(t))])
  }

  /** `MoveDefenderAction.get_target_move`: a free point 60 degrees either side of the way to the centre. */
  function GuardPoint(t: Tick, distance: real): Option<Point>
    requires t.home < |t.w.motherships| && CircleStep(60, t.mates) > 0
  {
    CirclePoint(t.w, t.env, t.mates, t.w.motherships[t.home].pos, distance, 60)
  }

  /**
   * `MoveDefenderAction.go`: a loaded drone first unloads; an empty one takes a guard
   * point no living teammate has taken as both start position and target, walks there,
   * and once there turns to attacking.
   */
  function MoveDefenderStep(t: Tick, distance: real, pose: Pose, s: Setting): (o: Outcome)
    requires t.home < |t.w.motherships| && CircleStep(60, t.mates) > 0
    ensures !t.me.IsEmpty() ==> o == UnloadMove(t, pose, s)
    ensures t.me.IsEmpty() ==> (o.setting == s && o.pose.targetAttack == pose.targetAttack &&
      o.pose.startPosition == o.pose.targetMove && (o.pose.targetMove.Spot? || o.pose.targetMove == Nowhere))
    ensures t.me.IsEmpty() ==> (o.pose.targetMove.Spot? <==> GuardPoint(t, distance).Some?)
    ensures t.me.IsEmpty() ==>
      o.pose.targetMove == (if GuardPoint(t, distance).Some? then Spot(GuardPoint(t, distance).value) else Nowhere)
    ensures t.me.IsEmpty() && o.pose.targetMove.Spot? ==> IsValidPoint(t.w, t.mates, o.pose.targetMove.p)
    ensures o.next == Some(AttackSlot) <==> t.me.IsEmpty() && o.pose.targetMove.Spot? && Near(t, o.pose.targetMove)
    ensures t.me.IsEmpty() ==> (o.cmds != [] <==> o.pose.targetMove.Spot? && !Near(t, o.pose.targetMove))
  {
    if !t.me.IsEmpty() then UnloadMove(t, pose, s)
    else
      CirclePointFirst(t.w, t.env, t.mates, t.w.motherships[t.home].pos, distance, 60);
      var g := GuardPoint(t, distance);
      var target := if g.Some? then Spot(g.value) else Nowhere;
      var p := pose.(startPosition := target, targetMove := target);
      if g.Some? && !Near(t, target) then Outcome(p, s, None, [MoveAt(target)])
      else if g.Some? then Outcome(p, s, Some(AttackSlot), [])
      else Outcome(p, s, None, [])
  }

  /** The loot `MoveHarvestAction.get_target_move` picks for this drone. */
  function HarvestPick(t: Tick, s: Setting): Option<Ref> {
    HarvestTarget(t.w, t.env, t.mates, t.me.pos, Region(s.sector), s.safeHarvest == Some(true))
  }

  /**
   * `MoveHarvestAction.go`: head for the nearest loot in the sector (all loot out of enemy
   * reach when harvesting safely) that teammates cannot already carry off; with none left
   * go home; standing next to it, start loading.
   */
  function MoveHarvestStep(t: Tick, pose: Pose, s: Setting): (o: Outcome)
    ensures o.setting == s && o.pose.startPosition == pose.startPosition && o.pose.targetAttack == pose.targetAttack
    ensures o.next == Some(RecoverySlot) <==> HarvestPick(t, s).None?
    ensures HarvestPick(t, s).None? ==> o.pose.targetMove == Nowhere && o.cmds == []
    ensures HarvestPick(t, s).Some? ==> (o.pose.targetMove == Thing(HarvestPick(t, s).value) &&
      IsLoot(t.w, HarvestPick(t, s).value) && IsObjFreeForGroup(t.w, t.mates, HarvestPick(t, s).value) &&
      o.cmds == [MoveAt(o.pose.targetMove)])
    ensures o.next == Some(LoadSlot) <==> HarvestPick(t, s).Some? && Near(t, o.pose.targetMove) && !t.me.moving
    ensures o.next.Some? ==> o.next == Some(RecoverySlot) || o.next == Some(LoadSlot)
  {
    var h := HarvestPick(t, s);
    if h.None? then Outcome(pose.(targetMove := Nowhere), s, Some(RecoverySlot), [])
    else
      var target := Thing(h.value);
      Outcome(pose.(targetMove := target), s, if Near(t, target) && !t.me.moving then Some(LoadSlot) else None,
              [MoveAt(target)])
  }

  /** `MoveHarvestStep` once the loot `h` is picked. */
  lemma MoveHarvestPicked(t: Tick, pose: Pose, s: Setting, h: Option<Ref>)
    requires h == HarvestPick(t, s)
    ensures var target := if h.Some? then Thing(h.value) else Nowhere;
      MoveHarvestStep(t, pose, s) == Outcome(pose.(targetMove := target), s,
        if h.None? then Some(RecoverySlot) else if Near(t, target) && !t.me.moving then Some(LoadSlot) else None,
        if h.None? then [] else [MoveAt(target)])
  {
  }

  /** The team a sector belongs to; a missing sector belongs to none. */
  function TeamOf(s: Option<Sector>): Option<string> {
    if s.Some? then s.value.teamName else None
  }

  /**
   * `MoveToSector.get_start_position` for this drone: on the line of attack at the start
   * sector's (or the home) mothership, spaced by the number of living drones of the team.
   */
  function StartFor(t: Tick, s: Setting): Target
    requires t.home < |t.w.motherships| && AxisStep(t.me.radius) > 0
  {
    var ship := t.w.motherships[SectorShip(t.w, t.home, s.startSector)];
    StartPosition(t.w, t.env, t.mates, ship, AliveTeammates(t.w), t.me.radius, DirectionOr0(s), t.home)
  }

  /** `MoveToSector.reload_attr`, run when the sector's team has changed. */
  function Retarget(t: Tick, s: Setting): (r: Setting)
    requires t.home < |t.w.motherships|
    ensures r == s.(direction := Some(AttackDirection(t.w, t.env, t.home, s)), currentSector := s.sector)
  {
    s.(direction := Some(AttackDirection(t.w, t.env, t.home, s)), currentSector := s.sector)
  }

  /** A start position of the home mothership is replaced by a new search. */
  function ReplaceHome(t: Tick, s: Setting, p: Pose): (r: Pose)
    requires t.home < |t.w.motherships| && AxisStep(t.me.radius) > 0
    ensures p.startPosition != HomeShip(t) ==> r == p
    ensures p.startPosition == HomeShip(t) ==> r == p.(startPosition := StartFor(t, s), targetMove := StartFor(t, s))
  {
    if p.startPosition == HomeShip(t) then p.(startPosition := StartFor(t, s), targetMove := StartFor(t, s)) else p
  }

  /** The direction of attack, or 0 before there is one. */
  function DirectionOr0(s: Setting): real {
    if s.direction.Some? then s.direction.value else 0.0
  }

  /**
   * The part of `MoveToSector.go` after re-aiming: take a start position when there is
   * none; otherwise walk to the target and, once there, advance towards the enemy base
   * and turn to attacking; a start position of the home mothership is searched again.
   */
  function ToSectorMove(t: Tick, pose: Pose, s: Setting): (o: Outcome)
    requires t.home < |t.w.motherships| && AxisStep(t.me.radius) > 0
    ensures o.setting == s && o.pose.startPosition != Nowhere && o.pose.targetAttack == pose.targetAttack
    ensures pose.startPosition == Nowhere ==> o.next.None? && o.cmds == []
    ensures o.next == Some(AttackSlot) <==> pose.startPosition != Nowhere && Near(t, pose.targetMove)
    ensures o.next.Some? ==> o.next == Some(AttackSlot)
    ensures o.next.Some? && pose.startPosition != HomeShip(t) ==> (o.pose.targetMove ==
      SectorAdvance(t.w, t.env, pose.targetMove, SoldiersOf(GameData.GameData(t.w, t.env), TeamOf(s.sector)),
                    DirectionOr0(s), t.home))
    ensures o.cmds != [] <==> pose.startPosition != Nowhere && !Near(t, pose.targetMove)
    ensures pose.startPosition == Nowhere ==>
      o.pose == pose.(startPosition := StartFor(t, s), targetMove := StartFor(t, s))
    ensures pose.startPosition != Nowhere && Near(t, pose.targetMove) ==>
      o.pose == ReplaceHome(t, s, pose.(targetMove := SectorAdvance(t.w, t.env, pose.targetMove,
        SoldiersOf(GameData.GameData(t.w, t.env), TeamOf(s.sector)), DirectionOr0(s), t.home)))
    ensures pose.startPosition != Nowhere && !Near(t, pose.targetMove) ==> o.pose == ReplaceHome(t, s, pose)
  {
    if pose.startPosition == Nowhere then
      var start := StartFor(t, s);
      Outcome(ReplaceHome(t, s, pose.(startPosition := start, targetMove := start)), s, None, [])
    else if Near(t, pose.targetMove) then
      var soldiers := SoldiersOf(GameData.GameData(t.w, t.env), TeamOf(s.sector));
      Outcome(ReplaceHome(t, s, pose.(targetMove := SectorAdvance(t.w, t.env, pose.targetMove, soldiers, DirectionOr0(s), t.home))),
              s, Some(AttackSlot), [])
    else Outcome(ReplaceHome(t, s, pose), s, None, [MoveAt(pose.targetMove)])
  }

  /**
   * `MoveToSector.go`: a loaded drone first unloads; an empty one re-aims when the
   * sector's team has changed, forgetting its start position, and goes on with
   * `ToSectorMove`.
   */
  function MoveToSectorStep(t: Tick, pose: Pose, s: Setting): (o: Outcome)
    requires t.home < |t.w.motherships| && AxisStep(t.me.radius) > 0
    ensures !t.me.IsEmpty() ==> o == UnloadMove(t, pose, s)
    ensures t.me.IsEmpty() && TeamOf(s.currentSector) != TeamOf(s.sector) ==>
      o == ToSectorMove(t, pose.(startPosition := Nowhere), Retarget(t, s))
    ensures t.me.IsEmpty() && TeamOf(s.currentSector) == TeamOf(s.sector) ==> o == ToSectorMove(t, pose, s)
    ensures t.me.IsEmpty() ==> TeamOf(o.setting.currentSector) == TeamOf(s.sector)
    ensures o.next.Some? ==> o.next == Some(UnloadSlot) || o.next == Some(AttackSlot)
  {
    if !t.me.IsEmpty() then UnloadMove(t, pose, s)
    else if TeamOf(s.currentSector) != TeamOf(s.sector) then ToSectorMove(t, pose.(startPosition := Nowhere), Retarget(t, s))
    else ToSectorMove(t, pose, s)
  }

  /** The mothership of the sector `MoveLastSectorAction` attacks. */
  function LastShip(t: Tick, s: Setting): Point
    requires t.home < |t.w.motherships|
  {
    t.w.motherships[SectorShip(t.w, t.home, s.sector)].pos
  }

  /** `MoveLastSectorAction.set_start_attr`'s point: free, 45 degrees either side of the sector's mothership's way to the centre. */
  function RingPoint(t: Tick, distance: real, s: Setting): Option<Point>
    requires t.home < |t.w.motherships| && CircleStep(45, t.mates) > 0
  {
    CirclePoint(t.w, t.env, t.mates, LastShip(t, s), distance, 45)
  }

  /**
   * `MoveLastSectorAction.go`: a loaded drone first unloads. An empty one without a start
   * position takes a free point around the sector's mothership, aiming from it at the
   * mothership; otherwise it walks to its target and, once there, advances and turns to
   * attacking.
   */
  function MoveLastSectorStep(t: Tick, distance: real, pose: Pose, s: Setting): (o: Outcome)
    requires t.home < |t.w.motherships| && CircleStep(45, t.mates) > 0
    ensures !t.me.IsEmpty() ==> o == UnloadMove(t, pose, s)
    ensures t.me.IsEmpty() ==> o.pose.targetAttack == pose.targetAttack
    ensures t.me.IsEmpty() && pose.startPosition == Nowhere ==>
      o.next.None? && o.cmds == [] && o.pose.startPosition == o.pose.targetMove &&
      (o.pose.startPosition.Spot? <==> RingPoint(t, distance, s).Some?) &&
      o.pose.startPosition == (if RingPoint(t, distance, s).Some? then Spot(RingPoint(t, distance, s).value) else Nowhere) &&
      (o.pose.startPosition.Spot? ==> (IsValidPoint(t.w, t.mates, o.pose.startPosition.p) &&
        o.setting == s.(direction := Some(t.env.direction(o.pose.startPosition.p, LastShip(t, s)))))) &&
      (o.pose.startPosition == Nowhere ==> o.setting == s.(direction := None))
    ensures t.me.IsEmpty() && pose.startPosition != Nowhere ==> o.setting == s && o.pose.startPosition == pose.startPosition
    ensures o.next == Some(AttackSlot) <==> t.me.IsEmpty() && pose.startPosition != Nowhere && Near(t, pose.targetMove)
    ensures o.next == Some(AttackSlot) ==>
      o.pose.targetMove == LastSectorAdvance(t.w, t.env, pose.targetMove, DirectionOr0(s))
    ensures o.next.Some? ==> o.next == Some(UnloadSlot) || o.next == Some(AttackSlot)
  {
    if !t.me.IsEmpty() then UnloadMove(t, pose, s)
    else if pose.startPosition == Nowhere then
      CirclePointFirst(t.w, t.env, t.mates, LastShip(t, s), distance, 45);
      var r := RingPoint(t, distance, s);
      var start := if r.Some? then Spot(r.value) else Nowhere;
      Outcome(pose.(startPosition := start, targetMove := start),
              s.(direction := if r.Some? then Some(t.env.direction(r.value, LastShip(t, s))) else None), None, [])
    else if Near(t, pose.targetMove) then
      Outcome(pose.(targetMove := LastSectorAdvance(t.w, t.env, pose.targetMove, DirectionOr0(s))), s, Some(AttackSlot), [])
    else Outcome(pose, s, None, [MoveAt(pose.targetMove)])
  }

  /** `MoveRecoveryAction.go`: fly home; once there, move on. */
  function MoveRecoveryStep(t: Tick, pose: Pose, s: Setting): (o: Outcome)
    ensures o.pose == pose && o.setting == s && o.cmds == [MoveAt(HomeShip(t))]
    ensures o.next.Some? <==> Near(t, HomeShip(t))
    ensures o.next.Some? ==> o.next == Some(MoveSlot)
  {
    Outcome(pose, s, if Near(t, HomeShip(t)) then Some(MoveSlot) else None, [MoveAt(HomeShip(t))])
  }

  /** `MoveHomeAction.go`: fly home with the home mothership as target; once there, unload. */
  function MoveHomeStep(t: Tick, pose: Pose, s: Setting): (o: Outcome)
    ensures o.pose == pose.(targetMove := HomeShip(t)) && o.setting == s && o.cmds == [MoveAt(HomeShip(t))]
    ensures o.next.Some? <==> Near(t, HomeShip(t))
    ensures o.next.Some? ==> o.next == Some(UnloadSlot)
  {
    Outcome(pose.(targetMove := HomeShip(t)), s, if Near(t, HomeShip(t)) then Some(UnloadSlot) else None,
            [MoveAt(HomeShip(t))])
  }

  /** The target `AttackBaseAction.next_target_attack` picks for this drone. */
  function AttackPick(t: Tick, s: Setting): Target {
    NextTargetAttack(t.w, t.env, t.me, t.mates, s.baseAttack, s.sector)
  }

  /**
   * `AttackBaseAction.go`: aim at the next target; with one, turn to it, shoot unless at
   * the home mothership, and go home when damaged; without one, move on.
   */
  function AttackStep(t: Tick, pose: Pose, s: Setting): (o: Outcome)
    ensures o.pose == pose.(targetAttack := AttackPick(t, s)) && o.setting == s
    ensures o.next == Some(MoveSlot) <==> AttackPick(t, s) == Nowhere
    ensures o.next.None? <==> AttackPick(t, s) != Nowhere && !IsNeedHeal(t.me)
    ensures o.next.Some? ==> o.next == Some(MoveSlot) || o.next == Some(RecoverySlot)
    ensures AttackPick(t, s) == Nowhere ==> o.cmds == []
    ensures AttackPick(t, s) != Nowhere ==> |o.cmds| >= 1 && o.cmds[0] == TurnTo(AttackPick(t, s))
    ensures forall c :: c in o.cmds && c.Shoot? ==> c.t == AttackPick(t, s) && c.t != Nowhere && !Near(t, HomeShip(t))
    ensures AttackPick(t, s) != Nowhere && !Near(t, HomeShip(t)) ==> Shoot(AttackPick(t, s)) in o.cmds
  {
    var target := AttackPick(t, s);
    if target != Nowhere then
      Outcome(pose.(targetAttack := target), s, if IsNeedHeal(t.me) then Some(RecoverySlot) else None,
              [TurnTo(target)] + (if Near(t, HomeShip(t)) then [] else [Shoot(target)]))
    else Outcome(pose.(targetAttack := target), s, Some(MoveSlot), [])
  }

  /**
   * One `go` of an action of kind `k`. Only the attack aims, only the two sector raids
   * change their own attributes, and the strategy only moves to a successor slot.
   */
  function Step(k: ActionKind, distance: real, t: Tick, pose: Pose, s: Setting): (o: Outcome)
    requires Feasible(k, t)
    ensures o.next.Some? ==> o.next.value in Successors(k)
    ensures k != Attack ==> o.pose.targetAttack == pose.targetAttack
    ensures k != MoveToSector && k != MoveLastSector ==> o.setting == s
  {
    match k
    case Load => LoadStep(t, pose, s)
    case Unload => UnloadStep(t, pose, s)
    case MoveDefender => MoveDefenderStep(t, distance, pose, s)
    case MoveHarvest => MoveHarvestStep(t, pose, s)
    case MoveToSector => MoveToSectorStep(t, pose, s)
    case MoveLastSector => MoveLastSectorStep(t, distance, pose, s)
    case MoveRecovery => MoveRecoveryStep(t, pose, s)
    case MoveHome => MoveHomeStep(t, pose, s)
    case Attack => AttackStep(t, pose, s)
  }
}
