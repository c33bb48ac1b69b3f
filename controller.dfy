/**
 * The objects of the bot: each drone holds a strategy, a strategy holds its actions and
 * the action currently running, and one command centre, shared by all drones of the team,
 * picks the strategy. The actions run the steps of the `Steps` module on their fields.
 */
module Controller {
  import opened Wrappers
  import opened Seqs
  import opened Snapshot
  import opened GameData
  import opened Sectors
  import opened Events
  import opened Placement
  import opened Targeting
  import opened Steps

  /** The class attribute `DontsovDrone.command_center`, shared by every drone of the team. */
  class Hangar {
    var commandCenter: CommandCenter?

    constructor ()
      ensures commandCenter == null
    {
      commandCenter := null;
    }
  }

  /**
   * `DontsovDrone`. `index` is the drone's position in the scene's list of drones and
   * `home` that of its mothership in the list of motherships.
   */
  class Drone {
    const index: nat
    const home: nat
    const hangar: Hangar
    var strategy: Strategy?
    var targetAttack: Target
    var startPosition: Target
    var targetMove: Target

    constructor (index: nat, home: nat, hangar: Hangar)
      ensures this.index == index && this.home == home && this.hangar == hangar
      ensures strategy == null && Pose() == Steps.Pose(Nowhere, Nowhere, Nowhere)
    {
      this.index := index;
      this.home := home;
      this.hangar := hangar;
      strategy := null;
      targetAttack := Nowhere;
      startPosition := Nowhere;
      targetMove := Nowhere;
    }

    function Pose(): Pose
      reads this
    {
      Steps.Pose(targetMove, startPosition, targetAttack)
    }

    /** What this drone sees of the scene when it acts. */
    function TickOf(w: World, env: Env, mates: seq<Mate>): Tick
      requires index < |w.drones|
    {
      Tick(w, env, w.drones[index], mates, home)
    }

    /**
     * `on_born`: the first drone born creates the command centre; every drone then has it
     * map the field and give the drone a harvesting strategy, and takes its first action.
     */
    method OnBorn(w: World, env: Env, mates: seq<Mate>) returns (cmds: seq<Command>)
      requires index < |w.drones| && AllFeasible(TickOf(w, env, mates))
      requires hangar.commandCenter != null ==> hangar.commandCenter.home < |w.motherships|
      modifies this, hangar, hangar.commandCenter
      ensures hangar.commandCenter != null
      ensures old(hangar.commandCenter) != null ==> hangar.commandCenter == old(hangar.commandCenter)
      ensures old(hangar.commandCenter) == null ==> fresh(hangar.commandCenter) && hangar.commandCenter.home == home
      ensures hangar.commandCenter.sectors == Some(SortedSectors(w, env, hangar.commandCenter.home))
      ensures hangar.commandCenter.totalElirium == SumIf(w.asteroids, Everything(), Payload)
      ensures strategy != null && strategy.Valid() && strategy.drone == this
    {
      if hangar.commandCenter == null {
        hangar.commandCenter := new CommandCenter(home);
      }
      hangar.commandCenter.Run(this, w, env);
      cmds := NextAction(w, env, mates);
    }

    /**
     * `next_action`, which every engine event but waking up calls: let the command centre
     * choose the strategy, then act.
     */
    method NextAction(w: World, env: Env, mates: seq<Mate>) returns (cmds: seq<Command>)
      requires hangar.commandCenter != null && hangar.commandCenter.sectors.Some?
      requires hangar.commandCenter.home < |w.motherships|
      requires index < |w.drones| && AllFeasible(TickOf(w, env, mates))
      requires strategy != null ==> strategy.Valid() && strategy.drone == this
      modifies this, if strategy != null then {strategy} + strategy.Actions() else {}
      ensures strategy != null && strategy.Valid() && strategy.drone == this
      ensures unchanged(hangar, hangar.commandCenter)
    {
      hangar.commandCenter.Analyzing(this, w, env);
      cmds := strategy.ActOnce(TickOf(w, env, mates));
    }

    /** `on_wake_up`: act on the current strategy without choosing again. */
    method OnWakeUp(w: World, env: Env, mates: seq<Mate>) returns (cmds: seq<Command>)
      requires strategy != null && strategy.Valid() && strategy.drone == this
      requires index < |w.drones| && AllFeasible(TickOf(w, env, mates))
      modifies this, strategy, strategy.Actions()
      ensures strategy == old(strategy) && strategy.Valid()
      ensures var a := old(strategy.currentAction);
        var o := Step(a.kind, a.safeDistance, TickOf(w, env, mates), old(Pose()), old(a.Setting()));
        Pose() == o.pose && a.Setting() == o.setting && cmds == o.cmds &&
        strategy.currentAction == (if o.next.Some? then strategy.SlotAction(o.next.value) else a)
    {
      cmds := strategy.Act(TickOf(w, env, mates));
    }
  }

  /**
   * An action object. The action classes differ only in `go` and in the attributes they
   * keep, so one class with a `kind` stands for all of them.
   */
  class Action {
    const kind: ActionKind
    const drone: Drone
    const safeDistance: real
    var sector: Option<Sector>
    var startSector: Option<Sector>
    var currentSector: Option<Sector>
    var safeHarvest: Option<bool>
    var baseAttack: Option<bool>
    var direction: Option<real>

    function Setting(): Setting
      reads this
    {
      Steps.Setting(sector, startSector, currentSector, safeHarvest, baseAttack, direction)
    }

    /**
     * The action constructors: the attributes come from the keyword arguments; the two
     * sector raids clear the drone's `target_move` and `start_position`.
     */
    constructor (kind: ActionKind, drone: Drone, p: Params, w: World, env: Env)
      requires drone.home < |w.motherships|
      modifies if kind == MoveToSector || kind == MoveLastSector then {drone} else {}
      ensures this.kind == kind && this.drone == drone && safeDistance == SafeDistance(kind, env)
      ensures Built(p, w, env)
      ensures drone.strategy == old(drone.strategy) && drone.targetAttack == old(drone.targetAttack)
      ensures kind == MoveToSector || kind == MoveLastSector ==> drone.targetMove == Nowhere && drone.startPosition == Nowhere
    {
      this.kind := kind;
      this.drone := drone;
      safeDistance := SafeDistance(kind, env);
      var s := Configure(kind, p, w, env, drone.home);
      sector := s.sector;
      startSector := s.startSector;
      currentSector := s.currentSector;
      safeHarvest := s.safeHarvest;
      baseAttack := s.baseAttack;
      direction := s.direction;
      new;
      if kind == MoveToSector || kind == MoveLastSector {
        drone.targetMove := Nowhere;
        drone.startPosition := Nowhere;
      }
    }

    /** The action is in the state its constructor leaves it in, for the keyword arguments `p`. */
    ghost predicate Built(p: Params, w: World, env: Env)
      requires drone.home < |w.motherships|
      reads this
    {
      Setting() == Configure(kind, p, w, env, drone.home) && safeDistance == SafeDistance(kind, env)
    }

    /** The action is the current one of a well-formed strategy of its drone and can run. */
    ghost predicate Running(strategy: Strategy, t: Tick)
      reads this, strategy
    {
      strategy.Valid() && strategy.currentAction == this && strategy.drone == drone &&
      t.home == drone.home && Feasible(kind, t)
    }

    /** The drone, this action and the strategy are in the state `o` describes. */
    ghost predicate Applied(strategy: Strategy, o: Outcome, cmds: seq<Command>)
      reads this, drone, strategy
    {
      drone.Pose() == o.pose && Setting() == o.setting && cmds == o.cmds && strategy.Valid() &&
      strategy.currentAction == (if o.next.Some? then strategy.SlotAction(o.next.value) else this)
    }

    /** `go`: one step of this action; the strategy moves only to a slot it fills. */
    method Go(strategy: Strategy, t: Tick) returns (cmds: seq<Command>)
      requires Running(strategy, t)
      modifies this, drone, strategy
      ensures Applied(strategy, Step(kind, safeDistance, t, old(drone.Pose()), old(Setting())), cmds)
      ensures drone.strategy == old(drone.strategy)
    {
      match kind {
        case Load => cmds := LoadGo(strategy, t);
        case Unload => cmds := UnloadGo(strategy, t);
        case MoveDefender => cmds := MoveDefenderGo(strategy, t);
        case MoveHarvest => cmds := MoveHarvestGo(strategy, t);
        case MoveToSector => cmds := MoveToSectorGo(strategy, t);
        case MoveLastSector => cmds := MoveLastSectorGo(strategy, t);
        case MoveRecovery => cmds := MoveRecoveryGo(strategy, t);
        case MoveHome => cmds := MoveHomeGo(strategy, t);
        case Attack => cmds := AttackGo(strategy, t);
      }
    }

    /** `MoveBaseAction.unload_move`. */
    method UnloadMoveGo(strategy: Strategy, t: Tick) returns (cmds: seq<Command>)
      requires strategy.Valid() && strategy.currentAction == this && t.home == drone.home
      modifies drone, strategy
      ensures Applied(strategy, UnloadMove(t, old(drone.Pose()), Setting()), cmds)
      ensures drone.strategy == old(drone.strategy)
    {
      drone.targetMove := HomeShip(t);
      cmds := [];
      if !Near(t, drone.targetMove) {
        cmds := [MoveAt(drone.targetMove)];
      }
      strategy.Switch(UnloadSlot);
    }

    /** `LoadAction.go`. */
    method LoadGo(strategy: Strategy, t: Tick) returns (cmds: seq<Command>)
      requires Running(strategy, t) && kind == Load
      modifies drone, strategy
      ensures Applied(strategy, LoadStep(t, old(drone.Pose()), Setting()), cmds)
      ensures drone.strategy == old(drone.strategy)
    {
      strategy.Closed();
      cmds := [];
      if !t.me.IsFull() && !TargetEmpty(t.w, drone.targetMove) {
        var victim := FirstIndex(t.w.drones, (d: GameObject) => Victim(t, d));
        var target := if victim.Some? then Thing(DroneRef(victim.value)) else drone.targetMove;
        cmds := [LoadFrom(target)];
      } else if t.me.IsFull() {
        strategy.Switch(RecoverySlot);
      } else {
        strategy.Switch(MoveSlot);
      }
      if IsNeedHeal(t.me) {
        strategy.Switch(RecoverySlot);
      }
    }

    /** `UnloadAction.go`. */
    method UnloadGo(strategy: Strategy, t: Tick) returns (cmds: seq<Command>)
      requires Running(strategy, t) && kind == Unload
      modifies drone, strategy
      ensures Applied(strategy, UnloadStep(t, old(drone.Pose()), Setting()), cmds)
      ensures drone.strategy == old(drone.strategy)
    {
      strategy.Closed();
      cmds := [UnloadTo(HomeShip(t))];
      if t.me.IsEmpty() {
        strategy.Switch(MoveSlot);
      }
    }

    /** `MoveDefenderAction.go`. */
    method MoveDefenderGo(strategy: Strategy, t: Tick) returns (cmds: seq<Command>)
      requires Running(strategy, t) && kind == MoveDefender
      modifies drone, strategy
      ensures Applied(strategy, MoveDefenderStep(t, safeDistance, old(drone.Pose()), Setting()), cmds)
      ensures drone.strategy == old(drone.strategy)
    {
      strategy.Closed();
      if !t.me.IsEmpty() {
        cmds := UnloadMoveGo(strategy, t);
        return;
      }
      cmds := [];
      var p := PositionOnCircle(t.w, t.env, t.mates, t.w.motherships[t.home].pos, safeDistance, 60);
      drone.startPosition := if p.Some? then Spot(p.value) else Nowhere;
      drone.targetMove := drone.startPosition;
      if drone.targetMove != Nowhere {
        if !Near(t, drone.targetMove) {
          cmds := [MoveAt(drone.targetMove)];
        } else {
          strategy.Switch(AttackSlot);
        }
      }
    }

    /** `MoveHarvestAction.go`. */
    method MoveHarvestGo(strategy: Strategy, t: Tick) returns (cmds: seq<Command>)
      requires Running(strategy, t) && kind == MoveHarvest
      modifies drone, strategy
      ensures Applied(strategy, MoveHarvestStep(t, old(drone.Pose()), old(Setting())), cmds)
      ensures drone.strategy == old(drone.strategy)
    {
      strategy.Closed();
      var h := HarvestPick(t, Setting());
      MoveHarvestPicked(t, drone.Pose(), Setting(), h);
      var target := if h.Some? then Thing(h.value) else Nowhere;
      var next := if h.None? then Some(RecoverySlot) else if Near(t, target) && !t.me.moving then Some(LoadSlot) else None;
      cmds := if h.None? then [] else [MoveAt(target)];
      Aim(strategy, target, next);
    }

    /** Sets the drone's `target_move` and, when `next` names a slot, switches the strategy to it. */
    method Aim(strategy: Strategy, target: Target, next: Option<Slot>)
      requires strategy.Valid() && strategy.currentAction == this
      requires next.Some? ==> Builds(strategy.kind, next.value).Some?
      modifies drone, strategy
      ensures drone.Pose() == old(drone.Pose()).(targetMove := target) && drone.strategy == old(drone.strategy)
      ensures strategy.Valid() && strategy.currentAction == (if next.Some? then strategy.SlotAction(next.value) else this)
    {
      drone.targetMove := target;
      if next.Some? {
        strategy.Switch(next.value);
      }
    }

    /** `MoveToSector.reload_attr`. */
    method ReloadAttr(t: Tick)
      requires t.home < |t.w.motherships|
      modifies this, drone
      ensures Setting() == Retarget(t, old(Setting()))
      ensures drone.Pose() == old(drone.Pose()).(startPosition := Nowhere) && drone.strategy == old(drone.strategy)
    {
      direction := Some(AttackDirection(t.w, t.env, t.home, Setting()));
      drone.startPosition := Nowhere;
      currentSector := sector;
    }

    /** `MoveToSector.get_start_position`, from the start sector's mothership or the home one. */
    method StartPositionGo(t: Tick) returns (start: Target)
      requires t.home < |t.w.motherships| && AxisStep(t.me.radius) > 0
      ensures start == StartFor(t, Setting())
    {
      var ship := t.w.motherships[SectorShip(t.w, t.home, startSector)];
      start := GetStartPosition(t.w, t.env, t.mates, ship, AliveTeammates(t.w), t.me.radius, DirectionOr0(Setting()), t.home);
    }

    /** The part of `MoveToSector.go` after re-aiming. */
    method ToSectorMoveGo(strategy: Strategy, t: Tick) returns (cmds: seq<Command>)
      requires Running(strategy, t) && kind == MoveToSector
      requires Builds(strategy.kind, AttackSlot).Some?
      modifies drone, strategy
      ensures Applied(strategy, ToSectorMove(t, old(drone.Pose()), Setting()), cmds)
      ensures drone.strategy == old(drone.strategy)
    {
      cmds := [];
      if drone.startPosition == Nowhere {
        var start := StartPositionGo(t);
        drone.startPosition := start;
        drone.targetMove := start;
      } else if Near(t, drone.targetMove) {
        var soldiers := SoldiersOf(GameData.GameData(t.w, t.env), TeamOf(sector));
        drone.targetMove := SectorAdvance(t.w, t.env, drone.targetMove, soldiers, DirectionOr0(Setting()), t.home);
        strategy.Switch(AttackSlot);
      } else {
        cmds := [MoveAt(drone.targetMove)];
      }
      if drone.startPosition == HomeShip(t) {
        var start := StartPositionGo(t);
        drone.startPosition := start;
        drone.targetMove := start;
      }
    }

    /** `MoveToSector.go`. */
    method MoveToSectorGo(strategy: Strategy, t: Tick) returns (cmds: seq<Command>)
      requires Running(strategy, t) && kind == MoveToSector
      modifies this, drone, strategy
      ensures Applied(strategy, MoveToSectorStep(t, old(drone.Pose()), old(Setting())), cmds)
      ensures drone.strategy == old(drone.strategy)
    {
      strategy.Closed();
      if !t.me.IsEmpty() {
        cmds := UnloadMoveGo(strategy, t);
        return;
      }
      if TeamOf(currentSector) != TeamOf(sector) {
        ReloadAttr(t);
      }
      cmds := ToSectorMoveGo(strategy, t);
    }

    /** `MoveLastSectorAction.set_start_attr`. */
    method SetStartAttr(t: Tick)
      requires t.home < |t.w.motherships| && CircleStep(45, t.mates) > 0
      modifies this, drone
      ensures var r := RingPoint(t, safeDistance, old(Setting()));
        var start := if r.Some? then Spot(r.value) else Nowhere;
        drone.Pose() == old(drone.Pose()).(startPosition := start, targetMove := start) &&
        Setting() == old(Setting()).(direction := if r.Some? then Some(t.env.direction(r.value, LastShip(t, old(Setting())))) else None)
      ensures drone.strategy == old(drone.strategy)
    {
      var ship := LastShip(t, Setting());
      var p := PositionOnCircle(t.w, t.env, t.mates, ship, safeDistance, 45);
      drone.startPosition := if p.Some? then Spot(p.value) else Nowhere;
      direction := if p.Some? then Some(t.env.direction(p.value, ship)) else None;
      drone.targetMove := drone.startPosition;
    }

    /** `MoveLastSectorAction.go`. */
    method MoveLastSectorGo(strategy: Strategy, t: Tick) returns (cmds: seq<Command>)
      requires Running(strategy, t) && kind == MoveLastSector
      modifies this, drone, strategy
      ensures Applied(strategy, MoveLastSectorStep(t, safeDistance, old(drone.Pose()), old(Setting())), cmds)
      ensures drone.strategy == old(drone.strategy)
    {
      strategy.Closed();
      if !t.me.IsEmpty() {
        cmds := UnloadMoveGo(strategy, t);
        return;
      }
      cmds := [];
      if drone.startPosition == Nowhere {
        SetStartAttr(t);
      } else if Near(t, drone.targetMove) {
        drone.targetMove := LastSectorAdvance(t.w, t.env, drone.targetMove, DirectionOr0(Setting()));
        strategy.Switch(AttackSlot);
      } else {
        cmds := [MoveAt(drone.targetMove)];
      }
    }

    /** `MoveRecoveryAction.go`. */
    method MoveRecoveryGo(strategy: Strategy, t: Tick) returns (cmds: seq<Command>)
      requires Running(strategy, t) && kind == MoveRecovery
      modifies drone, strategy
      ensures Applied(strategy, MoveRecoveryStep(t, old(drone.Pose()), Setting()), cmds)
      ensures drone.strategy == old(drone.strategy)
    {
      strategy.Closed();
      cmds := [MoveAt(HomeShip(t))];
      if Near(t, HomeShip(t)) {
        strategy.Switch(MoveSlot);
      }
    }

    /** `MoveHomeAction.go`. */
    method MoveHomeGo(strategy: Strategy, t: Tick) returns (cmds: seq<Command>)
      requires Running(strategy, t) && kind == MoveHome
      modifies drone, strategy
      ensures Applied(strategy, MoveHomeStep(t, old(drone.Pose()), Setting()), cmds)
      ensures drone.strategy == old(drone.strategy)
    {
      strategy.Closed();
      drone.targetMove := HomeShip(t);
      cmds := [MoveAt(drone.targetMove)];
      if Near(t, drone.targetMove) {
        strategy.Switch(UnloadSlot);
      }
    }

    /** `AttackBaseAction.go`. */
    method AttackGo(strategy: Strategy, t: Tick) returns (cmds: seq<Command>)
      requires Running(strategy, t) && kind == Attack
      modifies drone, strategy
      ensures Applied(strategy, AttackStep(t, old(drone.Pose()), Setting()), cmds)
      ensures drone.strategy == old(drone.strategy)
    {
      strategy.Closed();
      var target := ChooseTarget(t.w, t.env, t.me, t.mates, baseAttack, sector);
      drone.targetAttack := target;
      cmds := [];
      if target != Nowhere {
        cmds := [TurnTo(target)];
        if !Near(t, HomeShip(t)) {
          cmds := cmds + [Shoot(target)];
        }
        if IsNeedHeal(t.me) {
          strategy.Switch(RecoverySlot);
        }
      } else {
        strategy.Switch(MoveSlot);
      }
    }
  }

  /**
   * A strategy object: its actions, one per slot the strategy class fills, and the one
   * currently running.
   */
  class Strategy {
    const kind: StrategyKind
    const drone: Drone
    const recovery: Action
    const unload: Action
    const move: Action
    const attack: Action?
    const load: Action?
    var currentAction: Action

    /** The action in a slot; `null` for an attribute the strategy class does not have. */
    function SlotAction(s: Slot): Action? {
      match s
      case RecoverySlot => recovery
      case UnloadSlot => unload
      case MoveSlot => move
      case AttackSlot => attack
      case LoadSlot => load
    }

    /** The strategy's actions. */
    function Actions(): set<object> {
      {recovery, unload, move} + (if attack != null then {attack} else {}) + (if load != null then {load} else {})
    }

    /** The actions `update` changes. */
    function Tunable(): set<object> {
      {move} + (if attack != null then {attack} else {})
    }

    /** The slot holds the action the strategy class builds for it, for this drone, or nothing when it builds none. */
    ghost predicate Holds(s: Slot) {
      (SlotAction(s) == null <==> Builds(kind, s).None?) &&
      (SlotAction(s) != null ==> Builds(kind, s) == Some(SlotAction(s).kind) && SlotAction(s).drone == drone)
    }

    /**
     * The slots hold actions of the kinds the strategy class builds, all for this drone,
     * and the current action is one of them.
     */
    ghost predicate Valid()
      reads this
    {
      Shaped() && currentAction == SlotAction(SlotOf(currentAction.kind))
    }

    /** Every slot holds what the strategy class builds for it. The slots never change. */
    ghost predicate Shaped() {
      Holds(RecoverySlot) && Holds(UnloadSlot) && Holds(MoveSlot) && Holds(AttackSlot) && Holds(LoadSlot)
    }

    /** Every slot the current action can hand over to is filled. */
    lemma Closed()
      requires Valid()
      ensures Builds(kind, SlotOf(currentAction.kind)) == Some(currentAction.kind)
      ensures forall n :: n in Successors(currentAction.kind) ==> Builds(kind, n).Some?
    {
      forall n | n in Successors(currentAction.kind)
        ensures Builds(kind, n).Some?
      {
        ShapeClosed(kind, SlotOf(currentAction.kind), n);
      }
    }

    /** `strategy.current_action = strategy.<slot>_action`. */
    method Switch(s: Slot)
      requires Valid() && Builds(kind, s).Some?
      modifies this
      ensures currentAction == SlotAction(s) && Valid()
    {
      currentAction := SlotAction(s);
    }

    /**
     * The actions of `StrategyHarvestDontsov.__init__`: it recovers by flying home, then
     * unloads, harvests and loads.
     */
    static method HarvestActions(drone: Drone, p: Params, w: World, env: Env)
        returns (r: Action, u: Action, m: Action, l: Action)
      requires drone.home < |w.motherships|
      ensures fresh(r) && fresh(u) && fresh(m) && fresh(l)
      ensures r.kind == MoveHome && u.kind == Unload && m.kind == MoveHarvest && l.kind == Load
      ensures r.drone == drone && u.drone == drone && m.drone == drone && l.drone == drone
      ensures m.Built(p, w, env) && l.Built(p, w, env)
    {
      r := new Action(MoveHome, drone, p, w, env);
      u := new Action(Unload, drone, p, w, env);
      l := new Action(Load, drone, p, w, env);
      m := new Action(MoveHarvest, drone, p, w, env);
    }

    /**
     * The actions of the defending, sabotage and last-battle strategies: recovery, unload,
     * the strategy's own movement, and the attack. The sector raids clear the drone's
     * `target_move` and `start_position`.
     */
    static method FightActions(kind: StrategyKind, drone: Drone, p: Params, w: World, env: Env)
        returns (r: Action, u: Action, m: Action, a: Action)
      requires kind != HarvestKind && drone.home < |w.motherships|
      modifies drone
      ensures fresh(r) && fresh(u) && fresh(m) && fresh(a)
      ensures r.kind == MoveRecovery && u.kind == Unload && Some(m.kind) == Builds(kind, MoveSlot) && a.kind == Attack
      ensures r.drone == drone && u.drone == drone && m.drone == drone && a.drone == drone
      ensures m.Built(p, w, env) && a.Built(p, w, env)
      ensures drone.strategy == old(drone.strategy) && drone.targetAttack == old(drone.targetAttack)
      ensures kind != DefenderKind ==> drone.targetMove == Nowhere && drone.startPosition == Nowhere
      ensures kind == DefenderKind ==> drone.Pose() == old(drone.Pose())
    {
      r := new Action(MoveRecovery, drone, p, w, env);
      u := new Action(Unload, drone, p, w, env);
      a := new Action(Attack, drone, p, w, env);
      m := new Action(Builds(kind, MoveSlot).value, drone, p, w, env);
    }

    /**
     * The strategy constructors, with the actions above. Every strategy starts with its
     * movement action.
     */
    constructor (kind: StrategyKind, drone: Drone, p: Params, w: World, env: Env)
      requires drone.home < |w.motherships|
      modifies drone
      ensures Valid() && this.kind == kind && this.drone == drone && currentAction == move
      ensures fresh(recovery) && fresh(unload) && fresh(move) && (attack != null ==> fresh(attack)) && (load != null ==> fresh(load))
      ensures move.Built(p, w, env) && (attack != null ==> attack.Built(p, w, env)) && (load != null ==> load.Built(p, w, env))
      ensures drone.strategy == old(drone.strategy) && drone.targetAttack == old(drone.targetAttack)
      ensures kind == SabotageKind || kind == LastBattleKind ==> drone.targetMove == Nowhere && drone.startPosition == Nowhere
      ensures kind == DefenderKind || kind == HarvestKind ==> drone.Pose() == old(drone.Pose())
    {
      this.kind := kind;
      this.drone := drone;
      if kind == HarvestKind {
        var r, u, m, l := HarvestActions(drone, p, w, env);
        recovery, unload, move, attack, load := r, u, m, null, l;
      } else {
        var r, u, m, a := FightActions(kind, drone, p, w, env);
        recovery, unload, move, attack, load := r, u, m, a, null;
      }
      currentAction := move;
    }

    /** `action`: run the current action. */
    method Act(t: Tick) returns (cmds: seq<Command>)
      requires Valid() && t.home == drone.home && Feasible(currentAction.kind, t)
      modifies this, drone, currentAction
      ensures Valid()
      ensures var o := Step(old(currentAction).kind, old(currentAction).safeDistance, t, old(drone.Pose()),
                            old(currentAction.Setting()));
        drone.Pose() == o.pose && old(currentAction).Setting() == o.setting && cmds == o.cmds &&
        currentAction == (if o.next.Some? then SlotAction(o.next.value) else old(currentAction))
      ensures currentAction == old(currentAction) ||
        exists s :: s in Successors(old(currentAction).kind) && currentAction == SlotAction(s)
      ensures drone.strategy == old(drone.strategy)
    {
      cmds := currentAction.Go(this, t);
    }

    /** `action` where only the strategy's well-formedness matters afterwards. */
    method ActOnce(t: Tick) returns (cmds: seq<Command>)
      requires Valid() && t.home == drone.home && Feasible(currentAction.kind, t)
      modifies this, drone, currentAction
      ensures Valid() && drone.strategy == old(drone.strategy)
    {
      cmds := Act(t);
    }

    /** `update(**params)`: hand the new keyword arguments to the actions that keep them. */
    method Update(p: Params)
      requires Valid()
      modifies Tunable()
      ensures move.Setting() == Tuned(kind, MoveSlot, old(move.Setting()), p)
      ensures attack != null ==> attack.Setting() == Tuned(kind, AttackSlot, old(attack.Setting()), p)
      ensures currentAction == old(currentAction)
    {
      match kind {
        case DefenderKind =>
        case HarvestKind =>
          move.sector := p.sector;
          move.safeHarvest := p.safeHarvest;
        case SabotageKind =>
          move.sector := p.sector;
          move.startSector := p.startSector;
          attack.baseAttack := p.baseAttack;
          attack.sector := p.sector;
        case LastBattleKind =>
          move.sector := p.sector;
      }
    }
  }

  /** `CommandCenter`, for the mothership `home`. */
  class CommandCenter {
    const home: nat
    var sectors: Option<seq<Sector>>
    var totalElirium: nat

    constructor (home: nat)
      ensures this.home == home && sectors == None && totalElirium == 0
    {
      this.home := home;
      sectors := None;
      totalElirium := 0;
    }

    /** What the events look at in this scene. */
    function View(w: World, env: Env): Situation
      requires sectors.Some?
      reads this
    {
      Situation(w, env, sectors.value, totalElirium, home)
    }

    /** `start_navigation`. */
    method StartNavigation(w: World, env: Env)
      requires home < |w.motherships|
      modifies this
      ensures sectors == Some(SortedSectors(w, env, home)) && totalElirium == old(totalElirium)
    {
      var ss := GetSortedSectors(w, env, home);
      sectors := Some(ss);
    }

    /**
     * `run`: map the field, give the drone a harvesting strategy without arguments, and
     * note the elirium the asteroids hold.
     */
    method Run(drone: Drone, w: World, env: Env)
      requires home < |w.motherships| && drone.home < |w.motherships|
      modifies this, drone
      ensures sectors == Some(SortedSectors(w, env, home))
      ensures totalElirium == SumIf(w.asteroids, Everything(), Payload)
      ensures drone.strategy != null && fresh(drone.strategy) && fresh(drone.strategy.Actions())
      ensures drone.strategy.kind == HarvestKind && drone.strategy.Valid() && drone.strategy.drone == drone
      ensures drone.strategy.currentAction == drone.strategy.move && drone.strategy.move.Built(NoParams, w, env)
      ensures drone.strategy.load != null ==> drone.strategy.load.Built(NoParams, w, env)
      ensures drone.Pose() == old(drone.Pose())
    {
      StartNavigation(w, env);
      drone.strategy := new Strategy(HarvestKind, drone, NoParams, w, env);
      totalElirium := SumIf(w.asteroids, Everything(), Payload);
    }

    /** `analyzing`: pick the strategy the events call for and switch the drone to it. */
    method Analyzing(drone: Drone, w: World, env: Env)
      requires sectors.Some? && home < |w.motherships| && drone.home < |w.motherships|
      requires drone.strategy != null ==> drone.strategy.Valid() && drone.strategy.drone == drone
      modifies drone, if drone.strategy != null then drone.strategy.Tunable() else {}
      ensures drone.strategy != null && drone.strategy.Valid() && drone.strategy.drone == drone
      ensures old(drone.strategy) == null || old(drone.strategy.kind) != drone.strategy.kind ==>
        fresh(drone.strategy) && fresh(drone.strategy.Actions())
      ensures old(drone.strategy) != null && old(drone.strategy.kind) == drone.strategy.kind ==>
        drone.strategy == old(drone.strategy) && drone.Pose() == old(drone.Pose())
      ensures drone.targetAttack == old(drone.targetAttack)
    {
      var c := GetNextStrategy(View(w, env));
      TransitionStrategy(drone, c, w, env);
    }

    /**
     * `transition_strategy`: a drone without a strategy of the chosen class gets a new
     * one built from the arguments; one that has it keeps it and updates it.
     */
    method TransitionStrategy(drone: Drone, c: Choice, w: World, env: Env)
      requires drone.home < |w.motherships|
      requires drone.strategy != null ==> drone.strategy.Valid() && drone.strategy.drone == drone
      modifies drone, if drone.strategy != null then drone.strategy.Tunable() else {}
      ensures drone.strategy != null && drone.strategy.Valid() && drone.strategy.drone == drone
      ensures drone.strategy.kind == c.kind
      ensures old(drone.strategy) == null || old(drone.strategy.kind) != c.kind ==>
        fresh(drone.strategy) && fresh(drone.strategy.Actions()) &&
        drone.strategy.currentAction == drone.strategy.move && drone.strategy.move.Built(c.params, w, env) &&
        (drone.strategy.attack != null ==> drone.strategy.attack.Built(c.params, w, env)) &&
        (drone.strategy.load != null ==> drone.strategy.load.Built(c.params, w, env))
      ensures ((old(drone.strategy) == null || old(drone.strategy.kind) != c.kind) &&
         (c.kind == SabotageKind || c.kind == LastBattleKind)) ==>
        drone.targetMove == Nowhere && drone.startPosition == Nowhere
      ensures ((old(drone.strategy) == null || old(drone.strategy.kind) != c.kind) &&
         (c.kind == DefenderKind || c.kind == HarvestKind)) ==> drone.Pose() == old(drone.Pose())
      ensures drone.targetAttack == old(drone.targetAttack)
      ensures old(drone.strategy) != null && old(drone.strategy.kind) == c.kind ==>
        drone.strategy == old(drone.strategy) && drone.Pose() == old(drone.Pose()) &&
        drone.strategy.currentAction == old(drone.strategy.currentAction) &&
        drone.strategy.move.Setting() == Tuned(c.kind, MoveSlot, old(drone.strategy.move.Setting()), c.params) &&
        (drone.strategy.attack != null ==>
          drone.strategy.attack.Setting() == Tuned(c.kind, AttackSlot, old(drone.strategy.attack.Setting()), c.params))
    {
      if drone.strategy == null || drone.strategy.kind != c.kind {
        var s := new Strategy(c.kind, drone, c.params, w, env);
        drone.strategy := s;
      } else {
        drone.strategy.Update(c.params);
      }
    }
  }
}
