# Dontsov drone bot: the decision layer

This project models the decision layer of the `DontsovDrone` bot for the Astrobox
drone game, and proves properties of that model. Teams of drones harvest elirium from
asteroids and carry it to their motherships. They fight the drones and raid the
motherships of the other teams.

**The command centre.** All drones of the team share one command centre. Each time a
drone is asked to act, the command centre runs a fixed list of nine events over the
current scene. The first event that fires chooses a strategy class and its keyword
arguments. When no event fires, the drone defends its base. The drone then keeps its
strategy and updates it, or gets a fresh strategy.

**Strategies and actions.** A strategy is a fixed set of action slots: recovery, unload,
move, and attack or load. It also records which of those actions is currently running. Each
call of an action's `go` does three things:
- it moves the drone's `target_move`, `start_position` and `target_attack`;
- it orders the engine to move, turn, shoot, load or unload;
- it may point the strategy at another slot.

**Modules:**
- `Geometry`: points, Python's `int()` and `range`, and the four quadrants of the field.
- `Seqs`: first match, comprehensions, counts, sums, `min` and the stable `sorted`.
- `Snapshot`: the scene, the engine's geometry as parameters, targets, object filters,
  loot search and the safety test.
- `GameData`: the per-team report of `get_game_data`, `get_base_defender`, and the
  ranking of `is_risk_game`.
- `Sectors`: the command centre's sectors and the front sector.
- `Events`: the nine events, `is_start_game`, and the first-match rule resolver.
- `Placement`: the point and loot searches of the movement actions.
- `Targeting`: the attack target choice.
- `Steps`: one `go` of each action kind as a value, and the slot closure of the
  strategy classes.
- `Controller`: the classes `Drone`, `Action`, `Strategy` and `CommandCenter`, whose
  methods update their fields as the Python objects do. Each `go` is proved to leave
  exactly the state its `Steps` function describes.

Engine queries come in an `Env` value of function-typed fields:
- distance and `near`;
- the direction between two points, and the point a given length along a direction;
- `get_start_points`;
- the lead point for a moving enemy.

The theme constants also come in `Env`: field size, healing distance, attack radius,
shot distance and the field diagonal. Engine commands are returned as a sequence of
`Command` values.

## Model

| member | source | states |
|---|---|---|
| Geometry.Trunc | dontsov_a_v.py:442-451 | Python's `int()` on a float: truncation toward zero, below the value for a positive argument and above it for a negative one |
| Geometry.IsSamePoints | dontsov_a_v_package/move_actions.py:16-28 | two points compare the same exactly when they are equal |
| Geometry.InSector | dontsov_a_v.py:487-505 | a point is in a sector iff each coordinate lies between the least and the greatest corner coordinate, bounds included |
| Geometry.Quadrants | dontsov_a_v.py:453-485 | four sectors of four corners each |
| Geometry.QuadrantCornersInField | dontsov_a_v.py:442-485 | every corner of every quadrant lies in the field |
| Geometry.FieldPointInQuadrant | dontsov_a_v.py:453-505 | every point of the field lies in the quadrant picked by comparing it with the half lines |
| Geometry.QuadrantsCoverField | dontsov_a_v.py:453-505 | a point is in the field iff it lies in at least one of the four sectors |
| Geometry.PyRange | dontsov_a_v_package/move_actions.py:366 | `range(start, stop, step)` is empty iff `stop <= start`, and every value lies in `[start, stop)` |
| Geometry.PyRangeSteps | dontsov_a_v_package/move_actions.py:366 | `range` visits exactly `start + i*step` and stops at the last such value below `stop` |
| Seqs.FirstIndex | dontsov_a_v.py:361 | `next(...)` over a generator: none iff nothing matches; otherwise a match with no match before it |
| Seqs.FindFirst | dontsov_a_v_package/attack_action.py:55-58 | the loop that stops at the first match returns what `FirstIndex` describes |
| Seqs.Keep | dontsov_a_v.py:507-555 | a list comprehension keeps exactly the elements that satisfy the condition |
| Seqs.KeepAppend | dontsov_a_v.py:507-555 | a comprehension over `a + b` is the comprehension over `a` followed by the one over `b`, so the kept elements keep their order |
| Seqs.KeepMultiplicity | dontsov_a_v.py:507-555 | each element occurs in the comprehension as often as in the input when it satisfies the condition, and not at all otherwise |
| Seqs.Count | dontsov_a_v_package/attack_action.py:57 | `len` of a comprehension: at most the length; zero iff nothing matches; the length iff everything matches |
| Seqs.ArgMin | dontsov_a_v_package/move_actions.py:158-168 | `min(key=...)`: an element with the least key, and the first such element |
| Seqs.SortBy | dontsov_a_v_package/attack_action.py:55 | `sorted(key=...)` ascends by key, is a permutation of its input, and is stable: for every key, the elements with that key appear in their input order |
| Seqs.InsertKeep | dontsov_a_v_package/attack_action.py:55 | one insertion step puts each element after the earlier elements with the same key |
| Seqs.ArgMinFirst | dontsov_a_v_package/move_actions.py:158-168 | `min` returns an element keyed strictly below every element listed before it |
| Seqs.InsertSorted | dontsov_a_v_package/attack_action.py:55 | inserting into a sorted list keeps it sorted |
| Seqs.InsertPermutes | dontsov_a_v_package/attack_action.py:55 | inserting adds exactly the new element to the multiset |
| Seqs.SortedFirstIsLeast | dontsov_a_v_package/attack_action.py:55-58 | in a sorted list, no element keyed strictly below the first match matches |
| Snapshot.Select | dontsov_a_v.py:410-424 | the chain of filters keeps exactly the objects that pass every filter |
| Snapshot.SelectThen | dontsov_a_v.py:410-424 | filtering a selection once more selects with one more filter, in order |
| Snapshot.GetDrones | dontsov_a_v.py:410-424 | the filter loop returns exactly the drones that pass every filter |
| Snapshot.PassesPair | dontsov_a_v.py:507-555 | two chained filters keep what passes both |
| Snapshot.IsObjSafe | dontsov_a_v.py:632-645 | a point is unsafe iff some living enemy drone stands still strictly closer than the attack radius |
| Snapshot.LootCandidates | dontsov_a_v.py:567-588 | the candidates are exactly the non-empty asteroids, dead non-empty drones and dead non-empty enemy motherships |
| Snapshot.ObjectsWithLoot | dontsov_a_v.py:567-588 | an object is listed iff it is loot, is safe when safety is asked for, and lies in the region when one is given |
| GameData.Teams | dontsov_a_v.py:353-381 | the report lists one record per name in the order the names were first met |
| GameData.TeamsOfValid | dontsov_a_v.py:353-381 | in a well-formed report each name occurs once, and every record found by name is in the list |
| GameData.TallyLookup | dontsov_a_v.py:359-368 | after the drone loop a team has a record iff one of its drones was seen; it counts the living drones and sums their loads |
| GameData.FinishLookup | dontsov_a_v.py:370-380 | after the mothership loop a record exists iff it existed before or a living mothership of the team was seen; living motherships add their loads and the team's mothership sets `defenders` |
| GameData.GameDataValid | dontsov_a_v.py:353-381 | the report names each team once |
| GameData.GameDataEntry | dontsov_a_v.py:353-381 | each team's record: listed iff it has a drone or a living mothership, with its living drones, their loads plus a living mothership's load, and its defenders |
| GameData.GetGameData | dontsov_a_v.py:353-381 | the two loops over the scene build exactly the report `GameData` describes |
| GameData.BaseDefenders | dontsov_a_v.py:314-325 | a drone defends a base iff it is alive, not this bot's, of that team, and at most the healing distance from the mothership |
| GameData.OwnTeamHasNoDefenders | dontsov_a_v.py:314-325 | this bot's own base never has defenders |
| GameData.ByElirium | dontsov_a_v.py:655 | the ranking is a permutation of the report, richest first, with teams of equal elirium in report order |
| GameData.Place | dontsov_a_v.py:653-658 | the place is the own team's position in the ranking, or the last position when it is absent |
| GameData.OwnPlace | dontsov_a_v.py:653-658 | a listed own team sits at exactly the place the loop reports |
| GameData.BehindTwoTeams | dontsov_a_v.py:647-662 | below second place, two other teams hold at least as much elirium as the own team |
| GameData.OutpacedByTwoTeams | dontsov_a_v.py:647-662 | two other teams with strictly more elirium push the own team below second place |
| Sectors.MshipInSector | dontsov_a_v.py:383-394 | the first mothership, in scene order, inside the sector; none iff no mothership is inside |
| Sectors.SectorOf | dontsov_a_v.py:327-351 | a sector record: its corners and mothership, `front` iff the front point is inside, `home_sector` iff its mothership is the own one, with the team of its mothership |
| Sectors.SortedSectors | dontsov_a_v.py:327-351 | one record per quadrant, in quadrant order |
| Sectors.GetSortedSectors | dontsov_a_v.py:327-351 | the loop over the quadrants builds exactly those records |
| Sectors.FrontSectorExists | dontsov_a_v.py:327-351 | a front point inside the field makes some sector the front |
| Sectors.ShipClaimsSector | dontsov_a_v.py:327-394 | a mothership in the field puts some sector under a mothership |
| Sectors.FrontSector | dontsov_a_v.py:184 | the first front sector; none iff no sector is the front |
| Events.IsStartGame | dontsov_a_v.py:664-678 | the game is starting iff all payload held (motherships and every drone) is below 90% of the initial asteroid total |
| Events.HarvestInBegin | dontsov_a_v.py:287-294 | fires, proposing a harvest, exactly at the start of the game |
| Events.HarvestInAlienSector | dontsov_a_v.py:268-285 | none iff no other sector holds loot and lacks a mothership or living drones of its team; otherwise a harvest of the first such sector |
| Events.HomeUnderThreat | dontsov_a_v.py:113-122 | fires, proposing defence, iff a living enemy drone is within attack range of the home mothership's rim |
| Events.AttackableSector | dontsov_a_v.py:187-193 | the first sector of the team whose mothership lives; none iff there is none |
| Events.RaidFirst | dontsov_a_v.py:174-266 | the team loop picks the first team that fits and has a sector to raid, and proposes that raid; none iff no team qualifies |
| Events.AttackSectorWithoutSoldiers | dontsov_a_v.py:174-195 | none iff no rival team without living drones has a living sector mothership; otherwise a raid on the sector of the first such team in report order |
| Events.AttackSectorWithoutBase | dontsov_a_v.py:221-240 | none iff no side sector has a destroyed mothership still guarded by its team; otherwise a raid on the first one |
| Events.AttackSectorWithoutDefenders | dontsov_a_v.py:197-219 | none iff no rival team without defenders has a living sector mothership; otherwise a raid on the sector of the first such team in report order |
| Events.KnightMove | dontsov_a_v.py:124-148 | none iff no side sector's team is wiped out while the game calls for risk or the front base has at most one defender; otherwise a sabotage of the front sector from the first such sector |
| Events.SafeHarvest | dontsov_a_v.py:296-303 | fires, proposing a safe harvest, iff some loot is out of reach of every standing enemy |
| Events.ByDefenders | dontsov_a_v.py:248-252 | the other teams, fewest defenders first, as a permutation, with teams of equal defender counts in report order |
| Events.AttackNearSectorWithRisk | dontsov_a_v.py:242-266 | none iff no other team off the front is outnumbered (or the game calls for risk) with a living sector mothership; otherwise a raid on the first such team in defender order |
| Events.DecideFirst | dontsov_a_v.py:100-111 | the choice is the result of the first event that fires, or the defender fallback when none fires |
| Events.GetNextStrategy | dontsov_a_v.py:67-111 | the loop over the nine events, in list order, returns exactly the choice `Decide` describes |
| Placement.IsValidPoint | dontsov_a_v_package/move_actions.py:30-43 | a point is invalid iff some living teammate has it as its start position |
| Placement.Guards | dontsov_a_v_package/move_actions.py:58-59 | the number of living teammates, or 1 when none lives |
| Placement.CircleAngles | dontsov_a_v_package/move_actions.py:45-69 | the candidate angles lie within `angle` degrees of the centre direction, starting at the lower end |
| Placement.CirclePointFirst | dontsov_a_v_package/move_actions.py:45-69 | the circle search finds the point of the first unclaimed angle; none iff every candidate is claimed |
| Placement.PositionOnCircle | dontsov_a_v_package/move_actions.py:45-69 | the angle loop returns exactly that point |
| Placement.AxisRange | dontsov_a_v_package/move_actions.py:348-372 | the scanned main coordinates lie from `int(min + radius)` up to strictly below `int(max)` |
| Placement.OnAxis | dontsov_a_v_package/move_actions.py:358-368 | a candidate keeps the bottom point's other coordinate |
| Placement.AxisPointFirst | dontsov_a_v_package/move_actions.py:348-372 | the axis search finds the first candidate that is unclaimed and safe; none iff there is none |
| Placement.PointOnAxis | dontsov_a_v_package/move_actions.py:348-372 | the range loop returns exactly that point |
| Placement.StartPosition | dontsov_a_v_package/move_actions.py:323-346 | the x scan's free point when the bottom point is level with the start in x and that scan finds one; otherwise the y scan's point under the same test in y; otherwise the home mothership, which comes back iff neither aligned scan yields a point |
| Placement.GetStartPosition | dontsov_a_v_package/move_actions.py:323-346 | the method returns exactly that start position |
| Placement.IsObjFreeForGroup | dontsov_a_v_package/move_actions.py:183-197 | an object is free iff no living teammate heads for it, or those who do have less free space in total than its payload |
| Placement.FreeLoot | dontsov_a_v_package/move_actions.py:158-168 | the loot that is listed and free for the group |
| Placement.HarvestTarget | dontsov_a_v_package/move_actions.py:158-168 | none iff no listed loot is free; otherwise free listed loot no farther than any other free loot, and the element `min` returns from the free list |
| Placement.HarvestTargetFirst | dontsov_a_v_package/move_actions.py:158-168 | of several equally near pieces of free loot, the first in list order is picked, as `min` does |
| Placement.SectorAdvance | dontsov_a_v_package/move_actions.py:286-299 | a mothership target stays; otherwise a step of 10 along the attack direction when the team has drones, 60 when it has none |
| Placement.LastSectorAdvance | dontsov_a_v_package/move_actions.py:403-411 | a step of 10 along the attack direction while enemy drones live, else 70 |
| Targeting.EnemiesInReach | dontsov_a_v_package/attack_action.py:50-53 | exactly the living enemy drones within attack range |
| Targeting.NumberAttack | dontsov_a_v_package/attack_action.py:80-90 | the cap is 2 iff the enemies in range outnumber the living teammates, else 4 |
| Targeting.ByDistance | dontsov_a_v_package/attack_action.py:55 | the enemies in range, nearest first, as a permutation, with equally near enemies in scene order |
| Targeting.ByDistanceMembers | dontsov_a_v_package/attack_action.py:50-55 | the sorted list holds exactly the living enemy drones in range |
| Targeting.PickedIsOpen | dontsov_a_v_package/attack_action.py:55-58 | the enemy picked is in range and fewer teammates than the cap aim at it |
| Targeting.NoNearerOpen | dontsov_a_v_package/attack_action.py:55-58 | no enemy in range strictly nearer than the one picked is open to another attacker |
| Targeting.NonePickedNoneOpen | dontsov_a_v_package/attack_action.py:54-58 | no enemy is picked iff no enemy in range is open |
| Targeting.PointAttack | dontsov_a_v_package/attack_action.py:64-78 | a standing enemy is aimed at exactly where it is; a moving one at the engine's lead point |
| Targeting.NextTargetAttack | dontsov_a_v_package/attack_action.py:44-62 | the picked enemy's aiming point; else the sector's mothership iff `base_attack` is set and it is alive and in range; else nothing |
| Targeting.ChooseTarget | dontsov_a_v_package/attack_action.py:44-62 | the loop over the sorted enemies returns exactly that target |
| Steps.Builds | dontsov_a_v_package/strategies_dontsov.py:13-104 | every class builds recovery, unload and move; only harvesting builds load, and only the others build attack |
| Steps.ShapeClosed | dontsov_a_v_package/strategies_dontsov.py:43-98 | every slot an action of a class can hand over to is filled by that class |
| Steps.Configure | dontsov_a_v_package/move_actions.py:226-236 | every action keeps `sector`; only the harvester keeps `safe_harvest`, only the attack `base_attack`, and only the sector raid its start sector, current sector and the direction of attack |
| Steps.UnloadMove | dontsov_a_v_package/move_actions.py:83-87 | heads for the home mothership and hands over to unloading; a move order iff not already near it |
| Steps.LoadStep | dontsov_a_v_package/base_actions.py:39-57 | loads iff not full and the target has loot, from the first standing enemy alongside if there is one; goes home iff damaged or full; moves on iff the target ran dry |
| Steps.UnloadStep | dontsov_a_v_package/base_actions.py:64-72 | always unloads into the home mothership, and moves on iff empty |
| Steps.MoveDefenderStep | dontsov_a_v_package/move_actions.py:97-123 | a loaded drone unloads; an empty one takes `GuardPoint`'s first unclaimed circle point (or none) as start position and target, walks there, and attacks iff there |
| Steps.MoveHarvestStep | dontsov_a_v_package/move_actions.py:143-168 | goes home iff there is no free loot; otherwise heads for it and starts loading iff near it and standing still, still ordering the move |
| Steps.Retarget | dontsov_a_v_package/move_actions.py:272-284 | re-aiming sets the direction of attack and the current sector to the sector |
| Steps.ReplaceHome | dontsov_a_v_package/move_actions.py:268-270 | a start position of the home mothership is searched again |
| Steps.ToSectorMove | dontsov_a_v_package/move_actions.py:258-270 | without a start position it takes `StartFor`'s point as start position and target; near its target it advances towards the base by `SectorAdvance` and attacks; otherwise it orders a move; a home-mothership start position is searched again |
| Steps.MoveToSectorStep | dontsov_a_v_package/move_actions.py:246-270 | a loaded drone unloads; an empty one re-aims iff the sector's team changed, forgetting its start position, so the current sector's team ends up the sector's |
| Steps.MoveLastSectorStep | dontsov_a_v_package/move_actions.py:385-428 | a loaded drone unloads; without a start position it takes `RingPoint`'s point (or none) as start position and target and aims from it at the mothership; otherwise it attacks iff near its target, advancing |
| Steps.MoveRecoveryStep | dontsov_a_v_package/move_actions.py:434-450 | flies home, and moves on iff near the home mothership |
| Steps.MoveHomeStep | dontsov_a_v_package/move_actions.py:456-465 | flies home with the mothership as target, and unloads iff near it |
| Steps.AttackStep | dontsov_a_v_package/attack_action.py:27-42 | always sets the target; without one moves on; with one turns to it, shoots iff not near home, and goes home iff damaged |
| Steps.Step | dontsov_a_v_package/base_actions.py:12-16 | only the attack aims, only the two sector raids change their own attributes, and the strategy moves only to a successor slot |
| Controller.Hangar.constructor | dontsov_a_v.py:16 | no command centre exists before the first drone is born |
| Controller.Drone.constructor | dontsov_a_v.py:18-23 | a new drone has no strategy and no targets |
| Controller.Drone.OnBorn | dontsov_a_v.py:25-29 | the first drone born creates the command centre; the centre maps the field and notes the asteroid total; the drone ends with a well-formed strategy of its own |
| Controller.Drone.NextAction | dontsov_a_v.py:52-54 | the drone ends with a well-formed strategy of its own |
| Controller.Drone.OnWakeUp | dontsov_a_v.py:46-47 | the strategy is kept, stays well formed, and takes exactly one `go` of its current action as `Step` describes |
| Controller.Action.constructor | dontsov_a_v_package/base_actions.py:7-10 | the attributes come from the keyword arguments; the sector raids clear the drone's `target_move` and `start_position` |
| Controller.Action.Go | dontsov_a_v_package/base_actions.py:12-16 | running an action leaves the drone, the action and the strategy exactly as `Step` describes |
| Controller.Action.UnloadMoveGo | dontsov_a_v_package/move_actions.py:83-87 | leaves the state `UnloadMove` describes |
| Controller.Action.LoadGo | dontsov_a_v_package/base_actions.py:39-57 | leaves the state `LoadStep` describes |
| Controller.Action.UnloadGo | dontsov_a_v_package/base_actions.py:64-72 | leaves the state `UnloadStep` describes |
| Controller.Action.MoveDefenderGo | dontsov_a_v_package/move_actions.py:97-123 | leaves the state `MoveDefenderStep` describes |
| Controller.Action.MoveHarvestGo | dontsov_a_v_package/move_actions.py:143-156 | leaves the state `MoveHarvestStep` describes |
| Controller.Action.ReloadAttr | dontsov_a_v_package/move_actions.py:272-284 | sets the attributes `Retarget` describes and forgets the start position |
| Controller.Action.StartPositionGo | dontsov_a_v_package/move_actions.py:323-346 | returns the start position for this drone's setting |
| Controller.Action.ToSectorMoveGo | dontsov_a_v_package/move_actions.py:258-270 | leaves the state `ToSectorMove` describes |
| Controller.Action.MoveToSectorGo | dontsov_a_v_package/move_actions.py:246-270 | leaves the state `MoveToSectorStep` describes |
| Controller.Action.SetStartAttr | dontsov_a_v_package/move_actions.py:413-428 | takes the ring point as start position and target, and aims from it at the sector's mothership |
| Controller.Action.MoveLastSectorGo | dontsov_a_v_package/move_actions.py:385-401 | leaves the state `MoveLastSectorStep` describes |
| Controller.Action.MoveRecoveryGo | dontsov_a_v_package/move_actions.py:434-442 | leaves the state `MoveRecoveryStep` describes |
| Controller.Action.MoveHomeGo | dontsov_a_v_package/move_actions.py:456-465 | leaves the state `MoveHomeStep` describes |
| Controller.Action.AttackGo | dontsov_a_v_package/attack_action.py:27-42 | leaves the state `AttackStep` describes |
| Controller.Strategy.Closed | dontsov_a_v_package/strategies_dontsov.py:43-98 | the current action's every successor slot is filled |
| Controller.Strategy.Switch | dontsov_a_v_package/base_actions.py:50-57 | pointing the strategy at a filled slot keeps it well formed |
| Controller.Strategy.HarvestActions | dontsov_a_v_package/strategies_dontsov.py:54-60 | the harvester flies home to recover, unloads, harvests and loads |
| Controller.Strategy.FightActions | dontsov_a_v_package/strategies_dontsov.py:13-98 | the other classes recover, unload, move their own way and attack |
| Controller.Strategy.constructor | dontsov_a_v_package/strategies_dontsov.py:13-104 | a new strategy is well formed with its own fresh actions, and starts with its movement action |
| Controller.Strategy.Act | dontsov_a_v_package/strategies_dontsov.py:24-28 | one `go` of the current action, as `Step` describes; the current action stays or moves to a successor slot |
| Controller.Strategy.Update | dontsov_a_v_package/strategies_dontsov.py:30-104 | the move and attack actions take the arguments as `Tuned` describes; the current action stays |
| Controller.CommandCenter.constructor | dontsov_a_v.py:61-77 | no sectors yet, and no elirium noted |
| Controller.CommandCenter.StartNavigation | dontsov_a_v.py:87-91 | the sectors become the sorted sectors of the scene |
| Controller.CommandCenter.Run | dontsov_a_v.py:79-85 | maps the field, gives the drone a fresh harvesting strategy that starts with its move action built without arguments, keeps the drone's pose, and notes the elirium on the asteroids |
| Controller.CommandCenter.Analyzing | dontsov_a_v.py:93-98 | the drone ends with a well-formed strategy, fresh when its class changes and otherwise the same object with the pose kept; `target_attack` is always kept |
| Controller.CommandCenter.TransitionStrategy | dontsov_a_v.py:305-312 | a drone without a strategy of the chosen class gets a fresh one: it starts with its movement action, and its movement, attack and load actions are built from the arguments; the sabotage and last-battle raids clear `target_move` and `start_position`, and the defender and harvest classes keep the pose. Otherwise the same strategy and current action are kept and updated, with the pose kept. `target_attack` is always kept |

## Left out

- Engine commands (`move_at`, `turn_to`, `gun.shot`, `load_from`, `unload_to`) are returned as `Command` values, not executed.
- `distance_to`, `near`, `Vector.direction`, the point along a direction, `get_start_points`, the front-sector point's trigonometry and the moving-target lead formula are function-typed fields of `Env`, because their floating-point and trigonometric code is outside this model.
- Floating point is modelled with exact reals.
- The engine's `Point` equality is assumed to compare coordinates: a point equals any object at the same x and y (`Snapshot.Matches`). The attacker cap's `target_attack == enemy` test (attack_action.py:57) and the teammate test `target_move == obj` of `is_obj_free_for_group` (move_actions.py:190) depend on this. The engine's `Point` class is not part of this model.
- The theme constants of `constants.py` (field size, healing distance, attack radius) and the field diagonal are fields of `Env`.
- `game.py` only starts the engine, and is not part of this model.
- The teammates a drone sees (`self.drone.teammates`) are a value snapshot of `Mate` records, not the live drone objects; an action's `go` therefore cannot see a teammate change during the same call.
- The other engine callbacks (`on_stop_at_asteroid`, `on_stop_at_point`, `on_load_complete`, `on_stop_at_mothership`, `on_unload_complete`, `on_heartbeat`) each just call `next_action`, which `Controller.Drone.NextAction` models.
- Unused code is not modelled: `last_battle_event` (not in the event list), `get_drones_in_sector`, `is_obj_free_for_solo`, `is_need_drone`, `is_ready_attack` and `is_not_friendly_fire`.
- `BaseAction.nav`: the actions call the command centre's queries as pure functions of the scene instead of through a stored reference.
- Paths where the source raises an exception are given a value instead, because the model is total:
  - a dead mothership whose team has no record changes nothing in `get_game_data`;
  - a key missing from a team record (`number_soldiers`, `elirium`, `defenders`) reads as 0;
  - with no front sector, the front team is no team, and `knight_move_event` (dontsov_a_v.py:137-138, which then indexes `False['mothership']`) does not fire;
  - `MoveToSector.get_target_move` (move_actions.py:294) calls `next(...)` with no default, which raises when the sector's team has no record in `get_game_data`; `Events.SoldiersOf` reads that team as having 0 soldiers, so `Placement.SectorAdvance` takes the step of 60;
  - `MoveLastSectorAction.set_start_attr` (move_actions.py:419-423) passes the result of `get_position_on_circle` to `get_direction_attack` even when it is `None`, which fails; `Steps.MoveLastSectorStep` and `Controller.Action.SetStartAttr` then leave the start position at `Nowhere` and the direction at `None`;
  - `LoadAction.go` (base_actions.py:45) reads `target_move.is_empty`, which a point or `None` does not have; `Steps.TargetEmpty` counts such a target as empty, so the drone moves on;
  - a sector without a mothership is never attacked as a base;
  - a missing sector or start sector stands for the home mothership.
- `HarvestStrategy.__init__` first builds a `MoveRecoveryAction` and an `UnloadAction` through the base constructor, then discards them; those discarded objects are not built.
- Steps.Feasible: `go` is modelled only where the scans have a positive step. That means `int(2*radius) > 0`, and the living teammates must not outnumber twice the scan angle. Python's `range` raises an error on a zero step.
- Controller.Drone.OnBorn: its contract does not restate which strategy the events choose; `Events.GetNextStrategy` and `Controller.CommandCenter.TransitionStrategy` state that separately.
- Controller.Drone.NextAction: its contract does not restate the events' choice or the step taken. `Controller.CommandCenter.TransitionStrategy` states the choice and `Controller.Strategy.Act` states the step.
- Controller.CommandCenter.Analyzing: its contract does not restate which strategy is chosen; `Events.GetNextStrategy` and `Controller.CommandCenter.TransitionStrategy` state it.
