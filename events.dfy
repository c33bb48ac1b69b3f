/**
 * The command centre's rule list: nine events, tried in a fixed order, each either
 * proposing a strategy with its parameters or passing; Defender is the fallback.
 */
module Events {
  import opened Wrappers
  import opened Seqs
  import opened Snapshot
  import opened GameData
  import opened Sectors

  datatype StrategyKind = DefenderKind | HarvestKind | SabotageKind | LastBattleKind

  /** The keyword arguments an event passes to a strategy; an absent keyword is `None`. */
  datatype Params = Params(
    sector: Option<Sector>,
    startSector: Option<Sector>,
    baseAttack: Option<bool>,
    safeHarvest: Option<bool>)

  const NoParams: Params := Params(None, None, None, None)

  /** An event's result: the strategy class and its keyword arguments. */
  datatype Choice = Choice(kind: StrategyKind, params: Params)

  /** `(DefenderStrategy, {})`, returned when no event fires. */
  const Fallback: Choice := Choice(DefenderKind, NoParams)

  /**
   * What the rules look at: the scene, the engine's geometry, the command centre's
   * sectors, the elirium on the asteroids when the game began, and the index of this
   * bot's mothership among the motherships.
   */
  datatype Situation = Situation(w: World, env: Env, sectors: seq<Sector>, total: nat, home: nat)

  predicate Ready(sit: Situation) {
    sit.home < |sit.w.motherships|
  }

  function HomeTeam(sit: Situation): string
    requires Ready(sit)
  {
    sit.w.motherships[sit.home].team
  }

  function Everything(): GameObject -> bool {
    (o: GameObject) => true
  }

  /** The elirium held by all motherships and all drones, dead or alive. */
  function Tank(w: World): nat {
    SumIf(w.motherships, Everything(), Payload) + SumIf(w.drones, Everything(), Payload)
  }

  /** `is_start_game`: less than 90% of the initial asteroid total has been carried off the field. */
  function IsStartGame(w: World, total: nat): (start: bool)
    ensures start <==> 10 * Tank(w) < 9 * total
  {
    Tank(w) as real < 0.9 * total as real
  }

  /** `harvest_in_begin_event`. */
  function HarvestInBegin(sit: Situation): (r: Option<Choice>)
    ensures r.Some? <==> 10 * Tank(sit.w) < 9 * sit.total
    ensures r.Some? ==> r.value == Choice(HarvestKind, NoParams)
  {
    if IsStartGame(sit.w, sit.total) then Some(Choice(HarvestKind, NoParams)) else None
  }

  /**
   * `next((team['number_soldiers'] for team in game_data if ...), False)` compared with 0:
   * a team without a record counts as having no soldiers.
   */
  function SoldiersOf(data: Ledger, name: Option<string>): nat {
    if name.Some? && Lookup(data, name.value).Some? then Lookup(data, name.value).value.soldiers else 0
  }

  /** The condition under which `harvest_in_alien_sector_event` picks a sector. */
  predicate AlienHarvestable(sit: Situation, data: Ledger, s: Sector) {
    !s.homeSector && |ObjectsWithLoot(sit.w, sit.env, Some(s.corners), false)| > 0 &&
    (s.mothership.None? || SoldiersOf(data, s.teamName) == 0)
  }

  /**
   * `harvest_in_alien_sector_event`: the first sector other than the home one that holds
   * loot and has no mothership or whose team has no living drones.
   */
  function HarvestInAlienSector(sit: Situation): (r: Option<Choice>)
    ensures var data := GameData.GameData(sit.w, sit.env);
      r.None? <==> forall i :: 0 <= i < |sit.sectors| ==> !AlienHarvestable(sit, data, sit.sectors[i])
    ensures var data := GameData.GameData(sit.w, sit.env);
      r.Some? ==> exists i :: (0 <= i < |sit.sectors| && AlienHarvestable(sit, data, sit.sectors[i]) &&
        r.value == Choice(HarvestKind, NoParams.(sector := Some(sit.sectors[i]))) &&
        forall j :: 0 <= j < i ==> !AlienHarvestable(sit, data, sit.sectors[j]))
  {
    var data := GameData.GameData(sit.w, sit.env);
    var k := FirstIndex(sit.sectors, (s: Sector) => AlienHarvestable(sit, data, s));
    if k.Some? then Some(Choice(HarvestKind, NoParams.(sector := Some(sit.sectors[k.value])))) else None
  }

  predicate Invades(sit: Situation, d: GameObject)
    requires Ready(sit)
  {
    d.alive && !d.Ours() && IsBaseRadiusAttack(sit.env, sit.w.motherships[sit.home], d.pos)
  }

  /** `home_under_threat_event`: a living enemy drone within attack range of the home mothership's rim. */
  function HomeUnderThreat(sit: Situation): (r: Option<Choice>)
    requires Ready(sit)
    ensures r.Some? <==> exists i :: 0 <= i < |sit.w.drones| && Invades(sit, sit.w.drones[i])
    ensures r.Some? ==> r.value == Fallback
  {
    if FirstIndex(sit.w.drones, (d: GameObject) => Invades(sit, d)).Some? then Some(Fallback) else None
  }

  /**
   * `next((sector for sector in self.sectors if team_name == sector['team_name'] and
   * sector['mothership'].is_alive), False)`: the first sector of the team whose mothership lives.
   */
  function AttackableSector(sit: Situation, name: string): (s: Option<Sector>)
    ensures s.None? <==> forall k :: 0 <= k < |sit.sectors| ==>
      !(sit.sectors[k].teamName == Some(name) && ShipAlive(sit.w, sit.sectors[k]))
    ensures s.Some? ==> s.value in sit.sectors && s.value.teamName == Some(name) && ShipAlive(sit.w, s.value)
  {
    var k := FirstIndex(sit.sectors, (x: Sector) => x.teamName == Some(name) && ShipAlive(sit.w, x));
    if k.Some? then Some(sit.sectors[k.value]) else None
  }

  /** The attack these three events propose: the team's sector, with `base_attack=True`. */
  function Raid(s: Sector): Choice {
    Choice(SabotageKind, Params(Some(s), None, Some(true), None))
  }

  /** The team loop shared by three events: the first team that `fit` accepts and that has a sector to raid. */
  function RaidFirst(sit: Situation, teams: seq<TeamData>, fit: TeamData -> bool): (r: Option<Choice>)
    ensures r.None? <==> forall i :: 0 <= i < |teams| ==> !(fit(teams[i]) && AttackableSector(sit, teams[i].name).Some?)
    ensures r.Some? ==> exists i :: (0 <= i < |teams| && fit(teams[i]) && AttackableSector(sit, teams[i].name).Some? &&
      r.value == Raid(AttackableSector(sit, teams[i].name).value) &&
      forall j :: 0 <= j < i ==> !(fit(teams[j]) && AttackableSector(sit, teams[j].name).Some?))
  {
    var k := FirstIndex(teams, (t: TeamData) => fit(t) && AttackableSector(sit, t.name).Some?);
    if k.Some? then Some(Raid(AttackableSector(sit, teams[k.value].name).value)) else None
  }

  /** A rival team other than the front sector's. */
  predicate Rival(sit: Situation, t: TeamData)
    requires Ready(sit)
  {
    t.name != HomeTeam(sit) && Some(t.name) != FrontTeam(sit.sectors)
  }

  /** `get_game_data()` in list order. */
  function Roster(sit: Situation): seq<TeamData> {
    Teams(GameData.GameData(sit.w, sit.env))
  }

  predicate Soldierless(sit: Situation, t: TeamData)
    requires Ready(sit)
  {
    Rival(sit, t) && t.soldiers == 0
  }

  predicate Undefended(sit: Situation, t: TeamData)
    requires Ready(sit)
  {
    Rival(sit, t) && t.defenders == 0
  }

  /**
   * `attack_sector_without_soldiers_event`: the first rival team (in the order of
   * `get_game_data`) without living drones whose sector's mothership is alive.
   */
  function AttackSectorWithoutSoldiers(sit: Situation): (r: Option<Choice>)
    requires Ready(sit)
    ensures var teams := Roster(sit);
      r.None? <==> forall i :: 0 <= i < |teams| ==>
        !(Soldierless(sit, teams[i]) && AttackableSector(sit, teams[i].name).Some?)
    ensures var teams := Roster(sit);
      r.Some? ==> exists i :: (0 <= i < |teams| && Soldierless(sit, teams[i]) && AttackableSector(sit, teams[i].name).Some? &&
        r == Some(Raid(AttackableSector(sit, teams[i].name).value)) &&
        forall j :: 0 <= j < i ==> !(Soldierless(sit, teams[j]) && AttackableSector(sit, teams[j].name).Some?))
  {
    RaidFirst(sit, Roster(sit), (t: TeamData) => Soldierless(sit, t))
  }

  /** The condition under which `attack_sector_without_base_event` picks a sector. */
  predicate BaseLost(sit: Situation, data: Ledger, s: Sector) {
    !s.homeSector && !s.front && ShipDead(sit.w, s) &&
    s.teamName.Some? && Lookup(data, s.teamName.value).Some? && Lookup(data, s.teamName.value).value.defenders != 0
  }

  /**
   * `attack_sector_without_base_event`: the first side sector whose mothership is
   * destroyed while drones of its team still guard it.
   */
  function AttackSectorWithoutBase(sit: Situation): (r: Option<Choice>)
    ensures var data := GameData.GameData(sit.w, sit.env);
      r.None? <==> forall i :: 0 <= i < |sit.sectors| ==> !BaseLost(sit, data, sit.sectors[i])
    ensures var data := GameData.GameData(sit.w, sit.env);
      r.Some? ==> exists i :: (0 <= i < |sit.sectors| && BaseLost(sit, data, sit.sectors[i]) &&
        r.value == Raid(sit.sectors[i]) && forall j :: 0 <= j < i ==> !BaseLost(sit, data, sit.sectors[j]))
  {
    var data := GameData.GameData(sit.w, sit.env);
    var k := FirstIndex(sit.sectors, (s: Sector) => BaseLost(sit, data, s));
    if k.Some? then Some(Raid(sit.sectors[k.value])) else None
  }

  /**
   * `attack_sector_without_defenders_event`: the first rival team with no drone near its
   * mothership, whose sector's mothership is alive.
   */
  function AttackSectorWithoutDefenders(sit: Situation): (r: Option<Choice>)
    requires Ready(sit)
    ensures var teams := Roster(sit);
      r.None? <==> forall i :: 0 <= i < |teams| ==>
        !(Undefended(sit, teams[i]) && AttackableSector(sit, teams[i].name).Some?)
    ensures var teams := Roster(sit);
      r.Some? ==> exists i :: (0 <= i < |teams| && Undefended(sit, teams[i]) && AttackableSector(sit, teams[i].name).Some? &&
        r == Some(Raid(AttackableSector(sit, teams[i].name).value)) &&
        forall j :: 0 <= j < i ==> !(Undefended(sit, teams[j]) && AttackableSector(sit, teams[j].name).Some?))
  {
    RaidFirst(sit, Roster(sit), (t: TeamData) => Undefended(sit, t))
  }

  /** The defenders of the front sector's living mothership. */
  function FrontDefenders(sit: Situation, f: Sector): nat
    requires ShipAlive(sit.w, f)
  {
    var name := if f.teamName.Some? then f.teamName.value else "";
    |BaseDefenders(sit.w, sit.env, name, sit.w.motherships[f.mothership.value])|
  }

  /** The condition under which `knight_move_event` starts from a side sector. */
  predicate KnightFrom(sit: Situation, data: Ledger, s: Sector) {
    !s.homeSector && !s.front && ShipDead(sit.w, s) && SoldiersOf(data, s.teamName) == 0 &&
    var f := FrontSector(sit.sectors);
    f.Some? && ShipAlive(sit.w, f.value) &&
    (IsRiskGame(sit.w, sit.env) || FrontDefenders(sit, f.value) <= 1)
  }

  /**
   * `knight_move_event`: once a side sector's team is wiped out, attack the front sector
   * from it, when the game calls for risk or the front base has at most one defender.
   */
  function KnightMove(sit: Situation): (r: Option<Choice>)
    ensures var data := GameData.GameData(sit.w, sit.env);
      r.None? <==> forall i :: 0 <= i < |sit.sectors| ==> !KnightFrom(sit, data, sit.sectors[i])
    ensures var data := GameData.GameData(sit.w, sit.env);
      r.Some? ==> exists i :: (0 <= i < |sit.sectors| && KnightFrom(sit, data, sit.sectors[i]) &&
        r.value == Choice(SabotageKind, Params(FrontSector(sit.sectors), Some(sit.sectors[i]), Some(true), None)) &&
        forall j :: 0 <= j < i ==> !KnightFrom(sit, data, sit.sectors[j]))
  {
    var data := GameData.GameData(sit.w, sit.env);
    var k := FirstIndex(sit.sectors, (s: Sector) => KnightFrom(sit, data, s));
    if k.Some? then Some(Choice(SabotageKind, Params(FrontSector(sit.sectors), Some(sit.sectors[k.value]), Some(true), None)))
    else None
  }

  /** `safe_harvest_event`: some loot lies out of reach of every standing enemy drone. */
  function SafeHarvest(sit: Situation): (r: Option<Choice>)
    ensures r.Some? <==> exists x :: IsLoot(sit.w, x) && IsObjSafe(sit.w, sit.env, LootPos(sit.w, x))
    ensures r.Some? ==> r.value == Choice(HarvestKind, NoParams.(safeHarvest := Some(true)))
  {
    var loot := ObjectsWithLoot(sit.w, sit.env, None, true);
    if |loot| > 0 then
      assert loot[0] in loot;
      Some(Choice(HarvestKind, NoParams.(safeHarvest := Some(true))))
    else
      assert forall x :: x !in loot;
      None
  }

  function DefendersKey(t: TeamData): real {
    t.defenders as real
  }

  /** The teams other than this bot's, fewest defenders first (ties in list order). */
  function ByDefenders(sit: Situation): (ts: seq<TeamData>)
    requires Ready(sit)
    ensures SortedBy(ts, DefendersKey)
    ensures multiset(ts) == multiset(Keep(Roster(sit), (t: TeamData) => t.name != HomeTeam(sit)))
    ensures StableBy(ts, Keep(Roster(sit), (t: TeamData) => t.name != HomeTeam(sit)), DefendersKey)
  {
    SortBy(Keep(Roster(sit), (t: TeamData) => t.name != HomeTeam(sit)), DefendersKey)
  }

  /** The team test of `attack_near_sector_with_risk_event`. */
  predicate Outnumbered(sit: Situation, t: TeamData)
    requires Ready(sit)
  {
    Some(t.name) != FrontTeam(sit.sectors) &&
    (t.defenders + 3 <= AliveTeammates(sit.w) || IsRiskGame(sit.w, sit.env))
  }

  /**
   * `attack_near_sector_with_risk_event`: among the other teams, fewest defenders first,
   * the first one off the front that this bot outnumbers by three, or any when the game
   * calls for risk, and whose sector's mothership is alive.
   */
  function AttackNearSectorWithRisk(sit: Situation): (r: Option<Choice>)
    requires Ready(sit)
    ensures var teams := ByDefenders(sit);
      r.None? <==> forall i :: 0 <= i < |teams| ==> !(Outnumbered(sit, teams[i]) && AttackableSector(sit, teams[i].name).Some?)
    ensures var teams := ByDefenders(sit);
      r.Some? ==> exists i :: (0 <= i < |teams| && Outnumbered(sit, teams[i]) && AttackableSector(sit, teams[i].name).Some? &&
        r == Some(Raid(AttackableSector(sit, teams[i].name).value)) &&
        forall j :: 0 <= j < i ==> !(Outnumbered(sit, teams[j]) && AttackableSector(sit, teams[j].name).Some?))
  {
    RaidFirst(sit, ByDefenders(sit), (t: TeamData) => Outnumbered(sit, t))
  }

  /** Number of events in `CommandCenter.events`. */
  const EVENTS: nat := 9

  /** `self.events[i]()` in the order of the list in `CommandCenter.__init__`. */
  function Event(sit: Situation, i: nat): Option<Choice>
    requires Ready(sit)
  {
    match i
    case 0 => HarvestInBegin(sit)
    case 1 => HarvestInAlienSector(sit)
    case 2 => HomeUnderThreat(sit)
    case 3 => AttackSectorWithoutSoldiers(sit)
    case 4 => AttackSectorWithoutBase(sit)
    case 5 => AttackSectorWithoutDefenders(sit)
    case 6 => KnightMove(sit)
    case 7 => SafeHarvest(sit)
    case 8 => AttackNearSectorWithRisk(sit)
    case _ => None
  }

  /** The event list of `CommandCenter.__init__` as a function of the position in the list. */
  function Rules(sit: Situation): nat -> Option<Choice>
    requires Ready(sit)
  {
    (k: nat) => Event(sit, k)
  }

  /**
   * The choice the events `ev(i)`, ..., `ev(EVENTS - 1)` make: the first one that fires,
   * else the fallback.
   */
  function Decide(ev: nat -> Option<Choice>, i: nat): Choice
    decreases EVENTS - i
  {
    if i >= EVENTS then Fallback
    else if ev(i).Some? then ev(i).value
    else Decide(ev, i + 1)
  }

  /** `Decide` is the first event from `i` on that fires, or the fallback when none does. */
  lemma {:induction false} DecideFirst(ev: nat -> Option<Choice>, i: nat)
    requires i <= EVENTS
    ensures (exists k :: (i <= k < EVENTS && ev(k) == Some(Decide(ev, i)) &&
        forall j :: i <= j < k ==> ev(j).None?)) ||
      ((forall k :: i <= k < EVENTS ==> ev(k).None?) && Decide(ev, i) == Fallback)
    decreases EVENTS - i
  {
    if i < EVENTS && ev(i).None? {
      DecideFirst(ev, i + 1);
    }
  }

  /**
   * `get_next_strategy`: the result of the first event, in list order, that fires, or
   * `(DefenderStrategy, {})` when none does.
   */
  method GetNextStrategy(sit: Situation) returns (c: Choice)
    requires Ready(sit)
    ensures c == Decide(Rules(sit), 0)
  {
    var i := 0;
    while i < EVENTS
      invariant 0 <= i <= EVENTS
      invariant Decide(Rules(sit), i) == Decide(Rules(sit), 0)
    {
      var r := Event(sit, i);
      if r.Some? {
        return r.value;
      }
      i := i + 1;
    }
    return Fallback;
  }
}
