/**
 * `CommandCenter.get_game_data`: one record per team with its living drones, the elirium it
 * holds and the drones guarding its mothership; `get_base_defender`; and `is_risk_game`,
 * which ranks the teams by elirium.
 */
module GameData {
  import opened Wrappers
  import opened Seqs
  import opened Snapshot

  /**
   * One team's record. The source builds dictionaries whose keys appear as the loops reach
   * them; an absent `number_soldiers`, `elirium` or `defenders` key reads here as 0.
   */
  datatype TeamData = TeamData(name: string, soldiers: nat, elirium: nat, defenders: nat)

  /**
   * The list `game_data` under construction: the team names in the order their records were
   * appended, and each team's record by name (the source finds a record by scanning the
   * list for its `team_name`, and names never repeat).
   */
  datatype Ledger = Ledger(order: seq<string>, records: map<string, TeamData>)

  ghost predicate Valid(l: Ledger) {
    (forall i, j :: 0 <= i < j < |l.order| ==> l.order[i] != l.order[j]) &&
    (forall n :: n in l.records <==> n in l.order) &&
    (forall n :: n in l.records ==> l.records[n].name == n)
  }

  /** `next((team for team in game_data if team.get('team_name') == name), False)`. */
  function Lookup(l: Ledger, name: string): Option<TeamData> {
    if name in l.records then Some(l.records[name]) else None
  }

  /** The team's record, or the fresh `{'team_name': name}` that the source appends. */
  function Entry(l: Ledger, name: string): (t: TeamData)
    ensures Valid(l) ==> t.name == name
  {
    if name in l.records then l.records[name] else TeamData(name, 0, 0, 0)
  }

  /** The list itself: the records in the order they were appended. */
  function Teams(l: Ledger): (ts: seq<TeamData>)
    ensures |ts| == |l.order|
    ensures forall i :: 0 <= i < |ts| ==> ts[i] == Entry(l, l.order[i])
  {
    seq(|l.order|, i requires 0 <= i < |l.order| => Entry(l, l.order[i]))
  }

  predicate UniqueNames(data: seq<TeamData>) {
    forall i, j :: 0 <= i < j < |data| ==> data[i].name != data[j].name
  }

  /** The list holds each recorded team once, under its own name, and nothing else. */
  lemma TeamsOfValid(l: Ledger)
    requires Valid(l)
    ensures UniqueNames(Teams(l))
    ensures forall i :: 0 <= i < |Teams(l)| ==> Lookup(l, Teams(l)[i].name) == Some(Teams(l)[i])
    ensures forall n :: Lookup(l, n).Some? ==> Lookup(l, n).value in Teams(l)
  {
    var ts := Teams(l);
    forall n | Lookup(l, n).Some? ensures Lookup(l, n).value in ts {
      var i :| 0 <= i < |l.order| && l.order[i] == n;
      assert ts[i] == Lookup(l, n).value;
    }
  }

  /** The list with a record for `name`: unchanged if it has one, else with `{'team_name': name}` appended. */
  function WithTeam(l: Ledger, name: string): Ledger {
    if name in l.records then l else Ledger(l.order + [name], l.records[name := TeamData(name, 0, 0, 0)])
  }

  lemma WithTeamValid(l: Ledger, name: string)
    requires Valid(l)
    ensures Valid(WithTeam(l, name))
    ensures Lookup(WithTeam(l, name), name) == Some(Entry(l, name))
  {
    if name !in l.records {
      var o := l.order + [name];
      assert forall i :: 0 <= i < |l.order| ==> o[i] == l.order[i];
      assert forall n :: n in o <==> n in l.order || n == name;
    }
  }

  /** The record found under `name` replaced by `t` (the source assigns into that dictionary). */
  function Credit(l: Ledger, name: string, t: TeamData): Ledger {
    if name in l.records then l.(records := l.records[name := t]) else l
  }

  function AliveOf(name: string): GameObject -> bool {
    (o: GameObject) => o.alive && o.team == name
  }

  function Payload(o: GameObject): nat {
    o.payload
  }

  /** The first loop's body: a drone's team gets a record, and a living drone adds itself and its load. */
  function AddDrone(l: Ledger, d: GameObject): Ledger {
    var base := WithTeam(l, d.team);
    if d.alive then
      var e := Entry(base, d.team);
      Credit(base, d.team, e.(soldiers := e.soldiers + 1, elirium := e.elirium + d.payload))
    else base
  }

  lemma AddDroneValid(l: Ledger, d: GameObject)
    requires Valid(l)
    ensures Valid(AddDrone(l, d))
  {
    WithTeamValid(l, d.team);
  }

  lemma AddDroneLookup(l: Ledger, d: GameObject, name: string)
    ensures d.team != name ==> Lookup(AddDrone(l, d), name) == Lookup(l, name)
    ensures d.team == name && !d.alive ==> Lookup(AddDrone(l, d), name) == Some(Entry(l, name))
    ensures d.team == name && d.alive ==>
      var e := Entry(l, name);
      Lookup(AddDrone(l, d), name) == Some(e.(soldiers := e.soldiers + 1, elirium := e.elirium + d.payload))
  {
  }

  /** The drone loop over a prefix of the drones. */
  function Tally(ds: seq<GameObject>): Ledger {
    if |ds| == 0 then Ledger([], map[]) else AddDrone(Tally(ds[..|ds| - 1]), ds[|ds| - 1])
  }

  /** Some drone of `ds`, alive or not, belongs to the team. */
  predicate Seen(ds: seq<GameObject>, name: string) {
    exists i :: 0 <= i < |ds| && ds[i].team == name
  }

  /** The record the drone loop builds for a team it has seen. */
  function DroneEntry(ds: seq<GameObject>, name: string): TeamData {
    TeamData(name, Count(ds, AliveOf(name)), SumIf(ds, AliveOf(name), Payload), 0)
  }

  lemma SeenLast(ds: seq<GameObject>, name: string)
    requires |ds| > 0
    ensures Seen(ds, name) <==> Seen(ds[..|ds| - 1], name) || ds[|ds| - 1].team == name
  {
    assert forall i :: 0 <= i < |ds| - 1 ==> ds[..|ds| - 1][i] == ds[i];
  }

  lemma UnseenIsEmpty(ds: seq<GameObject>, name: string)
    requires !Seen(ds, name)
    ensures DroneEntry(ds, name) == TeamData(name, 0, 0, 0)
  {
    assert forall i :: 0 <= i < |ds| ==> !AliveOf(name)(ds[i]);
  }

  lemma DroneEntryLast(ds: seq<GameObject>, name: string)
    requires |ds| > 0
    ensures var d, e := ds[|ds| - 1], DroneEntry(ds[..|ds| - 1], name);
      DroneEntry(ds, name) ==
        if d.team == name && d.alive then e.(soldiers := e.soldiers + 1, elirium := e.elirium + d.payload) else e
  {
    var init, d := ds[..|ds| - 1], ds[|ds| - 1];
    assert ds == init + [d];
    CountSumSnoc(init, d, AliveOf(name), Payload);
  }

  /** The drone loop keeps the list well formed. */
  lemma {:induction false} TallyValid(ds: seq<GameObject>)
    ensures Valid(Tally(ds))
  {
    if |ds| > 0 {
      TallyValid(ds[..|ds| - 1]);
      AddDroneValid(Tally(ds[..|ds| - 1]), ds[|ds| - 1]);
    }
  }

  /**
   * After the drone loop a team has a record exactly when one of its drones was seen, and
   * the record counts the team's living drones and sums their loads.
   */
  lemma {:induction false} TallyLookup(ds: seq<GameObject>, name: string)
    ensures Lookup(Tally(ds), name) == if Seen(ds, name) then Some(DroneEntry(ds, name)) else None
  {
    if |ds| > 0 {
      TallyLookup(ds[..|ds| - 1], name);
      TallyStep(ds, name);
    }
  }

  /** One drone of the loop, given the record built from the drones before it. */
  lemma TallyStep(ds: seq<GameObject>, name: string)
    requires |ds| > 0
    requires var init := ds[..|ds| - 1];
      Lookup(Tally(init), name) == if Seen(init, name) then Some(DroneEntry(init, name)) else None
    ensures Lookup(Tally(ds), name) == if Seen(ds, name) then Some(DroneEntry(ds, name)) else None
  {
    var init, d := ds[..|ds| - 1], ds[|ds| - 1];
    AddDroneLookup(Tally(init), d, name);
    SeenLast(ds, name);
    DroneEntryLast(ds, name);
    assert Tally(ds) == AddDrone(Tally(init), d);
    if d.team == name {
      if !Seen(init, name) {
        UnseenIsEmpty(init, name);
      }
      assert Entry(Tally(init), name) == DroneEntry(init, name);
    }
  }

  /** `get_base_defender`: living enemy drones of the team within healing distance of its mothership. */
  function BaseDefenders(w: World, env: Env, team: string, m: GameObject): (r: seq<GameObject>)
    ensures forall d :: d in r <==>
      d in w.drones && d.alive && !d.Ours() && d.team == team && env.dist(d.pos, m.pos) <= env.healingDistance
  {
    var enemies := Select(w.drones, [AliveOnly, EnemyOnly]);
    assert forall d :: d in enemies <==> d in w.drones && d.alive && !d.Ours() by {
      forall d ensures d in enemies <==> d in w.drones && d.alive && !d.Ours() {
        PassesPair(AliveOnly, EnemyOnly, d);
      }
    }
    Keep(enemies, (d: GameObject) => d.team == team && env.dist(d.pos, m.pos) <= env.healingDistance)
  }

  /** Only enemy drones are counted, so this bot's own base never has defenders. */
  lemma OwnTeamHasNoDefenders(w: World, env: Env, m: GameObject)
    ensures BaseDefenders(w, env, OWN_TEAM, m) == []
  {
    var enemies := Select(w.drones, [AliveOnly, EnemyOnly]);
    forall i | 0 <= i < |enemies| ensures enemies[i].team != OWN_TEAM {
      PassesPair(AliveOnly, EnemyOnly, enemies[i]);
    }
    KeepNone(enemies, (d: GameObject) => d.team == OWN_TEAM && env.dist(d.pos, m.pos) <= env.healingDistance);
  }

  /**
   * The second loop's body. A living mothership adds its load, creating the record if
   * needed; every mothership whose team has a record sets that team's `defenders`. (A dead
   * mothership whose team has no record makes the source fail; here it changes nothing.)
   */
  function AddShip(l: Ledger, m: GameObject, defenders: nat): Ledger {
    if m.alive then
      var base := WithTeam(l, m.team);
      var e := Entry(base, m.team);
      Credit(base, m.team, e.(elirium := e.elirium + m.payload, defenders := defenders))
    else Credit(l, m.team, Entry(l, m.team).(defenders := defenders))
  }

  lemma AddShipValid(l: Ledger, m: GameObject, n: nat)
    requires Valid(l)
    ensures Valid(AddShip(l, m, n))
  {
    WithTeamValid(l, m.team);
  }

  lemma AddShipLookup(l: Ledger, m: GameObject, n: nat, name: string)
    ensures m.team != name ==> Lookup(AddShip(l, m, n), name) == Lookup(l, name)
    ensures m.team == name && Lookup(l, name).None? && !m.alive ==> Lookup(AddShip(l, m, n), name).None?
    ensures m.team == name && (Lookup(l, name).Some? || m.alive) ==>
      var e := Entry(l, name);
      Lookup(AddShip(l, m, n), name) == Some(e.(elirium := e.elirium + (if m.alive then m.payload else 0), defenders := n))
  {
  }

  function DefenderCount(w: World, env: Env, m: GameObject): nat {
    |BaseDefenders(w, env, m.team, m)|
  }

  /** `len(self.get_base_defender(team_name=mship.team, mothership=mship))` for each mothership. */
  function DefendersOf(w: World, env: Env): GameObject -> nat {
    (m: GameObject) => DefenderCount(w, env, m)
  }

  /** The mothership loop over a prefix of the motherships, `defs` giving each mothership's defender count. */
  function Finish(l: Ledger, ms: seq<GameObject>, defs: GameObject -> nat): Ledger {
    if |ms| == 0 then l
    else
      var m := ms[|ms| - 1];
      AddShip(Finish(l, ms[..|ms| - 1], defs), m, defs(m))
  }

  /** No two motherships belong to the same team. */
  predicate DistinctTeams(ms: seq<GameObject>) {
    forall i, j :: 0 <= i < j < |ms| ==> ms[i].team != ms[j].team
  }

  lemma DistinctTeamsInit(ms: seq<GameObject>)
    requires |ms| > 0 && DistinctTeams(ms)
    ensures DistinctTeams(ms[..|ms| - 1])
  {
    var init := ms[..|ms| - 1];
    assert forall i :: 0 <= i < |init| ==> init[i] == ms[i];
  }

  function TeamIs(name: string): GameObject -> bool {
    (o: GameObject) => o.team == name
  }

  /** Some living mothership of `ms` belongs to the team. */
  predicate ShipSeen(ms: seq<GameObject>, name: string) {
    exists j :: 0 <= j < |ms| && AliveOf(name)(ms[j])
  }

  /** The record `e` once the mothership loop has run over `ms`. */
  function ShipEntry(e: TeamData, ms: seq<GameObject>, name: string, defs: GameObject -> nat): TeamData {
    var ship := FirstIndex(ms, TeamIs(name));
    e.(elirium := e.elirium + SumIf(ms, AliveOf(name), Payload),
       defenders := if ship.Some? then defs(ms[ship.value]) else e.defenders)
  }

  lemma ShipSeenLast(ms: seq<GameObject>, name: string)
    requires |ms| > 0
    ensures ShipSeen(ms, name) <==> ShipSeen(ms[..|ms| - 1], name) || AliveOf(name)(ms[|ms| - 1])
  {
    assert forall i :: 0 <= i < |ms| - 1 ==> ms[..|ms| - 1][i] == ms[i];
  }

  /** Another team's mothership leaves the record as it was. */
  lemma ShipEntryOther(e: TeamData, ms: seq<GameObject>, name: string, defs: GameObject -> nat)
    requires |ms| > 0 && ms[|ms| - 1].team != name
    ensures ShipEntry(e, ms, name, defs) == ShipEntry(e, ms[..|ms| - 1], name, defs)
  {
    var init, m := ms[..|ms| - 1], ms[|ms| - 1];
    assert ms == init + [m];
    CountSumSnoc(init, m, AliveOf(name), Payload);
    FirstIndexSnoc(init, m, TeamIs(name));
  }

  /** With one mothership per team, the team's own mothership is the only one that counts. */
  lemma ShipEntryOwn(e: TeamData, ms: seq<GameObject>, name: string, defs: GameObject -> nat)
    requires |ms| > 0 && DistinctTeams(ms) && ms[|ms| - 1].team == name
    ensures var init, m := ms[..|ms| - 1], ms[|ms| - 1];
      !ShipSeen(init, name) && ShipEntry(e, init, name, defs) == e &&
      ShipEntry(e, ms, name, defs) ==
        e.(elirium := e.elirium + (if m.alive then m.payload else 0), defenders := defs(m))
  {
    var init, m := ms[..|ms| - 1], ms[|ms| - 1];
    assert ms == init + [m];
    forall i | 0 <= i < |init| ensures !TeamIs(name)(init[i]) && !AliveOf(name)(init[i]) {
      assert init[i] == ms[i];
      assert ms[i].team != ms[|ms| - 1].team;
    }
    CountSumSnoc(init, m, AliveOf(name), Payload);
    FirstIndexSnoc(init, m, TeamIs(name));
  }

  lemma {:induction false} FinishValid(l: Ledger, ms: seq<GameObject>, defs: GameObject -> nat)
    requires Valid(l)
    ensures Valid(Finish(l, ms, defs))
  {
    if |ms| > 0 {
      var m := ms[|ms| - 1];
      FinishValid(l, ms[..|ms| - 1], defs);
      AddShipValid(Finish(l, ms[..|ms| - 1], defs), m, defs(m));
    }
  }

  /** The record of the team after the mothership loop over `ms`, as `FinishLookup` states it. */
  function AfterShips(l: Ledger, ms: seq<GameObject>, defs: GameObject -> nat, name: string): Option<TeamData> {
    if Lookup(l, name).None? && !ShipSeen(ms, name) then None
    else Some(ShipEntry(Entry(l, name), ms, name, defs))
  }

  /** The step of `FinishLookup` for the team's own mothership. */
  lemma FinishStepOwn(l: Ledger, ms: seq<GameObject>, defs: GameObject -> nat, name: string)
    requires |ms| > 0 && DistinctTeams(ms) && ms[|ms| - 1].team == name
    requires Lookup(Finish(l, ms[..|ms| - 1], defs), name) == AfterShips(l, ms[..|ms| - 1], defs, name)
    ensures Lookup(Finish(l, ms, defs), name) == AfterShips(l, ms, defs, name)
  {
    var init, m := ms[..|ms| - 1], ms[|ms| - 1];
    var f := Finish(l, init, defs);
    var e := Entry(l, name);
    ShipEntryOwn(e, ms, name, defs);
    ShipSeenLast(ms, name);
    AddShipLookup(f, m, defs(m), name);
    assert Entry(f, name) == e;
  }

  /** The step of `FinishLookup` for another team's mothership. */
  lemma FinishStepOther(l: Ledger, ms: seq<GameObject>, defs: GameObject -> nat, name: string)
    requires |ms| > 0 && ms[|ms| - 1].team != name
    requires Lookup(Finish(l, ms[..|ms| - 1], defs), name) == AfterShips(l, ms[..|ms| - 1], defs, name)
    ensures Lookup(Finish(l, ms, defs), name) == AfterShips(l, ms, defs, name)
  {
    var init, m := ms[..|ms| - 1], ms[|ms| - 1];
    ShipEntryOther(Entry(l, name), ms, name, defs);
    ShipSeenLast(ms, name);
    AddShipLookup(Finish(l, init, defs), m, defs(m), name);
  }

  /**
   * After the mothership loop: the record exists when it did before or a living mothership
   * of the team was seen; living motherships add their loads, and the team's mothership,
   * if there is one, fixes `defenders`.
   */
  lemma {:induction false} FinishLookup(l: Ledger, ms: seq<GameObject>, defs: GameObject -> nat, name: string)
    requires DistinctTeams(ms)
    ensures Lookup(Finish(l, ms, defs), name) ==
      if Lookup(l, name).None? && !ShipSeen(ms, name) then None
      else Some(ShipEntry(Entry(l, name), ms, name, defs))
  {
    if |ms| > 0 {
      DistinctTeamsInit(ms);
      FinishLookup(l, ms[..|ms| - 1], defs, name);
      if ms[|ms| - 1].team == name {
        FinishStepOwn(l, ms, defs, name);
      } else {
        FinishStepOther(l, ms, defs, name);
      }
    }
  }

  /** `get_game_data` as a value: the drone loop, then the mothership loop. */
  function GameData(w: World, env: Env): Ledger {
    Finish(Tally(w.drones), w.motherships, DefendersOf(w, env))
  }

  /** The defender count of the team's mothership, 0 for a team without one. */
  function Defenders(w: World, env: Env, name: string): nat {
    var ship := FirstIndex(w.motherships, TeamIs(name));
    if ship.Some? then DefenderCount(w, env, w.motherships[ship.value]) else 0
  }

  /** The report names each team once, under its own name. */
  lemma GameDataValid(w: World, env: Env)
    ensures Valid(GameData(w, env))
    ensures UniqueNames(Teams(GameData(w, env)))
  {
    TallyValid(w.drones);
    FinishValid(Tally(w.drones), w.motherships, DefendersOf(w, env));
    TeamsOfValid(GameData(w, env));
  }

  /**
   * What `get_game_data` reports. A team is listed exactly when it has a drone (alive or
   * not, `Seen`) or a living mothership (`ShipSeen`); `number_soldiers` counts its living
   * drones, `elirium` adds the loads of its living drones and living mothership, and
   * `defenders` is the size of `get_base_defender` for its mothership.
   */
  lemma GameDataEntry(w: World, env: Env, name: string)
    requires DistinctTeams(w.motherships)
    ensures Lookup(GameData(w, env), name) ==
      if Seen(w.drones, name) || ShipSeen(w.motherships, name)
      then Some(TeamData(name,
        Count(w.drones, AliveOf(name)),
        SumIf(w.drones, AliveOf(name), Payload) + SumIf(w.motherships, AliveOf(name), Payload),
        Defenders(w, env, name)))
      else None
  {
    var t := Tally(w.drones);
    TallyLookup(w.drones, name);
    if !Seen(w.drones, name) {
      UnseenIsEmpty(w.drones, name);
    }
    var e := DroneEntry(w.drones, name);
    assert Entry(t, name) == e;
    FinishLookup(t, w.motherships, DefendersOf(w, env), name);
    assert ShipEntry(e, w.motherships, name, DefendersOf(w, env)) == TeamData(name,
      Count(w.drones, AliveOf(name)),
      SumIf(w.drones, AliveOf(name), Payload) + SumIf(w.motherships, AliveOf(name), Payload),
      Defenders(w, env, name));
    assert GameData(w, env) == Finish(t, w.motherships, DefendersOf(w, env));
    assert Lookup(t, name).None? <==> !Seen(w.drones, name);
  }

  /** One more drone of the loop. */
  lemma TallyPrefix(ds: seq<GameObject>, i: nat)
    requires i < |ds|
    ensures Tally(ds[..i + 1]) == AddDrone(Tally(ds[..i]), ds[i])
  {
    assert ds[..i + 1][..i] == ds[..i];
  }

  /** One more mothership of the loop. */
  lemma FinishPrefix(l: Ledger, ms: seq<GameObject>, defs: GameObject -> nat, j: nat)
    requires j < |ms|
    ensures Finish(l, ms[..j + 1], defs) == AddShip(Finish(l, ms[..j], defs), ms[j], defs(ms[j]))
  {
    assert ms[..j + 1][..j] == ms[..j];
  }

  /** `CommandCenter.get_game_data`: the two loops over the scene. */
  method GetGameData(w: World, env: Env) returns (data: Ledger)
    ensures data == GameData(w, env)
  {
    data := Ledger([], map[]);
    var i := 0;
    while i < |w.drones|
      invariant 0 <= i <= |w.drones|
      invariant data == Tally(w.drones[..i])
    {
      TallyPrefix(w.drones, i);
      data := AddDrone(data, w.drones[i]);
      i := i + 1;
    }
    assert w.drones[..i] == w.drones;
    var j := 0;
    while j < |w.motherships|
      invariant 0 <= j <= |w.motherships|
      invariant data == Finish(Tally(w.drones), w.motherships[..j], DefendersOf(w, env))
    {
      FinishPrefix(Tally(w.drones), w.motherships, DefendersOf(w, env), j);
      var m := w.motherships[j];
      data := AddShip(data, m, DefenderCount(w, env, m));
      j := j + 1;
    }
    assert w.motherships[..j] == w.motherships;
  }

  function NameIs(name: string): TeamData -> bool {
    (t: TeamData) => t.name == name
  }

  function NegElirium(t: TeamData): real {
    -(t.elirium as real)
  }

  /** `sorted(game_data, key=elirium, reverse=True)`: richest first, ties in list order. */
  function ByElirium(data: seq<TeamData>): (r: seq<TeamData>)
    ensures multiset(r) == multiset(data) && |r| == |data|
    ensures forall i, j :: 0 <= i < j < |r| ==> r[i].elirium >= r[j].elirium
    ensures StableBy(r, data, NegElirium)
  {
    SortBy(data, NegElirium)
  }

  /**
   * The `enumerate` loop of `is_risk_game`: the position of this bot's team, or the last
   * position (0 for an empty list) when the loop runs out without a `break`.
   */
  function Place(ranked: seq<TeamData>): (n: nat)
    ensures FirstIndex(ranked, NameIs(OWN_TEAM)).Some? ==> n == FirstIndex(ranked, NameIs(OWN_TEAM)).value
    ensures FirstIndex(ranked, NameIs(OWN_TEAM)).None? ==> n == if |ranked| == 0 then 0 else |ranked| - 1
  {
    var k := FirstIndex(ranked, NameIs(OWN_TEAM));
    if k.Some? then k.value else if |ranked| == 0 then 0 else |ranked| - 1
  }

  /** `CommandCenter.is_risk_game`: below second place with at least four living drones. */
  predicate IsRiskGame(w: World, env: Env) {
    Place(ByElirium(Teams(GameData(w, env)))) > 1 && AliveTeammates(w) >= 4
  }

  /** With distinct names, a name picks out one record. */
  lemma SameNameSame(data: seq<TeamData>, x: TeamData, y: TeamData)
    requires UniqueNames(data) && x in data && y in data && x.name == y.name
    ensures x == y
  {
    var i :| 0 <= i < |data| && data[i] == x;
    var j :| 0 <= j < |data| && data[j] == y;
    if i < j {
      assert false;
    } else if j < i {
      assert false;
    }
  }

  /** Where a record of the list sits in its ranking. */
  lemma RankOf(data: seq<TeamData>, x: TeamData) returns (i: nat)
    requires x in data
    ensures i < |ByElirium(data)| && ByElirium(data)[i] == x
  {
    var r := ByElirium(data);
    assert x in multiset(data);
    assert x in multiset(r);
    i :| 0 <= i < |r| && r[i] == x;
  }

  /** This bot's team is ranked where its record is found. */
  lemma OwnPlace(data: seq<TeamData>, own: TeamData) returns (q: nat)
    requires UniqueNames(data) && own in data && own.name == OWN_TEAM
    ensures q == Place(ByElirium(data)) && q < |ByElirium(data)| && ByElirium(data)[q] == own
  {
    var r := ByElirium(data);
    var o := RankOf(data, own);
    var p := FirstIndex(r, NameIs(OWN_TEAM));
    assert NameIs(OWN_TEAM)(r[o]);
    q := p.value;
    assert r[q] in multiset(data);
    SameNameSame(data, r[q], own);
  }

  /**
   * Ranked below second place, the own team is preceded by two different teams holding at
   * least as much elirium.
   */
  lemma BehindTwoTeams(data: seq<TeamData>, own: TeamData)
    requires UniqueNames(data) && own in data && own.name == OWN_TEAM
    requires Place(ByElirium(data)) > 1
    ensures exists a, b :: (a in data && b in data && a != b &&
      a.name != OWN_TEAM && b.name != OWN_TEAM && a.elirium >= own.elirium && b.elirium >= own.elirium)
  {
    var r := ByElirium(data);
    var q := OwnPlace(data, own);
    forall i, j | 0 <= i < j < |data| ensures data[i] != data[j] {
      assert data[i].name != data[j].name;
    }
    DistinctOnce(data);
    if r[0] == r[1] {
      TwiceCounted(r, 0, 1);
      assert false;
    }
    assert r[0] in multiset(data) && r[1] in multiset(data);
    assert r[0].name != OWN_TEAM && r[1].name != OWN_TEAM by {
      var p := FirstIndex(r, NameIs(OWN_TEAM));
      assert !NameIs(OWN_TEAM)(r[0]) && !NameIs(OWN_TEAM)(r[1]);
    }
    assert r[0].elirium >= r[q].elirium && r[1].elirium >= r[q].elirium;
  }

  /** Two other teams holding strictly more elirium push the own team below second place. */
  lemma OutpacedByTwoTeams(data: seq<TeamData>, own: TeamData, a: TeamData, b: TeamData)
    requires UniqueNames(data) && own in data && own.name == OWN_TEAM
    requires a in data && b in data && a.name != b.name
    requires a.elirium > own.elirium && b.elirium > own.elirium
    ensures Place(ByElirium(data)) > 1
  {
    var r := ByElirium(data);
    var q := OwnPlace(data, own);
    var ia := RankOf(data, a);
    var ib := RankOf(data, b);
    RicherRanksFirst(r, ia, q);
    RicherRanksFirst(r, ib, q);
    assert ia != ib;
  }

  /** In a list ranked by elirium, a strictly richer record stands strictly earlier. */
  lemma RicherRanksFirst(r: seq<TeamData>, i: nat, j: nat)
    requires forall m, n :: 0 <= m < n < |r| ==> r[m].elirium >= r[n].elirium
    requires i < |r| && j < |r| && r[i].elirium > r[j].elirium
    ensures i < j
  {
  }
}
