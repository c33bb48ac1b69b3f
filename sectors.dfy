/**
 * The command centre's map of the field: the four quadrants, each tagged with the first
 * mothership inside it, whether it holds this bot's mothership, and whether it is the
 * quadrant straight ahead of the home base towards the centre of the field.
 */
module Sectors {
  import opened Wrappers
  import opened Geometry
  import opened Seqs
  import opened Snapshot

  /**
   * One entry of `CommandCenter.sectors`. `mothership` is the index of the sector's
   * mothership in the scene's list of motherships, `teamName` that mothership's team.
   */
  datatype Sector = Sector(
    front: bool,
    homeSector: bool,
    teamName: Option<string>,
    mothership: Option<nat>,
    corners: seq<Point>)

  /** `get_mship_in_sector`: the first mothership, in the scene's order, inside the corners' box. */
  function MshipInSector(w: World, corners: seq<Point>): (k: Option<nat>)
    requires |corners| > 0
    ensures k.None? <==> forall i :: 0 <= i < |w.motherships| ==> !InSector(corners, w.motherships[i].pos)
    ensures k.Some? ==> (k.value < |w.motherships| && InSector(corners, w.motherships[k.value].pos) &&
      forall i :: 0 <= i < k.value ==> !InSector(corners, w.motherships[i].pos))
  {
    FirstIndex(w.motherships, (m: GameObject) => InSector(corners, m.pos))
  }

  /**
   * The point `0.7 * diagonal` away from the home mothership in the direction of the
   * field's centre; the quadrants containing it are the "front".
   */
  function FrontPoint(w: World, env: Env, home: nat): Point
    requires home < |w.motherships|
  {
    var base := w.motherships[home].pos;
    env.shift(base, env.direction(base, CenterOfField(env.width, env.height)), 0.7 * env.diagonal)
  }

  /** The dictionary `get_sorted_sectors` appends for one quadrant. */
  function SectorOf(w: World, front: Point, home: nat, corners: seq<Point>): (s: Sector)
    requires |corners| > 0
    ensures s.corners == corners && s.mothership == MshipInSector(w, corners)
    ensures s.front <==> InSector(corners, front)
    ensures s.homeSector <==> s.mothership == Some(home)
    ensures s.teamName.Some? <==> s.mothership.Some?
    ensures s.mothership.Some? ==> s.teamName == Some(w.motherships[s.mothership.value].team)
  {
    var m := MshipInSector(w, corners);
    Sector(InSector(corners, front), m == Some(home),
           if m.Some? then Some(w.motherships[m.value].team) else None, m, corners)
  }

  /** `get_sorted_sectors` as a value: one sector per quadrant, in the quadrants' order. */
  function SortedSectors(w: World, env: Env, home: nat): (ss: seq<Sector>)
    requires home < |w.motherships|
    ensures |ss| == 4
    ensures forall k :: 0 <= k < 4 ==>
      ss[k] == SectorOf(w, FrontPoint(w, env, home), home, Quadrants(env.width, env.height)[k])
  {
    var qs := Quadrants(env.width, env.height);
    var fp := FrontPoint(w, env, home);
    seq(4, k requires 0 <= k < 4 => SectorOf(w, fp, home, qs[k]))
  }

  /** `CommandCenter.get_sorted_sectors`: the loop over `unsorted_sectors`. */
  method GetSortedSectors(w: World, env: Env, home: nat) returns (sectors: seq<Sector>)
    requires home < |w.motherships|
    ensures sectors == SortedSectors(w, env, home)
  {
    var qs := Quadrants(env.width, env.height);
    var fp := FrontPoint(w, env, home);
    ghost var all := SortedSectors(w, env, home);
    sectors := [];
    var k := 0;
    while k < |qs|
      invariant 0 <= k <= 4
      invariant sectors == all[..k]
    {
      assert all[..k + 1] == all[..k] + [all[k]];
      sectors := sectors + [SectorOf(w, fp, home, qs[k])];
      k := k + 1;
    }
    assert all[..4] == all;
  }

  /** A front point inside the field makes at least one sector the front. */
  lemma FrontSectorExists(w: World, env: Env, home: nat)
    requires home < |w.motherships|
    requires InField(env.width, env.height, FrontPoint(w, env, home))
    ensures exists k :: 0 <= k < 4 && SortedSectors(w, env, home)[k].front
  {
    var k := FieldPointInQuadrant(env.width, env.height, FrontPoint(w, env, home));
    assert SortedSectors(w, env, home)[k].front;
  }

  /** Every mothership in the field puts some sector under a mothership. */
  lemma ShipClaimsSector(w: World, env: Env, home: nat, i: nat)
    requires home < |w.motherships| && i < |w.motherships|
    requires InField(env.width, env.height, w.motherships[i].pos)
    ensures exists k :: 0 <= k < 4 && SortedSectors(w, env, home)[k].mothership.Some?
  {
    var k := FieldPointInQuadrant(env.width, env.height, w.motherships[i].pos);
    assert SortedSectors(w, env, home)[k].mothership.Some?;
  }

  /** `next((sector for sector in self.sectors if sector['front']), False)`. */
  function FrontSector(sectors: seq<Sector>): (f: Option<Sector>)
    ensures f.None? <==> forall k :: 0 <= k < |sectors| ==> !sectors[k].front
    ensures f.Some? ==> exists k :: (0 <= k < |sectors| && sectors[k] == f.value && sectors[k].front &&
      forall j :: 0 <= j < k ==> !sectors[j].front)
  {
    var k := FirstIndex(sectors, (s: Sector) => s.front);
    if k.Some? then Some(sectors[k.value]) else None
  }

  /** The team of the front sector; no front sector, or one without a mothership, has none. */
  function FrontTeam(sectors: seq<Sector>): Option<string> {
    var f := FrontSector(sectors);
    if f.Some? then f.value.teamName else None
  }

  /** `sector['mothership'] and sector['mothership'].is_alive`. */
  predicate ShipAlive(w: World, s: Sector) {
    s.mothership.Some? && s.mothership.value < |w.motherships| && w.motherships[s.mothership.value].alive
  }

  /** `sector['mothership'] and not sector['mothership'].is_alive`. */
  predicate ShipDead(w: World, s: Sector) {
    s.mothership.Some? && s.mothership.value < |w.motherships| && !w.motherships[s.mothership.value].alive
  }
}
