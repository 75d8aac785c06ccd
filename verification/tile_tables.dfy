/**
 * The image tables the brushes of the default world hand to the terrain
 * painter: `tileset_floor_terrain`, `tileset_floor_road` and
 * `tileset_wall_1` .. `tileset_wall_4` of js/default.js, and the plain
 * coordinate table `tileset_floor(left, top)` of js/default/terrain.js.
 *
 * A table entry is a candidate image: its cell on the sprite sheet, its
 * `flags` (absent when the entry has none) and the `noise` predicate that
 * gates it (none, one of the floor or path bands, or one of the cave
 * gates).  `Eligible` keeps the candidates whose gate holds at a cell; the
 * lemmas state which candidates that leaves.
 */
module TileTables {
  import opened Wrappers
  import opened NoiseBands
  import Terrain

  type FloorType = Terrain.FloorType

  /** The `noise` entry of a candidate; `Always` when it has none. */
  datatype Gate = Always | Floor(band: int) | Path(band: int) | Cave(drawn: bool)

  datatype Candidate = Candidate(x: int, y: int, flags: Option<seq<string>>, gate: Gate)

  /** A candidate with neither flags nor noise. */
  function Plain(x: int, y: int): Candidate {
    Candidate(x, y, None, Always)
  }

  /** The gate holds at cell (cx, cy) of `layer`, for the terrain noise `noise`. */
  predicate Passes(g: Gate, noise: (int, int) -> real, cx: int, cy: int, layer: int) {
    match g
    case Always => true
    case Floor(k) => FloorBand(k, noise(cx, cy))
    case Path(k) => PathBand(k, noise(cx, cy))
    case Cave(drawn) => if drawn then CaveTrue(noise, cx, cy, layer) else CaveFalse(noise, cx, cy, layer)
  }

  /** The candidates whose gates hold at a cell, in table order. */
  function Eligible(cs: seq<Candidate>, noise: (int, int) -> real, cx: int, cy: int, layer: int): (r: seq<Candidate>)
    ensures forall c :: c in r <==> c in cs && Passes(c.gate, noise, cx, cy, layer)
    ensures |r| <= |cs|
  {
    if cs == [] then []
    else (if Passes(cs[0].gate, noise, cx, cy, layer) then [cs[0]] else []) + Eligible(cs[1..], noise, cx, cy, layer)
  }

  /** Filtering distributes over concatenation. */
  lemma {:induction false} EligibleAppend(cs: seq<Candidate>, ds: seq<Candidate>, noise: (int, int) -> real, cx: int, cy: int, layer: int)
    ensures Eligible(cs + ds, noise, cx, cy, layer) == Eligible(cs, noise, cx, cy, layer) + Eligible(ds, noise, cx, cy, layer)
    decreases |cs|
  {
    if cs == [] {
      assert cs + ds == ds;
    } else {
      assert (cs + ds)[1..] == cs[1..] + ds;
      EligibleAppend(cs[1..], ds, noise, cx, cy, layer);
    }
  }

  lemma EligibleOne(c: Candidate, noise: (int, int) -> real, cx: int, cy: int, layer: int)
    ensures Eligible([c], noise, cx, cy, layer) == if Passes(c.gate, noise, cx, cy, layer) then [c] else []
  {
    assert [c][1..] == [];
  }

  /** Filtering a three-candidate list, candidate by candidate. */
  lemma EligibleThree(a: Candidate, b: Candidate, c: Candidate, noise: (int, int) -> real, cx: int, cy: int, layer: int)
    ensures Eligible([a, b, c], noise, cx, cy, layer)
            == Eligible([a], noise, cx, cy, layer) + Eligible([b], noise, cx, cy, layer) + Eligible([c], noise, cx, cy, layer)
  {
    assert [a, b, c] == [a] + [b] + [c];
    EligibleAppend([a] + [b], [c], noise, cx, cy, layer);
    EligibleAppend([a], [b], noise, cx, cy, layer);
  }

  /** When no candidate's gate holds, the filter keeps nothing. */
  lemma {:induction false} EligibleNone(cs: seq<Candidate>, noise: (int, int) -> real, cx: int, cy: int, layer: int)
    requires forall j :: 0 <= j < |cs| ==> !Passes(cs[j].gate, noise, cx, cy, layer)
    ensures Eligible(cs, noise, cx, cy, layer) == []
    decreases |cs|
  {
    if cs != [] {
      EligibleNone(cs[1..], noise, cx, cy, layer);
    }
  }

  /** When exactly one candidate's gate holds, the filter keeps that candidate alone. */
  lemma {:induction false} EligibleSingle(cs: seq<Candidate>, k: int, noise: (int, int) -> real, cx: int, cy: int, layer: int)
    requires 0 <= k < |cs| && Passes(cs[k].gate, noise, cx, cy, layer)
    requires forall j :: 0 <= j < |cs| && j != k ==> !Passes(cs[j].gate, noise, cx, cy, layer)
    ensures Eligible(cs, noise, cx, cy, layer) == [cs[k]]
    decreases |cs|
  {
    var rest := Eligible(cs[1..], noise, cx, cy, layer);
    if k == 0 {
      EligibleNone(cs[1..], noise, cx, cy, layer);
    } else {
      EligibleSingle(cs[1..], k - 1, noise, cx, cy, layer);
    }
  }

  /** The sheet cells of a list of candidates. */
  function Positions(cs: seq<Candidate>): (ps: seq<(int, int)>)
    ensures |ps| == |cs|
    ensures forall i :: 0 <= i < |cs| ==> ps[i] == (cs[i].x, cs[i].y)
  {
    seq(|cs|, i requires 0 <= i < |cs| => (cs[i].x, cs[i].y))
  }

  // ---------------------------------------------------------------------------
  // Floor tables
  // ---------------------------------------------------------------------------

  /** The four floor-centre candidates, one per band, tagged `flags`. */
  function CenterCandidates(x: int, y: int, flags: seq<string>): seq<Candidate> {
    [ Candidate(x + 1, y + 4, Some(flags), Floor(0)),
      Candidate(x + 0, y + 0, Some(flags), Floor(1)),
      Candidate(x + 1, y + 0, Some(flags), Floor(2)),
      Candidate(x + 2, y + 0, Some(flags), Floor(3)) ]
  }

  /** The two path candidates the edges share, tagged `flags`. */
  function PathCandidates(x: int, y: int, flags: seq<string>): seq<Candidate> {
    [ Candidate(x + 0, y + 1, Some(flags), Path(1)),
      Candidate(x + 0, y + 2, Some(flags), Path(2)) ]
  }

  /**
   * The floor table of `tileset_floor_terrain(x, y, kind)` with
   * `floorFlags = [kind, "floor"]` and `pathFlags = [kind, "path"]`; the
   * LPC builder fills the same table with its own flags.  Neither has a
   * "single" entry.
   */
  function FloorTable(x: int, y: int, floorFlags: seq<string>, pathFlags: seq<string>, role: FloorType): Option<seq<Candidate>> {
    match role
    case Center => Some(CenterCandidates(x, y, floorFlags))
    case Single => None
    case Top => Some(PathCandidates(x, y, pathFlags) + [Plain(x + 1, y + 3)])
    case Bottom => Some([Plain(x + 1, y + 5)])
    case Left => Some(PathCandidates(x, y, pathFlags) + [Plain(x + 0, y + 4)])
    case Right => Some(PathCandidates(x, y, pathFlags) + [Plain(x + 2, y + 4)])
    case InTopLeft => Some([Plain(x + 1, y + 1)])
    case InTopRight => Some([Plain(x + 2, y + 1)])
    case InBottomLeft => Some([Plain(x + 1, y + 2)])
    case InBottomRight => Some([Plain(x + 2, y + 2)])
    case OutTopLeft => Some([Plain(x + 0, y + 3)])
    case OutTopRight => Some([Plain(x + 2, y + 3)])
    case OutBottomLeft => Some([Plain(x + 0, y + 5)])
    case OutBottomRight => Some([Plain(x + 2, y + 5)])
  }

  function FloorTerrain(x: int, y: int, kind: string, role: FloorType): Option<seq<Candidate>> {
    FloorTable(x, y, [kind, "floor"], [kind, "path"], role)
  }

  /**
   * `tileset_floor_road(x, y, kind)`: the centre is tagged as road, every
   * edge (the bottom one included) puts its plain piece first and offers
   * gravel after it; the corners are those of the terrain table.
   */
  function FloorRoad(x: int, y: int, kind: string, role: FloorType): Option<seq<Candidate>> {
    var gravel := PathCandidates(x, y, [kind, "gravel"]);
    match role
    case Center => Some(CenterCandidates(x, y, [kind, "floor", "road"]))
    case Top => Some([Plain(x + 1, y + 3)] + gravel)
    case Bottom => Some([Plain(x + 1, y + 5)] + gravel)
    case Left => Some([Plain(x + 0, y + 4)] + gravel)
    case Right => Some([Plain(x + 2, y + 4)] + gravel)
    case _ => FloorTable(x, y, [], [], role)
  }

  /**
   * At a cell whose noise lies in (0, 1] exactly one centre candidate is
   * eligible, the one of the band holding the noise; elsewhere none is.
   */
  lemma CenterPicksOneBand(x: int, y: int, flags: seq<string>, noise: (int, int) -> real, cx: int, cy: int, layer: int)
    ensures var n := noise(cx, cy);
            0.0 < n <= 1.0 ==>
              Eligible(CenterCandidates(x, y, flags), noise, cx, cy, layer)
              == [CenterCandidates(x, y, flags)[FloorBandOf(n).value]]
    ensures var n := noise(cx, cy);
            !(0.0 < n <= 1.0) ==> Eligible(CenterCandidates(x, y, flags), noise, cx, cy, layer) == []
  {
    var cs := CenterCandidates(x, y, flags);
    var n := noise(cx, cy);
    assert forall j :: 0 <= j < |cs| ==> cs[j].gate == Floor(j);
    var r := Eligible(cs, noise, cx, cy, layer);
    if 0.0 < n <= 1.0 {
      var k := FloorBandOf(n).value;
      EligibleSingle(cs, k, noise, cx, cy, layer);
    } else {
      EligibleNone(cs, noise, cx, cy, layer);
    }
  }

  /**
   * An edge of either floor table always offers its plain piece, and a
   * path (or gravel) piece besides exactly where the noise lies in (0, 0.1].
   */
  lemma EdgeOffersPathBelowTenth(x: int, y: int, kind: string, role: FloorType, road: bool,
                                 noise: (int, int) -> real, cx: int, cy: int, layer: int)
    requires role in {Terrain.Top, Terrain.Left, Terrain.Right} || (road && role == Terrain.Bottom)
    ensures var t := if road then FloorRoad(x, y, kind, role) else FloorTerrain(x, y, kind, role);
            t.Some? && |t.value| == 3
            && |Eligible(t.value, noise, cx, cy, layer)| == (if 0.0 < noise(cx, cy) <= 0.1 then 2 else 1)
  {
    if road {
      var t := FloorRoad(x, y, kind, role).value;
      assert t == [t[0], t[1], t[2]];
      PlainAndPaths(t[1], t[2], t[0], noise, cx, cy, layer);
    } else {
      var t := FloorTerrain(x, y, kind, role).value;
      assert t == [t[0], t[1], t[2]];
      PlainAndPaths(t[0], t[1], t[2], noise, cx, cy, layer);
    }
  }

  /** A plain piece and the two path bands, in either of the two orders the tables use. */
  lemma PlainAndPaths(p1: Candidate, p2: Candidate, plain: Candidate, noise: (int, int) -> real, cx: int, cy: int, layer: int)
    requires p1.gate == Path(1) && p2.gate == Path(2) && plain.gate == Always
    ensures |Eligible([p1, p2, plain], noise, cx, cy, layer)| == (if 0.0 < noise(cx, cy) <= 0.1 then 2 else 1)
    ensures |Eligible([plain, p1, p2], noise, cx, cy, layer)| == (if 0.0 < noise(cx, cy) <= 0.1 then 2 else 1)
  {
    var n := PassingPaths(p1, p2, noise, cx, cy, layer);
    var e := Eligible([plain], noise, cx, cy, layer);
    assert |e| == 1 by { EligibleOne(plain, noise, cx, cy, layer); }
    assert |Eligible([p1, p2, plain], noise, cx, cy, layer)| == n + 1 by {
      EligibleThree(p1, p2, plain, noise, cx, cy, layer);
    }
    assert |Eligible([plain, p1, p2], noise, cx, cy, layer)| == 1 + n by {
      EligibleThree(plain, p1, p2, noise, cx, cy, layer);
    }
  }

  /** How many of the two path candidates pass: one inside (0, 0.1], none elsewhere. */
  lemma PassingPaths(p1: Candidate, p2: Candidate, noise: (int, int) -> real, cx: int, cy: int, layer: int) returns (n: nat)
    requires p1.gate == Path(1) && p2.gate == Path(2)
    ensures n == |Eligible([p1], noise, cx, cy, layer)| + |Eligible([p2], noise, cx, cy, layer)|
    ensures n == if 0.0 < noise(cx, cy) <= 0.1 then 1 else 0
  {
    EligibleOne(p1, noise, cx, cy, layer);
    EligibleOne(p2, noise, cx, cy, layer);
    PathBands(noise(cx, cy));
    n := |Eligible([p1], noise, cx, cy, layer)| + |Eligible([p2], noise, cx, cy, layer)|;
  }

  /**
   * Flags follow gates in the terrain table: band-gated centres carry
   * `[kind, "floor"]`, path candidates `[kind, "path"]`, ungated pieces no
   * flags.
   */
  lemma TerrainFlags(x: int, y: int, kind: string, role: FloorType, c: Candidate)
    requires FloorTerrain(x, y, kind, role).Some? && c in FloorTerrain(x, y, kind, role).value
    ensures c.gate.Floor? <==> c.flags == Some([kind, "floor"])
    ensures c.gate.Path? <==> c.flags == Some([kind, "path"])
    ensures c.gate.Always? <==> c.flags.None?
    ensures !c.gate.Cave?
  {
    assert [kind, "floor"] != [kind, "path"] by { assert [kind, "floor"][1] != [kind, "path"][1]; }
  }

  /** The road table tags its centres `[kind, "floor", "road"]` and its gravel `[kind, "gravel"]`. */
  lemma RoadFlags(x: int, y: int, kind: string, role: FloorType, c: Candidate)
    requires FloorRoad(x, y, kind, role).Some? && c in FloorRoad(x, y, kind, role).value
    ensures c.gate.Floor? <==> c.flags == Some([kind, "floor", "road"])
    ensures c.gate.Path? <==> c.flags == Some([kind, "gravel"])
    ensures c.gate.Always? <==> c.flags.None?
    ensures !c.gate.Cave?
  {
  }

  // ---------------------------------------------------------------------------
  // tileset_floor(left, top), js/default/terrain.js
  // ---------------------------------------------------------------------------

  /** The sheet cells of each role; the block's top-left corner is (3 left, 6 top). */
  function Sheet(left: int, top: int, role: FloorType): (cs: seq<(int, int)>)
    ensures |cs| == (if role == Terrain.Center then 4 else if role == Terrain.Single then 2 else 1)
    ensures forall i :: 0 <= i < |cs| ==>
              3 * left <= cs[i].0 <= 3 * left + 2 && 6 * top <= cs[i].1 <= 6 * top + 5
  {
    var x := left * 3;
    var y := top * 6;
    match role
    case Center => [(x + 1, y + 4), (x + 0, y + 0), (x + 1, y + 0), (x + 2, y + 0)]
    case Single => [(x + 0, y + 1), (x + 0, y + 2)]
    case Top => [(x + 1, y + 3)]
    case Right => [(x + 2, y + 4)]
    case Bottom => [(x + 1, y + 5)]
    case Left => [(x + 0, y + 4)]
    case OutTopLeft => [(x + 0, y + 3)]
    case OutTopRight => [(x + 2, y + 3)]
    case OutBottomRight => [(x + 2, y + 5)]
    case OutBottomLeft => [(x + 0, y + 5)]
    case InTopLeft => [(x + 1, y + 1)]
    case InTopRight => [(x + 2, y + 1)]
    case InBottomLeft => [(x + 1, y + 2)]
    case InBottomRight => [(x + 2, y + 2)]
  }

  /** Which role, and which of its candidates, sits at offset (dx, dy) of the 3 x 6 block. */
  function SheetOwner(dx: int, dy: int): (FloorType, nat)
    requires 0 <= dx < 3 && 0 <= dy < 6
  {
    match (dx, dy)
    case (0, 0) => (Terrain.Center, 1)
    case (1, 0) => (Terrain.Center, 2)
    case (2, 0) => (Terrain.Center, 3)
    case (0, 1) => (Terrain.Single, 0)
    case (1, 1) => (Terrain.InTopLeft, 0)
    case (2, 1) => (Terrain.InTopRight, 0)
    case (0, 2) => (Terrain.Single, 1)
    case (1, 2) => (Terrain.InBottomLeft, 0)
    case (2, 2) => (Terrain.InBottomRight, 0)
    case (0, 3) => (Terrain.OutTopLeft, 0)
    case (1, 3) => (Terrain.Top, 0)
    case (2, 3) => (Terrain.OutTopRight, 0)
    case (0, 4) => (Terrain.Left, 0)
    case (1, 4) => (Terrain.Center, 0)
    case (2, 4) => (Terrain.Right, 0)
    case (0, 5) => (Terrain.OutBottomLeft, 0)
    case (1, 5) => (Terrain.Bottom, 0)
    case (_, _) => (Terrain.OutBottomRight, 0)
  }

  /** Every cell of the block is the candidate `SheetOwner` names. */
  lemma SheetCoversBlock(left: int, top: int, dx: int, dy: int)
    requires 0 <= dx < 3 && 0 <= dy < 6
    ensures var (role, i) := SheetOwner(dx, dy);
            i < |Sheet(left, top, role)| && Sheet(left, top, role)[i] == (3 * left + dx, 6 * top + dy)
  {
  }

  /**
   * Every candidate is the one `SheetOwner` names at its cell; with
   * `SheetCoversBlock` this makes the 18 candidates of the 14 roles cover
   * each cell of the block exactly once.
   */
  lemma SheetEntriesDistinct(left: int, top: int, role: FloorType, i: int)
    requires 0 <= i < |Sheet(left, top, role)|
    ensures var (cx, cy) := Sheet(left, top, role)[i];
            SheetOwner(cx - 3 * left, cy - 6 * top) == (role, i)
  {
  }

  /**
   * The terrain table of default.js at the block of `tileset_floor(left, top)`
   * uses its cells: the top, left and right edges prepend the two "single"
   * cells (as path candidates), every other role has exactly its cells, and
   * "single" has no entry.
   */
  lemma TerrainTableOnSheet(left: int, top: int, kind: string, role: FloorType)
    ensures FloorTerrain(3 * left, 6 * top, kind, role).None? <==> role == Terrain.Single
    ensures role in {Terrain.Top, Terrain.Left, Terrain.Right} ==>
              Positions(FloorTerrain(3 * left, 6 * top, kind, role).value)
              == Sheet(left, top, Terrain.Single) + Sheet(left, top, role)
    ensures role !in {Terrain.Single, Terrain.Top, Terrain.Left, Terrain.Right} ==>
              Positions(FloorTerrain(3 * left, 6 * top, kind, role).value) == Sheet(left, top, role)
  {
    assert left * 3 == 3 * left && top * 6 == 6 * top;
  }

  /** The road table uses the same cells, with the "single" cells after each edge's own cell. */
  lemma RoadTableOnSheet(left: int, top: int, kind: string, role: FloorType)
    ensures FloorRoad(3 * left, 6 * top, kind, role).None? <==> role == Terrain.Single
    ensures role in {Terrain.Top, Terrain.Bottom, Terrain.Left, Terrain.Right} ==>
              Positions(FloorRoad(3 * left, 6 * top, kind, role).value)
              == Sheet(left, top, role) + Sheet(left, top, Terrain.Single)
    ensures role !in {Terrain.Single, Terrain.Top, Terrain.Bottom, Terrain.Left, Terrain.Right} ==>
              Positions(FloorRoad(3 * left, 6 * top, kind, role).value) == Sheet(left, top, role)
  {
    assert left * 3 == 3 * left && top * 6 == 6 * top;
  }

  // ---------------------------------------------------------------------------
  // Wall tables: tileset_wall_1 .. tileset_wall_4
  // ---------------------------------------------------------------------------

  /** One list of candidates per course of the wall, top course first, for each of the three columns. */
  datatype WallTable = WallTable(left: seq<seq<Candidate>>, middle: seq<seq<Candidate>>, right: seq<seq<Candidate>>)

  /**
   * The wall table of `height` courses (1 to 4) anchored at (x, y); the
   * LPC builder fills the same table with its own flags.  Walls of three
   * or four courses gate the middle of their two lowest courses on the
   * cave noise: the wall piece where there is no cave, the cave mouth from
   * column x where there is one.
   */
  function Walls(height: int, x: int, y: int, wallFlags: seq<string>, caveFlags: seq<string>): (t: WallTable)
    requires 1 <= height <= 4
    ensures |t.left| == |t.middle| == |t.right| == height
    ensures forall i :: 0 <= i < height ==>
              |t.left[i]| == 1 && t.left[i][0] == Plain(x, t.left[i][0].y)
              && |t.right[i]| == 1 && t.right[i][0] == Plain(x + 2, t.left[i][0].y)
              && 1 <= |t.middle[i]| && t.middle[i][0].x == x + 1 && t.middle[i][0].y == t.left[i][0].y
              && t.middle[i][0].flags == Some(wallFlags)
    ensures forall i :: 0 <= i < height ==>
              if 3 <= height && height - 2 <= i then
                |t.middle[i]| == 2 && t.middle[i][0].gate == Cave(false) && t.middle[i][1].gate == Cave(true)
                && t.middle[i][1].x == x
              else
                |t.middle[i]| == 1 && t.middle[i][0].gate == Always
  {
    var w := Some(wallFlags);
    if height == 1 then
      WallTable([[Plain(x + 0, y + 0)]],
                [[Candidate(x + 1, y + 0, w, Always)]],
                [[Plain(x + 2, y + 0)]])
    else if height == 2 then
      WallTable([[Plain(x + 0, y + 1)], [Plain(x + 0, y + 3)]],
                [[Candidate(x + 1, y + 1, w, Always)], [Candidate(x + 1, y + 3, w, Always)]],
                [[Plain(x + 2, y + 1)], [Plain(x + 2, y + 3)]])
    else if height == 3 then
      WallTable([[Plain(x + 0, y + 1)], [Plain(x + 0, y + 2)], [Plain(x + 0, y + 3)]],
                [[Candidate(x + 1, y + 1, w, Always)],
                 [Candidate(x + 1, y + 2, w, Cave(false)), Candidate(x + 0, y + 4, w, Cave(true))],
                 [Candidate(x + 1, y + 3, w, Cave(false)), Candidate(x + 0, y + 5, Some(caveFlags), Cave(true))]],
                [[Plain(x + 2, y + 1)], [Plain(x + 2, y + 2)], [Plain(x + 2, y + 3)]])
    else
      WallTable([[Plain(x + 0, y + 1)], [Plain(x + 0, y + 2)], [Plain(x + 0, y + 2)], [Plain(x + 0, y + 3)]],
                [[Candidate(x + 1, y + 1, w, Always)],
                 [Candidate(x + 1, y + 2, w, Always)],
                 [Candidate(x + 1, y + 2, w, Cave(false)), Candidate(x + 0, y + 4, w, Cave(true))],
                 [Candidate(x + 1, y + 3, w, Cave(false)), Candidate(x + 0, y + 5, Some(caveFlags), Cave(true))]],
                [[Plain(x + 2, y + 1)], [Plain(x + 2, y + 2)], [Plain(x + 2, y + 2)], [Plain(x + 2, y + 3)]])
  }

  /** The courses run down the sheet from the anchor row, within four rows of it. */
  lemma WallCoursesDescend(height: int, x: int, y: int, wallFlags: seq<string>, caveFlags: seq<string>)
    requires 1 <= height <= 4
    ensures var t := Walls(height, x, y, wallFlags, caveFlags);
            (forall i, j :: 0 <= i < j < height ==> t.left[i][0].y <= t.left[j][0].y)
            && (forall i :: 0 <= i < height ==> y <= t.left[i][0].y <= y + 3)
  {
  }

  /** `tileset_wall_N(x, y, kind)` for N = `height`. */
  function TilesetWall(height: int, x: int, y: int, kind: string): WallTable
    requires 1 <= height <= 4
  {
    Walls(height, x, y, [kind, "wall"], [kind, "cave"])
  }

  /**
   * Every middle course offers exactly one eligible candidate at any cell:
   * the two-candidate courses are the two lowest of a wall of at least
   * three, and there the cave mouth is chosen exactly where `cave_true`
   * holds, the same for every cell of the column.
   */
  lemma WallCoursesGated(height: int, x: int, y: int, wallFlags: seq<string>, caveFlags: seq<string>, i: int,
                         noise: (int, int) -> real, cx: int, cy: int, layer: int, cy': int, layer': int)
    requires 1 <= height <= 4 && 0 <= i < height
    ensures var row := Walls(height, x, y, wallFlags, caveFlags).middle[i];
            |Eligible(row, noise, cx, cy, layer)| == 1
            && (|row| == 2 <==> 3 <= height && height - 2 <= i)
            && (|row| == 2 ==> (Eligible(row, noise, cx, cy, layer)[0] == row[1] <==> CaveTrue(noise, cx, cy, layer)))
            && Eligible(row, noise, cx, cy, layer) == Eligible(row, noise, cx, cy', layer')
  {
    var row := Walls(height, x, y, wallFlags, caveFlags).middle[i];
    if |row| == 2 {
      CaveCourse(row[0], row[1], noise, cx, cy, layer, cy', layer');
      assert row == [row[0], row[1]];
    } else {
      EligibleOne(row[0], noise, cx, cy, layer);
      EligibleOne(row[0], noise, cx, cy', layer');
      assert row == [row[0]];
    }
  }

  /** A course gated on the cave: the wall piece or the mouth, whichever the column's cave noise picks. */
  lemma CaveCourse(wall: Candidate, mouth: Candidate, noise: (int, int) -> real, cx: int, cy: int, layer: int, cy': int, layer': int)
    requires wall.gate == Cave(false) && mouth.gate == Cave(true) && wall != mouth
    ensures Eligible([wall, mouth], noise, cx, cy, layer) == (if CaveTrue(noise, cx, cy, layer) then [mouth] else [wall])
    ensures Eligible([wall, mouth], noise, cx, cy, layer) == Eligible([wall, mouth], noise, cx, cy', layer')
  {
    CaveGates(noise, cx, cy, layer, cy', layer');
    assert [wall, mouth] == [wall] + [mouth];
    EligibleAppend([wall], [mouth], noise, cx, cy, layer);
    EligibleAppend([wall], [mouth], noise, cx, cy', layer');
    EligibleOne(wall, noise, cx, cy, layer);
    EligibleOne(wall, noise, cx, cy', layer');
    EligibleOne(mouth, noise, cx, cy, layer);
    EligibleOne(mouth, noise, cx, cy', layer');
  }

  /** The cave mouth of the lowest course, and only it, carries the cave flags. */
  lemma CaveMouthFlags(height: int, x: int, y: int, wallFlags: seq<string>, caveFlags: seq<string>, i: int, k: int)
    requires 1 <= height <= 4
    requires 0 <= i < height && 0 <= k < |Walls(height, x, y, wallFlags, caveFlags).middle[i]|
    ensures var c := Walls(height, x, y, wallFlags, caveFlags).middle[i][k];
            c.flags == (if i == height - 1 && k == 1 then Some(caveFlags) else Some(wallFlags))
  {
  }
}
