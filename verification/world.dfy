/**
 * The bookkeeping of `World` (js/engine/world.js): the data registries,
 * the map grid built by `spawn_map_group`, the lookup `map_at_grid`,
 * `spawn_actor_player`, and the index of spawn positions built by `load`.
 *
 * The temperature `Math.sin((x + WORLD_SEED) * (y + WORLD_SEED))` is a
 * function `temp(x, y)`.  The `Map` and `ActorPlayer` constructors are not
 * part of this model: a spawned map is recorded by its template and grid
 * position, a spawned player by its settings and camera flag.
 */
module World {
  import opened Wrappers
  import Geometry

  // ---------------------------------------------------------------------------
  // register_data_map, register_data_actor
  // ---------------------------------------------------------------------------

  /** Stores `settings` under `name`, replacing any earlier entry of that name. */
  function Register<T>(registry: map<string, T>, name: string, settings: T): (r: map<string, T>)
    ensures name in r && r[name] == settings
    ensures r.Keys == registry.Keys + {name}
    ensures forall n :: n in registry && n != name ==> r[n] == registry[n]
  {
    registry[name := settings]
  }

  /** Registering a name twice keeps only the second settings; distinct names do not interfere. */
  lemma RegisterOverwrites<T>(registry: map<string, T>, name: string, other: string, a: T, b: T)
    ensures Register(Register(registry, name, a), name, b) == Register(registry, name, b)
    ensures name != other ==>
              Register(Register(registry, name, a), other, b) == Register(Register(registry, other, b), name, a)
  {
    assert registry[name := a][name := b] == registry[name := b];
    if name != other {
      assert registry[name := a][other := b] == registry[other := b][name := a];
    }
  }

  // ---------------------------------------------------------------------------
  // spawn_actor_player
  // ---------------------------------------------------------------------------

  /** A spawned player: the registered settings (`undefined` when the name is unknown) and the camera flag. */
  datatype Player<T> = Player(settings: Option<T>, camera: bool)

  function SpawnActorPlayer<T>(actors: seq<Player<T>>, registry: map<string, T>, name: string): (r: seq<Player<T>>)
    ensures |r| == |actors| + 1 && r[..|actors|] == actors
    ensures r[|actors|].camera
    ensures r[|actors|].settings.Some? <==> name in registry
  {
    var settings := if name in registry then Some(registry[name]) else None;
    actors + [Player(settings, true)]
  }

  /** A player spawned right after its data was registered gets exactly that data. */
  lemma SpawnAfterRegister<T>(actors: seq<Player<T>>, registry: map<string, T>, name: string, settings: T)
    ensures SpawnActorPlayer(actors, Register(registry, name, settings), name)[|actors|] == Player(Some(settings), true)
  {
  }

  // ---------------------------------------------------------------------------
  // spawn_map_group: choosing a template for one grid cell
  // ---------------------------------------------------------------------------

  /** The temperature range of a registered map. */
  datatype MapTemplate = MapTemplate(tempMin: real, tempMax: real)

  /** The fields of a map group the loop reads. */
  datatype MapGroup = MapGroup(mapsX: int, mapsY: int, names: seq<string>, height: Option<int>)

  predicate InRange(t: MapTemplate, temp: real) {
    t.tempMin <= temp <= t.tempMax
  }

  /**
   * The outcome of the inner loop over `data.maps` for one temperature: the
   * index of the first template whose range holds it, no match, or the index
   * of a name that is not registered, where reading `temp_min` of
   * `undefined` throws.
   */
  datatype Choice = Chosen(index: nat) | NoTemplate | Unregistered(index: nat)

  /** Name i is registered and its range does not hold `temp`. */
  predicate Skipped(names: seq<string>, registry: map<string, MapTemplate>, temp: real, i: int)
    requires 0 <= i < |names|
  {
    names[i] in registry && !InRange(registry[names[i]], temp)
  }

  function FirstTemplateFrom(names: seq<string>, registry: map<string, MapTemplate>, temp: real, i: nat): (r: Choice)
    requires i <= |names|
    ensures r.Chosen? ==>
              i <= r.index < |names| && names[r.index] in registry && InRange(registry[names[r.index]], temp)
              && forall j :: i <= j < r.index ==> Skipped(names, registry, temp, j)
    ensures r.Unregistered? ==>
              i <= r.index < |names| && names[r.index] !in registry
              && forall j :: i <= j < r.index ==> Skipped(names, registry, temp, j)
    ensures r.NoTemplate? <==> forall j :: i <= j < |names| ==> Skipped(names, registry, temp, j)
    decreases |names| - i
  {
    if i == |names| then NoTemplate
    else if names[i] !in registry then
      assert !Skipped(names, registry, temp, i);
      Unregistered(i)
    else if InRange(registry[names[i]], temp) then
      assert !Skipped(names, registry, temp, i);
      Chosen(i)
    else FirstTemplateFrom(names, registry, temp, i + 1)
  }

  function FirstTemplate(names: seq<string>, registry: map<string, MapTemplate>, temp: real): Choice {
    FirstTemplateFrom(names, registry, temp, 0)
  }

  /**
   * When every name is registered, the choice is the least index whose
   * range holds the temperature: with overlapping ranges such as [-1, 0]
   * and [0, 1], a temperature of 0 always picks the earlier name.
   */
  lemma FirstMatchWins(names: seq<string>, registry: map<string, MapTemplate>, temp: real, k: nat)
    requires forall j :: 0 <= j < |names| ==> names[j] in registry
    requires k < |names| && InRange(registry[names[k]], temp)
    ensures FirstTemplate(names, registry, temp).Chosen?
    ensures FirstTemplate(names, registry, temp).index <= k
  {
    assert !Skipped(names, registry, temp, k);
  }

  // ---------------------------------------------------------------------------
  // spawn_map_group: the grid loop
  // ---------------------------------------------------------------------------

  /** A spawned map: the registered name and template it was built from, and its grid position. */
  datatype MapInstance = MapInstance(name: string, template: MapTemplate, x: int, y: int, z: Option<int>)

  predicate InGroup(g: MapGroup, x: int, y: int) {
    0 <= x < g.mapsX && 0 <= y < g.mapsY
  }

  /** Cell (x1, y1) is visited before (x2, y2): columns outermost, rows innermost. */
  predicate Before(x1: int, y1: int, x2: int, y2: int) {
    x1 < x2 || (x1 == x2 && y1 < y2)
  }

  function CellChoice(g: MapGroup, registry: map<string, MapTemplate>, temp: (int, int) -> real, x: int, y: int): Choice {
    FirstTemplate(g.names, registry, temp(x, y))
  }

  /** The map the loop builds for a cell whose choice is `Chosen(i)`. */
  function Spawned(g: MapGroup, registry: map<string, MapTemplate>, x: int, y: int, i: nat): MapInstance
    requires i < |g.names| && g.names[i] in registry
  {
    MapInstance(g.names[i], registry[g.names[i]], x, y, g.height)
  }

  /** `m` is the map the loop builds for its own cell. */
  predicate SpawnedAtOwnCell(g: MapGroup, registry: map<string, MapTemplate>, temp: (int, int) -> real, m: MapInstance) {
    InGroup(g, m.x, m.y)
    && var c := CellChoice(g, registry, temp, m.x, m.y);
       c.Chosen? && m == Spawned(g, registry, m.x, m.y, c.index)
  }

  /** Some map of `ms` sits at cell (x, y). */
  predicate HasCell(ms: seq<MapInstance>, x: int, y: int) {
    exists i :: 0 <= i < |ms| && ms[i].x == x && ms[i].y == y
  }

  lemma HasCellAppend(ms: seq<MapInstance>, m: MapInstance)
    ensures forall x, y :: HasCell(ms, x, y) ==> HasCell(ms + [m], x, y)
    ensures HasCell(ms + [m], m.x, m.y)
  {
    assert (ms + [m])[|ms|] == m;
    forall x, y | HasCell(ms, x, y)
      ensures HasCell(ms + [m], x, y)
    {
      var i :| 0 <= i < |ms| && ms[i].x == x && ms[i].y == y;
      assert (ms + [m])[i] == ms[i];
    }
  }

  /**
   * The state of the grid loop on reaching cell (x, y): `spawned` holds the
   * maps of the earlier cells, in visiting order and one per cell whose
   * choice is a template, and no earlier cell named an unregistered map.
   */
  ghost predicate Progress(g: MapGroup, registry: map<string, MapTemplate>, temp: (int, int) -> real,
                     spawned: seq<MapInstance>, x: int, y: int) {
    (forall i :: 0 <= i < |spawned| ==>
       SpawnedAtOwnCell(g, registry, temp, spawned[i]) && Before(spawned[i].x, spawned[i].y, x, y))
    && (forall i, j :: 0 <= i < j < |spawned| ==> Before(spawned[i].x, spawned[i].y, spawned[j].x, spawned[j].y))
    && (forall x', y' :: InGroup(g, x', y') && Before(x', y', x, y) ==> !CellChoice(g, registry, temp, x', y').Unregistered?)
    && (forall x', y' :: InGroup(g, x', y') && Before(x', y', x, y) && CellChoice(g, registry, temp, x', y').Chosen?
          ==> HasCell(spawned, x', y'))
  }

  /** The maps after visiting cell (x, y): one more when a template is chosen there. */
  function VisitCell(g: MapGroup, registry: map<string, MapTemplate>, temp: (int, int) -> real,
                     spawned: seq<MapInstance>, x: int, y: int): seq<MapInstance> {
    var c := CellChoice(g, registry, temp, x, y);
    if c.Chosen? then spawned + [Spawned(g, registry, x, y, c.index)] else spawned
  }

  lemma ProgressStep(g: MapGroup, registry: map<string, MapTemplate>, temp: (int, int) -> real,
                     spawned: seq<MapInstance>, x: int, y: int)
    requires InGroup(g, x, y) && Progress(g, registry, temp, spawned, x, y)
    requires !CellChoice(g, registry, temp, x, y).Unregistered?
    ensures Progress(g, registry, temp, VisitCell(g, registry, temp, spawned, x, y), x, y + 1)
  {
    var c := CellChoice(g, registry, temp, x, y);
    if c.Chosen? {
      var m := Spawned(g, registry, x, y, c.index);
      HasCellAppend(spawned, m);
      var next := spawned + [m];
      assert next[|spawned|] == m;
      assert forall i :: 0 <= i < |spawned| ==> next[i] == spawned[i];
    }
  }

  lemma ProgressColumn(g: MapGroup, registry: map<string, MapTemplate>, temp: (int, int) -> real,
                       spawned: seq<MapInstance>, x: int, y: int)
    requires Progress(g, registry, temp, spawned, x, y)
    requires y == g.mapsY || (g.mapsY < 0 && y == 0)
    ensures Progress(g, registry, temp, spawned, x + 1, 0)
  {
  }

  /**
   * The loop throws at cell (x, y): the first cell, in visiting order, whose
   * choice reaches an unregistered name, with the map of every earlier cell
   * whose choice is a template already in `spawned` and no map of this cell
   * or a later one.
   */
  ghost predicate ThrowsAt(g: MapGroup, registry: map<string, MapTemplate>, temp: (int, int) -> real,
                           spawned: seq<MapInstance>, x: int, y: int) {
    InGroup(g, x, y) && CellChoice(g, registry, temp, x, y).Unregistered?
    && (forall i :: 0 <= i < |spawned| ==> Before(spawned[i].x, spawned[i].y, x, y))
    && (forall x', y' :: InGroup(g, x', y') && Before(x', y', x, y) ==> !CellChoice(g, registry, temp, x', y').Unregistered?)
    && (forall x', y' :: InGroup(g, x', y') && Before(x', y', x, y) && CellChoice(g, registry, temp, x', y').Chosen?
          ==> HasCell(spawned, x', y'))
  }

  /**
   * `spawn_map_group(data)`: appends one map for every cell whose
   * temperature some template accepts, in x-major order.  `ok` is false
   * when an unregistered name was reached: the call throws at the first
   * such cell, and the maps appended for earlier cells stay in the list.
   */
  method SpawnMapGroup(maps: seq<MapInstance>, registry: map<string, MapTemplate>, g: MapGroup, temp: (int, int) -> real)
    returns (result: seq<MapInstance>, ok: bool)
    ensures |result| >= |maps| && result[..|maps|] == maps
    ensures forall i :: |maps| <= i < |result| ==> SpawnedAtOwnCell(g, registry, temp, result[i])
    ensures forall i, j :: |maps| <= i < j < |result| ==> Before(result[i].x, result[i].y, result[j].x, result[j].y)
    ensures ok <==> forall x, y :: InGroup(g, x, y) ==> !CellChoice(g, registry, temp, x, y).Unregistered?
    ensures ok ==> forall x, y :: InGroup(g, x, y) && CellChoice(g, registry, temp, x, y).Chosen?
                     ==> HasCell(result[|maps|..], x, y)
    ensures !ok ==> exists x, y :: ThrowsAt(g, registry, temp, result[|maps|..], x, y)
  {
    var spawned: seq<MapInstance> := [];
    var x := 0;
    while x < g.mapsX
      invariant 0 <= x <= g.mapsX || (g.mapsX < 0 && x == 0)
      invariant Progress(g, registry, temp, spawned, x, 0)
    {
      var y := 0;
      while y < g.mapsY
        invariant 0 <= y <= g.mapsY || (g.mapsY < 0 && y == 0)
        invariant Progress(g, registry, temp, spawned, x, y)
      {
        if CellChoice(g, registry, temp, x, y).Unregistered? {
          result, ok := maps + spawned, false;
          assert result[|maps|..] == spawned;
          assert ThrowsAt(g, registry, temp, spawned, x, y);
          return;
        }
        ProgressStep(g, registry, temp, spawned, x, y);
        spawned := VisitCell(g, registry, temp, spawned, x, y);
        y := y + 1;
      }
      ProgressColumn(g, registry, temp, spawned, x, y);
      x := x + 1;
    }
    result, ok := maps + spawned, true;
    assert result[|maps|..] == spawned;
  }

  // ---------------------------------------------------------------------------
  // map_at_grid
  // ---------------------------------------------------------------------------

  /** The map at a grid position matches on x, y and z (`undefined == undefined` holds). */
  predicate AtGrid(m: MapInstance, x: int, y: int, z: Option<int>) {
    m.x == x && m.y == y && m.z == z
  }

  /** `map_at_grid(grid)`: the index of the first map at the position, or `null`. */
  function MapAtGrid(maps: seq<MapInstance>, x: int, y: int, z: Option<int>): (r: Option<nat>)
    ensures r.None? <==> forall i :: 0 <= i < |maps| ==> !AtGrid(maps[i], x, y, z)
    ensures r.Some? ==> r.value < |maps| && AtGrid(maps[r.value], x, y, z)
                        && forall i :: 0 <= i < r.value ==> !AtGrid(maps[i], x, y, z)
    decreases |maps|
  {
    if maps == [] then None
    else if AtGrid(maps[0], x, y, z) then Some(0)
    else match MapAtGrid(maps[1..], x, y, z)
      case None => None
      case Some(i) => Some(i + 1)
  }

  /**
   * After a group spawned into a world that had no map at its height, the
   * lookup at any cell of the group whose temperature a template accepts
   * returns the map built for that cell.
   */
  lemma LookupFindsSpawnedMap(maps: seq<MapInstance>, registry: map<string, MapTemplate>, g: MapGroup,
                              temp: (int, int) -> real, result: seq<MapInstance>, x: int, y: int)
    requires |result| >= |maps| && result[..|maps|] == maps
    requires forall i :: |maps| <= i < |result| ==> SpawnedAtOwnCell(g, registry, temp, result[i])
    requires forall i, j :: |maps| <= i < j < |result| ==> Before(result[i].x, result[i].y, result[j].x, result[j].y)
    requires forall i :: 0 <= i < |maps| ==> maps[i].z != g.height
    requires HasCell(result[|maps|..], x, y)
    ensures MapAtGrid(result, x, y, g.height).Some?
    ensures var i := MapAtGrid(result, x, y, g.height).value;
            |maps| <= i && result[i].x == x && result[i].y == y && SpawnedAtOwnCell(g, registry, temp, result[i])
  {
    var k :| 0 <= k < |result[|maps|..]| && result[|maps|..][k].x == x && result[|maps|..][k].y == y;
    assert result[|maps| + k] == result[|maps|..][k];
    assert AtGrid(result[|maps| + k], x, y, g.height);
    assert forall j :: 0 <= j < |maps| ==> result[j] == maps[j];
  }

  // ---------------------------------------------------------------------------
  // load: the index of spawn positions of one map
  // ---------------------------------------------------------------------------

  /** A tile rectangle of a layer and whether the actor's spawn flag accepts it. */
  datatype SpawnTile = SpawnTile(left: real, top: real, right: real, bottom: real, spawn: bool)

  /** The key of a tile: the midpoint of its rectangle. */
  function Centre(t: SpawnTile): (c: (real, real))
    ensures c.0 - t.left == t.right - c.0 && c.1 - t.top == t.bottom - c.1
    ensures t.left <= t.right ==> t.left <= c.0 <= t.right
    ensures t.top <= t.bottom ==> t.top <= c.1 <= t.bottom
  {
    (t.left + (t.right - t.left) / 2.0, t.top + (t.bottom - t.top) / 2.0)
  }

  /** One tile visited by the loops, with the index of its layer. */
  datatype Visit = Visit(layer: nat, tile: SpawnTile)

  /** The tiles of `layers` in the order the loops visit them: layer by layer, tile by tile. */
  function Visits(layers: seq<seq<SpawnTile>>): (vs: seq<Visit>)
    ensures forall i :: 0 <= i < |vs| ==> vs[i].layer < |layers| && vs[i].tile in layers[vs[i].layer]
    decreases |layers|
  {
    if layers == [] then []
    else
      var n := |layers| - 1;
      Visits(layers[..n]) + RowVisits(n, layers[n])
  }

  /** The tiles of one layer, tagged with the layer's index. */
  function RowVisits(l: nat, row: seq<SpawnTile>): (vs: seq<Visit>)
    ensures |vs| == |row|
    ensures forall k :: 0 <= k < |row| ==> vs[k] == Visit(l, row[k])
  {
    seq(|row|, k requires 0 <= k < |row| => Visit(l, row[k]))
  }

  /** Visiting one more tile extends the index by one step. */
  lemma IndexOfSnoc(vs: seq<Visit>, v: Visit)
    ensures IndexOf(vs + [v]) == Visit1(IndexOf(vs), v)
  {
    assert (vs + [v])[..|vs|] == vs;
  }

  /** The effect of one visit on `pos_layer`: record the layer, or delete the key. */
  function Visit1(index: map<(real, real), nat>, v: Visit): map<(real, real), nat> {
    if v.tile.spawn then index[Centre(v.tile) := v.layer] else index - {Centre(v.tile)}
  }

  function IndexOf(vs: seq<Visit>): map<(real, real), nat>
    decreases |vs|
  {
    if vs == [] then map[] else Visit1(IndexOf(vs[..|vs| - 1]), vs[|vs| - 1])
  }

  /** Visit i is the last one whose tile has centre c. */
  predicate LastAt(vs: seq<Visit>, i: int, c: (real, real))
    requires 0 <= i < |vs|
  {
    Centre(vs[i].tile) == c && forall j :: i < j < |vs| ==> Centre(vs[j].tile) != c
  }

  /**
   * A centre is indexed exactly when the last tile with that centre carries
   * the spawn flag, and it is indexed with that tile's layer.
   */
  lemma {:induction false} IndexIsLastVisit(vs: seq<Visit>, c: (real, real))
    ensures c in IndexOf(vs) <==> exists i :: 0 <= i < |vs| && LastAt(vs, i, c) && vs[i].tile.spawn
    ensures forall i :: 0 <= i < |vs| && LastAt(vs, i, c) && vs[i].tile.spawn ==> IndexOf(vs)[c] == vs[i].layer
    decreases |vs|
  {
    if vs != [] {
      var n := |vs| - 1;
      var pre := vs[..n];
      IndexIsLastVisit(pre, c);
      forall i | 0 <= i < n && LastAt(pre, i, c) && Centre(vs[n].tile) != c
        ensures LastAt(vs, i, c)
      {
        assert forall j :: i < j < n ==> vs[j] == pre[j];
      }
      forall i | 0 <= i < n && LastAt(vs, i, c)
        ensures LastAt(pre, i, c)
      {
        assert forall j :: i < j < n ==> vs[j] == pre[j];
      }
      if Centre(vs[n].tile) == c {
        assert LastAt(vs, n, c);
        forall i | 0 <= i < n
          ensures !LastAt(vs, i, c)
        {
        }
      }
    }
  }

  /**
   * The loop of `load` over one map's layers, as written: it builds the same
   * index as visiting the tiles in order.
   */
  method SpawnIndex(layers: seq<seq<SpawnTile>>) returns (index: map<(real, real), nat>)
    ensures index == IndexOf(Visits(layers))
  {
    index := map[];
    var l := 0;
    while l < |layers|
      invariant 0 <= l <= |layers|
      invariant index == IndexOf(Visits(layers[..l]))
    {
      var before := Visits(layers[..l]);
      index := IndexLayer(index, before, l, layers[l]);
      assert layers[..l + 1][..l] == layers[..l];
      assert Visits(layers[..l + 1]) == before + RowVisits(l, layers[l]);
      l := l + 1;
    }
    assert layers[..|layers|] == layers;
  }

  /** The inner loop of `load`: the tiles of layer `l`, one after another. */
  method IndexLayer(index0: map<(real, real), nat>, before: seq<Visit>, l: nat, row: seq<SpawnTile>)
    returns (index: map<(real, real), nat>)
    requires index0 == IndexOf(before)
    ensures index == IndexOf(before + RowVisits(l, row))
  {
    index := index0;
    var k := 0;
    assert before + RowVisits(l, row[..0]) == before;
    while k < |row|
      invariant 0 <= k <= |row|
      invariant index == IndexOf(before + RowVisits(l, row[..k]))
    {
      RowVisitsSnoc(before, l, row, k);
      IndexOfSnoc(before + RowVisits(l, row[..k]), Visit(l, row[k]));
      index := Visit1(index, Visit(l, row[k]));
      k := k + 1;
    }
    assert row[..|row|] == row;
  }

  /** Visiting tile k of a layer appends one visit to those made so far. */
  lemma RowVisitsSnoc(before: seq<Visit>, l: nat, row: seq<SpawnTile>, k: nat)
    requires k < |row|
    ensures before + RowVisits(l, row[..k + 1]) == (before + RowVisits(l, row[..k])) + [Visit(l, row[k])]
  {
    assert RowVisits(l, row[..k + 1]) == RowVisits(l, row[..k]) + [Visit(l, row[k])];
  }

  /** A spawn position of `load`: map index, centre and layer. */
  datatype Position = Position(mapIndex: nat, x: real, y: real, layer: nat)

  /** The positions `load` collects over all maps, before one is picked at random. */
  function Candidates(maps: seq<seq<seq<SpawnTile>>>): set<Position> {
    set m, c | 0 <= m < |maps| && c in IndexOf(Visits(maps[m])) :: Position(m, c.0, c.1, IndexOf(Visits(maps[m]))[c])
  }

  /** Every candidate sits at the centre of a spawn-flagged tile of its layer of its map, and nothing covers it later. */
  lemma CandidateIsUncoveredSpawnTile(maps: seq<seq<seq<SpawnTile>>>, p: Position)
    requires p in Candidates(maps)
    ensures p.mapIndex < |maps|
    ensures exists i :: 0 <= i < |Visits(maps[p.mapIndex])| && LastAt(Visits(maps[p.mapIndex]), i, (p.x, p.y))
                        && Visits(maps[p.mapIndex])[i].tile.spawn && Visits(maps[p.mapIndex])[i].layer == p.layer
  {
    var m, c :| 0 <= m < |maps| && c in IndexOf(Visits(maps[m]))
                && p == Position(m, c.0, c.1, IndexOf(Visits(maps[m]))[c]);
    IndexIsLastVisit(Visits(maps[m]), c);
  }

  // ---------------------------------------------------------------------------
  // load: the facing of a spawned actor
  // ---------------------------------------------------------------------------

  /** The angle `load` hands to `actor.move`, as written: `Math.floor(Math.random() * 5)`. */
  function SpawnAngleAsWritten(sample: real): (a: int)
    requires 0.0 <= sample < 1.0
    ensures 0 <= a < 5
  {
    Geometry.RandomIndex(5, sample)
  }

  /** A sample of 0.8 or more makes the written code face the actor in direction 4, which no angle code names. */
  lemma SpawnAngleLeavesRange(sample: real)
    requires 0.8 <= sample < 1.0
    ensures SpawnAngleAsWritten(sample) == 4 && !Geometry.IsAngle(SpawnAngleAsWritten(sample))
  {
    assert 4.0 <= sample * 5.0 < 5.0;
  }

  /** The angle with the range of the four clockwise codes: `Math.floor(Math.random() * 4)`. */
  function SpawnAngle(sample: real): (a: int)
    requires 0.0 <= sample < 1.0
    ensures Geometry.IsAngle(a)
  {
    Geometry.RandomIndex(4, sample)
  }

  /** Each of the four directions is the corrected angle for the quarter of samples starting at a / 4. */
  lemma SpawnAngleCoversDirections(a: int, sample: real)
    requires Geometry.IsAngle(a)
    requires a as real / 4.0 <= sample < (a + 1) as real / 4.0 && sample < 1.0
    ensures SpawnAngle(sample) == a
  {
    assert a as real <= sample * 4.0 < (a + 1) as real;
  }
}
