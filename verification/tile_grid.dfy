/**
 * The per-layer tile store of `Tileset` (js/engine/tileset.js): the
 * constructor's `layers[i].tiles[x][y] = []`, `tile_get` and `tile_set`,
 * without the canvas drawing.
 *
 * In the source `layers` is an array of `data.layers` entries and each
 * `tiles[x]` an array of `scale_x` columns.  A column is a JavaScript array
 * indexed by `y`, so any integer row can be written once the column exists.
 * The store is therefore modelled as the two array lengths plus a finite
 * map from `(layer, x, y)` to the cell's value.
 */
module TileGrid {
  import opened Wrappers

  /** A cell holds the empty list the constructor puts there, or a tile. */
  datatype Cell<T> = EmptyList | Placed(tile: T)

  datatype Grid<T> = Grid(layers: nat, scaleX: nat, cells: map<(int, int, int), Cell<T>>)

  /** The outcome of `tile_get`: a thrown TypeError, `null`, or a cell value. */
  datatype Read<T> = Throws | Null | Value(cell: Cell<T>)

  /** `layers[layer].tiles[x]` is an array. */
  predicate ColumnExists<T>(g: Grid<T>, layer: int, x: int) {
    0 <= layer < g.layers && 0 <= x < g.scaleX
  }

  /** Every stored cell lies in an existing column. */
  predicate Valid<T>(g: Grid<T>) {
    forall k :: k in g.cells ==> ColumnExists(g, k.0, k.1)
  }

  /** The constructor's loops: every cell of the `layers x scale_x x scale_y` block holds `[]`. */
  function Init<T>(layers: nat, scaleX: nat, scaleY: nat): (g: Grid<T>)
    ensures Valid(g)
    ensures g.layers == layers && g.scaleX == scaleX
    ensures forall l, x, y :: 0 <= l < layers && 0 <= x < scaleX && 0 <= y < scaleY
              ==> TileGet(g, l, x, y) == Value(EmptyList)
    ensures forall l, x, y :: 0 <= l < layers && 0 <= x < scaleX && !(0 <= y < scaleY)
              ==> TileGet(g, l, x, y) == Null
  {
    Grid(layers, scaleX, Block(layers, scaleX, scaleY))
  }

  /** The cells of the constructor's block, each holding `[]`. */
  function Block<T>(layers: nat, scaleX: nat, scaleY: nat): (m: map<(int, int, int), Cell<T>>)
    ensures forall k :: k in m ==> 0 <= k.0 < layers && 0 <= k.1 < scaleX
    ensures forall l, x, y :: (l, x, y) in m <==> 0 <= l < layers && 0 <= x < scaleX && 0 <= y < scaleY
    ensures forall l, x, y :: (l, x, y) in m ==> m[(l, x, y)] == EmptyList
  {
    map l, x, y | 0 <= l < layers && 0 <= x < scaleX && 0 <= y < scaleY :: (l, x, y) := EmptyList
  }

  /**
   * `tile_get`: reading `.tiles` of a missing layer throws; a missing
   * column or row is falsy and gives `null`.  Both `[]` and a tile object
   * are truthy, so a present cell is returned as it is.
   */
  function TileGet<T>(g: Grid<T>, layer: int, x: int, y: int): (r: Read<T>)
    ensures r == Throws <==> !(0 <= layer < g.layers)
    ensures r == Null <==> 0 <= layer < g.layers && (!ColumnExists(g, layer, x) || (layer, x, y) !in g.cells)
  {
    if !(0 <= layer < g.layers) then Throws
    else if !ColumnExists(g, layer, x) || (layer, x, y) !in g.cells then Null
    else Value(g.cells[(layer, x, y)])
  }

  /**
   * `tile_set`: `None` is the TypeError raised when the layer or column is
   * missing; otherwise the cell is overwritten and no other cell changes.
   */
  function TileSet<T>(g: Grid<T>, layer: int, x: int, y: int, tile: T): (r: Option<Grid<T>>)
    ensures r.Some? <==> ColumnExists(g, layer, x)
    ensures r.Some? ==> TileGet(r.value, layer, x, y) == Value(Placed(tile))
    ensures r.Some? ==>
              forall l, x', y' :: (l, x', y') != (layer, x, y)
                ==> TileGet(r.value, l, x', y') == TileGet(g, l, x', y')
    ensures r.Some? && Valid(g) ==> Valid(r.value)
  {
    if ColumnExists(g, layer, x) then
      Some(g.(cells := g.cells[(layer, x, y) := Placed(tile)]))
    else
      None
  }

  /** Writing twice to one cell is the same as writing only the last tile. */
  lemma LastWriteWins<T>(g: Grid<T>, layer: int, x: int, y: int, a: T, b: T)
    requires ColumnExists(g, layer, x)
    ensures TileSet(TileSet(g, layer, x, y, a).value, layer, x, y, b) == TileSet(g, layer, x, y, b)
  {
    var k := (layer, x, y);
    assert g.cells[k := Placed(a)][k := Placed(b)] == g.cells[k := Placed(b)];
  }

  /** A cell the constructor initialised but nobody wrote reads back as `[]`, never `null`. */
  lemma UnwrittenCellIsEmptyList<T>(layers: nat, scaleX: nat, scaleY: nat, l: int, x: int, y: int, writes: seq<Write<T>>)
    requires 0 <= l < layers && 0 <= x < scaleX && 0 <= y < scaleY
    requires forall i :: 0 <= i < |writes| ==> (writes[i].layer, writes[i].x, writes[i].y) != (l, x, y)
    requires ApplyAll(Init(layers, scaleX, scaleY), writes).Some?
    ensures TileGet(ApplyAll(Init(layers, scaleX, scaleY), writes).value, l, x, y) == Value(EmptyList)
  {
    var g := Init(layers, scaleX, scaleY);
    assert TileGet(g, l, x, y) == Value(EmptyList);
    ApplyAllLastWrite(g, writes, l, x, y);
  }

  // ---------------------------------------------------------------------------
  // A sequence of `tile_set` calls, as the terrain generator issues them
  // ---------------------------------------------------------------------------

  datatype Write<T> = Write(layer: int, x: int, y: int, tile: T)

  /**
   * Performs the writes in order; `None` if any of them throws.  The store
   * such a throw leaves behind is `ApplyUntilThrow`.
   */
  function ApplyAll<T>(g: Grid<T>, writes: seq<Write<T>>): (r: Option<Grid<T>>)
    decreases |writes|
  {
    if writes == [] then Some(g)
    else
      var w := writes[|writes| - 1];
      match ApplyAll(g, writes[..|writes| - 1])
      case None => None
      case Some(g') => TileSet(g', w.layer, w.x, w.y, w.tile)
  }

  /** The tile of the last write aimed at a cell, if any. */
  function LastWriteAt<T>(writes: seq<Write<T>>, l: int, x: int, y: int): (r: Option<T>)
    ensures r.None? <==> forall i :: 0 <= i < |writes| ==> (writes[i].layer, writes[i].x, writes[i].y) != (l, x, y)
    ensures r.Some? ==> exists i :: 0 <= i < |writes| && writes[i] == Write(l, x, y, r.value)
    decreases |writes|
  {
    if writes == [] then None
    else
      var w := writes[|writes| - 1];
      if (w.layer, w.x, w.y) == (l, x, y) then Some(w.tile)
      else LastWriteAt(writes[..|writes| - 1], l, x, y)
  }

  /**
   * After a run of writes that all succeed, every cell shows the last tile
   * written to it, and cells nobody wrote read as before.
   */
  lemma {:induction false} ApplyAllLastWrite<T>(g: Grid<T>, writes: seq<Write<T>>, l: int, x: int, y: int)
    requires ApplyAll(g, writes).Some?
    ensures LastWriteAt(writes, l, x, y).Some? ==>
              TileGet(ApplyAll(g, writes).value, l, x, y) == Value(Placed(LastWriteAt(writes, l, x, y).value))
    ensures LastWriteAt(writes, l, x, y).None? ==>
              TileGet(ApplyAll(g, writes).value, l, x, y) == TileGet(g, l, x, y)
    decreases |writes|
  {
    if writes != [] {
      var prefix := writes[..|writes| - 1];
      ApplyAllLastWrite(g, prefix, l, x, y);
    }
  }

  /** The writes all succeed exactly when each aims at an existing column. */
  lemma {:induction false} ApplyAllSucceeds<T>(g: Grid<T>, writes: seq<Write<T>>)
    ensures ApplyAll(g, writes).Some? <==>
              forall i :: 0 <= i < |writes| ==> ColumnExists(g, writes[i].layer, writes[i].x)
    ensures ApplyAll(g, writes).Some? ==>
              ApplyAll(g, writes).value.layers == g.layers && ApplyAll(g, writes).value.scaleX == g.scaleX
    decreases |writes|
  {
    if writes != [] {
      var prefix := writes[..|writes| - 1];
      ApplyAllSucceeds(g, prefix);
      assert forall i :: 0 <= i < |prefix| ==> prefix[i] == writes[i];
    }
  }

  // ---------------------------------------------------------------------------
  // The store a throwing run leaves behind
  // ---------------------------------------------------------------------------

  /** The index of the first write from `i` on that aims at a missing column, or `|writes|`. */
  function FirstThrow<T>(g: Grid<T>, writes: seq<Write<T>>, i: nat): (k: nat)
    requires i <= |writes|
    ensures i <= k <= |writes|
    ensures forall j :: i <= j < k ==> ColumnExists(g, writes[j].layer, writes[j].x)
    ensures k < |writes| ==> !ColumnExists(g, writes[k].layer, writes[k].x)
    decreases |writes| - i
  {
    if i == |writes| then i
    else if !ColumnExists(g, writes[i].layer, writes[i].x) then i
    else FirstThrow(g, writes, i + 1)
  }

  /** The store after a run of writes, and how many of them were made before one threw. */
  datatype Outcome<T> = Outcome(grid: Grid<T>, performed: nat)

  /**
   * A run of `tile_set` calls that stops at the first one that throws: the
   * exception leaves the writes made before it in the store, and the
   * throwing write and every later one are not made.
   */
  function ApplyUntilThrow<T>(g: Grid<T>, writes: seq<Write<T>>): (r: Outcome<T>)
    ensures r.performed <= |writes|
    ensures forall i :: 0 <= i < r.performed ==> ColumnExists(g, writes[i].layer, writes[i].x)
    ensures r.performed < |writes| ==> !ColumnExists(g, writes[r.performed].layer, writes[r.performed].x)
    ensures r.performed == |writes| <==> ApplyAll(g, writes).Some?
    ensures ApplyAll(g, writes[..r.performed]).Some? && r.grid == ApplyAll(g, writes[..r.performed]).value
  {
    var k := FirstThrow(g, writes, 0);
    var made := writes[..k];
    ApplyAllSucceeds(g, made);
    ApplyAllSucceeds(g, writes);
    assert k == |writes| ==> made == writes;
    Outcome(ApplyAll(g, made).value, k)
  }

  /**
   * After a run that may throw, every cell shows the last tile written to
   * it before the throw, and a cell no earlier write touched reads as before.
   */
  lemma ApplyUntilThrowKeepsEarlierWrites<T>(g: Grid<T>, writes: seq<Write<T>>, l: int, x: int, y: int)
    ensures var r := ApplyUntilThrow(g, writes);
            var last := LastWriteAt(writes[..r.performed], l, x, y);
            (last.Some? ==> TileGet(r.grid, l, x, y) == Value(Placed(last.value)))
            && (last.None? ==> TileGet(r.grid, l, x, y) == TileGet(g, l, x, y))
  {
    var r := ApplyUntilThrow(g, writes);
    ApplyAllLastWrite(g, writes[..r.performed], l, x, y);
  }
}
