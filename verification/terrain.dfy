/**
 * Terrain painting of `TilesetTerrain` (js/engine/tileset_terrain.js).
 *
 * A brush paints every cell whose noise reaches `brush.height`.  Each such
 * cell is classified by which of its eight neighbours are themselves fully
 * surrounded ("full"), and the classification decides which floor roles and
 * which wall columns are written into the tile store.
 *
 * The noise (`Math.sin` of the position and the world seed) is the function
 * `noise` of a `Field`; `this.neighbors` is not part of this model and is
 * the uninterpreted function `neighbor(x, y, k)` for the eight indices k the code
 * uses.  The image chosen by `get_random` from the brush's tables is left
 * out: a written tile records its role and its collision sides.
 */
module Terrain {
  import opened Wrappers
  import TileGrid

  // ---------------------------------------------------------------------------
  // Roles
  // ---------------------------------------------------------------------------

  /** The `TILE_FLOOR_*` names. */
  datatype FloorType =
    | Center | Single | Top | Bottom | Left | Right
    | InTopLeft | InTopRight | InBottomLeft | InBottomRight
    | OutTopLeft | OutTopRight | OutBottomLeft | OutBottomRight

  /** The `TILE_WALL_*` names. */
  datatype WallPiece =
    | WallTop | WallCenter | WallBottom
    | WallTopLeft | WallLeft | WallBottomLeft
    | WallTopRight | WallRight | WallBottomRight

  datatype Role = Floor(floor: FloorType) | Wall(wall: WallPiece)

  /** The object handed to `tile_set`: its role and its four collision sides (top, right, bottom, left). */
  datatype Tile = Tile(role: Role, collisions: seq<bool>)

  type Placement = TileGrid.Write<Tile>

  /** The brush fields the painter reads besides its image tables. */
  datatype Brush = Brush(height: real, solid: bool)

  /** The sides a role's name says the floor piece is bounded on: 0 top, 1 right, 2 bottom, 3 left. */
  function NamedSides(t: FloorType): set<int> {
    match t
    case Top => {0}
    case Right => {1}
    case Bottom => {2}
    case Left => {3}
    case InTopLeft => {0, 3}
    case InTopRight => {0, 1}
    case InBottomLeft => {2, 3}
    case InBottomRight => {1, 2}
    case _ => {}
  }

  // ---------------------------------------------------------------------------
  // generate_terrain_set_tile_floor: collision sides of a floor tile
  // ---------------------------------------------------------------------------

  /** The collision sides `set_tile_floor` passes for role `t`: top, right, bottom, left. */
  function FloorCollisions(solid: bool, t: FloorType): seq<bool> {
    [ solid && (t == Top || t == InTopLeft || t == InTopRight),
      solid && (t == Right || t == InTopRight || t == InBottomRight),
      solid && (t == Bottom || t == InBottomLeft || t == InBottomRight),
      solid && (t == Left || t == InTopLeft || t == InBottomLeft) ]
  }

  /** Side k blocks exactly when the brush is solid and the role is bounded on side k. */
  lemma FloorCollisionSides(solid: bool, t: FloorType)
    ensures |FloorCollisions(solid, t)| == 4
    ensures forall k :: 0 <= k < 4 ==> (FloorCollisions(solid, t)[k] <==> solid && k in NamedSides(t))
  {
  }

  /** Centre and outer-corner tiles never block, solid brush or not. */
  lemma OpenFloorRoles(solid: bool, t: FloorType)
    requires t in {Center, Single, OutTopLeft, OutTopRight, OutBottomLeft, OutBottomRight}
    ensures FloorCollisions(solid, t) == [false, false, false, false]
  {
  }

  function FloorWrite(layer: int, x: int, y: int, brush: Brush, t: FloorType): Placement {
    TileGrid.Write(layer, x, y, Tile(Floor(t), FloorCollisions(brush.solid, t)))
  }

  // ---------------------------------------------------------------------------
  // generate_terrain_set_tile_wall: extruding a wall column
  // ---------------------------------------------------------------------------

  datatype Course = TopCourse | MiddleCourse | BottomCourse

  /** Which column of the wall a piece belongs to: -1 left, 0 centre, +1 right. */
  function PieceSide(w: WallPiece): int {
    match w
    case WallTopLeft | WallLeft | WallBottomLeft => -1
    case WallTop | WallCenter | WallBottom => 0
    case WallTopRight | WallRight | WallBottomRight => 1
  }

  /** Which course of the column a piece belongs to. */
  function PieceCourse(w: WallPiece): Course {
    match w
    case WallTop | WallTopLeft | WallTopRight => TopCourse
    case WallCenter | WallLeft | WallRight => MiddleCourse
    case WallBottom | WallBottomLeft | WallBottomRight => BottomCourse
  }

  function Sign(d: int): int {
    if d < 0 then -1 else if d == 0 then 0 else 1
  }

  /**
   * The piece drawn for loop index `i` of the extrusion from `layer` down to
   * `layer - length`: the bottom test comes first, then the top test.
   */
  function PieceAt(layer: int, i: int, length: int, dir: int): WallPiece {
    PieceOfStep(layer - i, length, dir)
  }

  /** The same piece by the step `k = layer - i` down the column: step `length` is the bottom, step 0 the top. */
  function PieceOfStep(k: int, length: int, dir: int): WallPiece {
    if dir == 0 then
      (if k == length then WallBottom else if k == 0 then WallTop else WallCenter)
    else if dir < 0 then
      (if k == length then WallBottomLeft else if k == 0 then WallTopLeft else WallLeft)
    else
      (if k == length then WallBottomRight else if k == 0 then WallTopRight else WallRight)
  }

  const Blocking: seq<bool> := [true, true, true, true]

  /** The tiles a wall column writes, top piece first. */
  function WallColumn(layer: int, x: int, y: int, brush: Brush, length: int, dir: int): seq<Placement> {
    if !brush.solid || length < 1 then []
    else
      seq(length + 1, k requires 0 <= k <= length =>
        TileGrid.Write(layer, x, y + k, Tile(Wall(PieceOfStep(k, length, dir)), Blocking)))
  }

  /**
   * A wall column writes nothing unless the brush is solid and
   * `length >= 1`; otherwise `length + 1` blocking tiles on `layer`, in
   * rows `y .. y + length`, top piece first and bottom piece last, all in
   * the column named by the sign of `dir`.
   */
  lemma WallColumnShape(layer: int, x: int, y: int, brush: Brush, length: int, dir: int)
    ensures var r := WallColumn(layer, x, y, brush, length, dir);
      && (!brush.solid || length < 1 ==> r == [])
      && (brush.solid && length >= 1 ==> |r| == length + 1)
      && (forall k :: 0 <= k < |r| ==>
            r[k].layer == layer && r[k].x == x && r[k].y == y + k
            && r[k].tile.collisions == Blocking
            && r[k].tile.role.Wall? && PieceSide(r[k].tile.role.wall) == Sign(dir))
      && (|r| > 0 ==> PieceCourse(r[0].tile.role.wall) == TopCourse)
      && (|r| > 0 ==> PieceCourse(r[|r| - 1].tile.role.wall) == BottomCourse)
      && (forall k :: 0 < k < |r| - 1 ==> PieceCourse(r[k].tile.role.wall) == MiddleCourse)
  {
  }

  /** The source's loop `for (i = layer; i >= layer - length; i--)`, writing row `y + (layer - i)`. */
  method ExtrudeWall(layer: int, x: int, y: int, brush: Brush, length: int, dir: int) returns (ps: seq<Placement>)
    ensures ps == WallColumn(layer, x, y, brush, length, dir)
  {
    if !brush.solid || length < 1 {
      return [];
    }
    ps := [];
    var i := layer;
    while i >= layer - length
      invariant layer - length - 1 <= i <= layer
      invariant |ps| == layer - i
      invariant forall k :: 0 <= k < |ps| ==>
                  ps[k] == TileGrid.Write(layer, x, y + k, Tile(Wall(PieceOfStep(k, length, dir)), Blocking))
    {
      var piece := PieceAt(layer, i, length, dir);
      ps := ps + [TileGrid.Write(layer, x, y + (layer - i), Tile(Wall(piece), Blocking))];
      i := i - 1;
    }
  }

  // ---------------------------------------------------------------------------
  // generate_terrain_get_tile_full: the fully-surrounded test
  // ---------------------------------------------------------------------------

  /** Noise at each grid position, and the position of neighbour k (0..7) of a cell. */
  datatype Field = Field(noise: (int, int) -> real, neighbor: (int, int, int) -> (int, int))

  predicate Above(f: Field, h: real, x: int, y: int) {
    f.noise(x, y) >= h
  }

  predicate NeighborAbove(f: Field, h: real, x: int, y: int, k: int) {
    var n := f.neighbor(x, y, k);
    Above(f, h, n.0, n.1)
  }

  /** `get_tile_full`: the cell's own test first, then its eight neighbours in index order. */
  function TileFull(f: Field, h: real, x: int, y: int): bool {
    if f.noise(x, y) < h then false
    else
      NeighborAbove(f, h, x, y, 0) && NeighborAbove(f, h, x, y, 1) && NeighborAbove(f, h, x, y, 2)
      && NeighborAbove(f, h, x, y, 3) && NeighborAbove(f, h, x, y, 4) && NeighborAbove(f, h, x, y, 5)
      && NeighborAbove(f, h, x, y, 6) && NeighborAbove(f, h, x, y, 7)
  }

  /** A cell is full exactly when it and all eight neighbours reach the height; a low cell is never full. */
  lemma TileFullExactly(f: Field, h: real, x: int, y: int)
    ensures TileFull(f, h, x, y) <==> Above(f, h, x, y) && forall k :: 0 <= k < 8 ==> NeighborAbove(f, h, x, y, k)
  {
    if TileFull(f, h, x, y) {
      forall k | 0 <= k < 8
        ensures NeighborAbove(f, h, x, y, k)
      {
        assert k == 0 || k == 1 || k == 2 || k == 3 || k == 4 || k == 5 || k == 6 || k == 7;
      }
    }
  }

  /** The `has` array: whether each neighbour is itself full. */
  function Neighbourhood(f: Field, h: real, x: int, y: int): (has: seq<bool>)
    ensures |has| == 8
  {
    seq(8, k requires 0 <= k < 8 => TileFull(f, h, f.neighbor(x, y, k).0, f.neighbor(x, y, k).1))
  }

  // ---------------------------------------------------------------------------
  // generate_terrain: classification of one cell
  // ---------------------------------------------------------------------------

  /** One call the classifier makes: a floor tile, or a wall column in direction -1, 0 or +1. */
  datatype Draw = DrawFloor(floor: FloorType) | DrawWall(dir: int)

  /** The decision table for floor roles, indexed as the code indexes `has`. */
  predicate FloorFires(hasThis: bool, has: seq<bool>, t: FloorType)
    requires |has| == 8
  {
    if hasThis then t == Center
    else match t
      case Center => false
      case Single => false
      case Top => has[5] && !has[3] && !has[7]
      case Right => has[7] && !has[1] && !has[5]
      case Bottom => has[1] && !has[3] && !has[7]
      case Left => has[3] && !has[1] && !has[5]
      case InBottomLeft => has[5] && has[7] && !has[1] && !has[3]
      case InBottomRight => has[3] && has[5] && !has[1] && !has[7]
      case InTopLeft => has[1] && has[7] && !has[3] && !has[5]
      case InTopRight => has[1] && has[3] && !has[5] && !has[7]
      case OutBottomRight => has[0] && !has[1] && !has[7]
      case OutBottomLeft => has[2] && !has[1] && !has[3]
      case OutTopLeft => has[4] && !has[3] && !has[5]
      case OutTopRight => has[6] && !has[5] && !has[7]
  }

  /** The decision table for wall columns. */
  predicate WallFires(hasThis: bool, has: seq<bool>, dir: int)
    requires |has| == 8
  {
    !hasThis &&
    ((dir == -1 && !has[1] && has[2]) || (dir == 0 && has[1]) || (dir == 1 && !has[1] && has[0]))
  }

  predicate Fires(hasThis: bool, has: seq<bool>, d: Draw)
    requires |has| == 8
  {
    match d
    case DrawFloor(t) => FloorFires(hasThis, has, t)
    case DrawWall(dir) => WallFires(hasThis, has, dir)
  }

  /**
   * The conditional calls of a cell that is not full, in the order the code
   * makes them: walls (left, centre, right), edges, inner corners, outer corners.
   */
  const DrawOrder: seq<Draw> := [
    DrawWall(-1), DrawWall(0), DrawWall(1),
    DrawFloor(Top), DrawFloor(Right), DrawFloor(Bottom), DrawFloor(Left),
    DrawFloor(InBottomLeft), DrawFloor(InBottomRight), DrawFloor(InTopLeft), DrawFloor(InTopRight),
    DrawFloor(OutBottomRight), DrawFloor(OutBottomLeft), DrawFloor(OutTopLeft), DrawFloor(OutTopRight)
  ]

  /**
   * The draws of `ds` whose condition holds, in their order.  (Naming `has`
   * in the decreases clause keeps the verifier from unrolling a call on the
   * literal `DrawOrder` to its full depth; the proofs go through the lemmas.)
   */
  function Keep(ds: seq<Draw>, hasThis: bool, has: seq<bool>): seq<Draw>
    requires |has| == 8
    decreases |ds|, |has|
  {
    if ds == [] then []
    else (if Fires(hasThis, has, ds[0]) then [ds[0]] else []) + Keep(ds[1..], hasThis, has)
  }

  /** `Keep` keeps exactly the draws of `ds` whose condition holds. */
  lemma {:induction false} KeepMembers(ds: seq<Draw>, hasThis: bool, has: seq<bool>, d: Draw)
    requires |has| == 8
    ensures d in Keep(ds, hasThis, has) <==> d in ds && Fires(hasThis, has, d)
    decreases |ds|
  {
    if ds != [] {
      KeepMembers(ds[1..], hasThis, has, d);
      assert d in ds <==> d == ds[0] || d in ds[1..];
    }
  }

  /** Every call that can fire for a cell that is not full is one of `DrawOrder`. */
  lemma ConditionalDrawsListed(has: seq<bool>)
    requires |has| == 8
    ensures forall d :: Fires(false, has, d) ==> d in DrawOrder
  {
    forall d | Fires(false, has, d)
      ensures d in DrawOrder
    {
      match d
      case DrawWall(dir) =>
        assert dir == -1 || dir == 0 || dir == 1;
      case DrawFloor(t) =>
        assert t != Center && t != Single;
    }
  }

  /**
   * The draws of one cell: the centre floor alone when it is full, else the
   * conditional calls of `DrawOrder` whose condition holds, in that order.
   */
  function Classify(hasThis: bool, has: seq<bool>): seq<Draw>
    requires |has| == 8
  {
    if hasThis then [DrawFloor(Center)]
    else Keep(DrawOrder, false, has)
  }

  /** A cell draws exactly the calls whose condition holds for it. */
  lemma ClassifyMember(hasThis: bool, has: seq<bool>, d: Draw)
    requires |has| == 8
    ensures d in Classify(hasThis, has) <==> Fires(hasThis, has, d)
  {
    if !hasThis {
      ConditionalDrawsListed(has);
      KeepMembers(DrawOrder, false, has, d);
    }
  }

  // ---------------------------------------------------------------------------
  // generate_terrain: the writes of one cell and of the whole scan
  // ---------------------------------------------------------------------------

  /** Length passed to every wall column of a brush painted from `layerStart` to `layerEnd`. */
  function WallLength(layerStart: int, layerEnd: int): int {
    layerEnd - layerStart - 1
  }

  /** The furthest row below the drawing row a wall column can reach. */
  function WallReach(layerStart: int, layerEnd: int): nat {
    if WallLength(layerStart, layerEnd) < 1 then 0 else WallLength(layerStart, layerEnd)
  }

  function Expand(d: Draw, brush: Brush, layerStart: int, layerEnd: int, x: int, y: int): seq<Placement> {
    match d
    case DrawFloor(t) => [FloorWrite(layerEnd, x, y, brush, t)]
    case DrawWall(dir) => WallColumn(layerEnd, x, y, brush, WallLength(layerStart, layerEnd), dir)
  }

  function ExpandAll(ds: seq<Draw>, brush: Brush, layerStart: int, layerEnd: int, x: int, y: int): seq<Placement>
    decreases |ds|
  {
    if ds == [] then []
    else Expand(ds[0], brush, layerStart, layerEnd, x, y) + ExpandAll(ds[1..], brush, layerStart, layerEnd, x, y)
  }

  /** The writes of call `d`: its tiles when its condition holds, else nothing. */
  function Emit(hasThis: bool, has: seq<bool>, d: Draw, brush: Brush, layerStart: int, layerEnd: int, x: int, row: int): seq<Placement>
    requires |has| == 8
  {
    if Fires(hasThis, has, d) then Expand(d, brush, layerStart, layerEnd, x, row) else []
  }

  /** The writes of the calls `ds`, tried one after another (`has` in the decreases clause as for `Keep`). */
  function EmitAll(ds: seq<Draw>, hasThis: bool, has: seq<bool>, brush: Brush, layerStart: int, layerEnd: int, x: int, row: int): seq<Placement>
    requires |has| == 8
    decreases |ds|, |has|
  {
    if ds == [] then []
    else Emit(hasThis, has, ds[0], brush, layerStart, layerEnd, x, row) + EmitAll(ds[1..], hasThis, has, brush, layerStart, layerEnd, x, row)
  }

  /**
   * The writes of a cell with the given neighbourhood, drawn at `row` on
   * layer `layerEnd`: the centre floor when the cell is full, else every
   * call of `DrawOrder` whose condition holds, in that order.
   */
  function DrawCell(hasThis: bool, has: seq<bool>, brush: Brush, layerStart: int, layerEnd: int, x: int, row: int): seq<Placement>
    requires |has| == 8
  {
    if hasThis then Expand(DrawFloor(Center), brush, layerStart, layerEnd, x, row)
    else EmitAll(DrawOrder, false, has, brush, layerStart, layerEnd, x, row)
  }

  /** The writes `ws` moved `dy` rows down. */
  function Shift(ws: seq<Placement>, dy: int): (r: seq<Placement>)
    ensures |r| == |ws|
  {
    seq(|ws|, i requires 0 <= i < |ws| => ws[i].(y := ws[i].y + dy))
  }

  /**
   * The writes for scan position (x, y): nothing when the noise is below
   * the brush height; otherwise the cell's draws, laid out from row 0 and
   * moved to the drawing row `y - layerEnd` (`DrawnAtRow` shows this is
   * drawing at that row directly).
   */
  function CellWrites(f: Field, brush: Brush, layerStart: int, layerEnd: int, x: int, y: int): (r: seq<Placement>)
    ensures !Above(f, brush.height, x, y) ==> r == []
  {
    if !Above(f, brush.height, x, y) then []
    else
      var h := brush.height;
      Shift(DrawCell(TileFull(f, h, x, y), Neighbourhood(f, h, x, y), brush, layerStart, layerEnd, x, 0), y - layerEnd)
  }

  /** Write `w` lands on `layer`, in column x, in rows `y .. y + reach`. */
  predicate InReach(w: Placement, layer: int, x: int, y: int, reach: int) {
    w.layer == layer && w.x == x && y <= w.y <= y + reach
  }

  lemma ExpandBounds(d: Draw, brush: Brush, layerStart: int, layerEnd: int, x: int, y: int, w: Placement)
    requires w in Expand(d, brush, layerStart, layerEnd, x, y)
    ensures InReach(w, layerEnd, x, y, WallReach(layerStart, layerEnd))
  {
    if d.DrawWall? {
      var r := WallColumn(layerEnd, x, y, brush, WallLength(layerStart, layerEnd), d.dir);
      WallColumnShape(layerEnd, x, y, brush, WallLength(layerStart, layerEnd), d.dir);
      var k :| 0 <= k < |r| && r[k] == w;
    }
  }

  lemma {:induction false} EmitAllBounds(ds: seq<Draw>, hasThis: bool, has: seq<bool>, brush: Brush, layerStart: int, layerEnd: int, x: int, row: int)
    requires |has| == 8
    ensures forall w :: w in EmitAll(ds, hasThis, has, brush, layerStart, layerEnd, x, row) ==>
              InReach(w, layerEnd, x, row, WallReach(layerStart, layerEnd))
    decreases |ds|
  {
    if ds != [] {
      EmitAllBounds(ds[1..], hasThis, has, brush, layerStart, layerEnd, x, row);
      forall w | w in Expand(ds[0], brush, layerStart, layerEnd, x, row)
        ensures InReach(w, layerEnd, x, row, WallReach(layerStart, layerEnd))
      {
        ExpandBounds(ds[0], brush, layerStart, layerEnd, x, row, w);
      }
    }
  }

  /** Every write of a cell lands on layer `layerEnd`, in its column, between `row` and the lowest row a wall column reaches. */
  lemma DrawCellBounds(hasThis: bool, has: seq<bool>, brush: Brush, layerStart: int, layerEnd: int, x: int, row: int)
    requires |has| == 8
    ensures forall w :: w in DrawCell(hasThis, has, brush, layerStart, layerEnd, x, row) ==>
              InReach(w, layerEnd, x, row, WallReach(layerStart, layerEnd))
  {
    forall w | w in Expand(DrawFloor(Center), brush, layerStart, layerEnd, x, row)
      ensures InReach(w, layerEnd, x, row, WallReach(layerStart, layerEnd))
    {
      ExpandBounds(DrawFloor(Center), brush, layerStart, layerEnd, x, row, w);
    }
    EmitAllBounds(DrawOrder, false, has, brush, layerStart, layerEnd, x, row);
  }

  /** Moving writes that lie in rows `0 .. reach` down `dy` rows puts them in rows `dy .. dy + reach`. */
  lemma ShiftBounds(ws: seq<Placement>, dy: int, layer: int, x: int, reach: int)
    requires forall w :: w in ws ==> InReach(w, layer, x, 0, reach)
    ensures forall w :: w in Shift(ws, dy) ==> InReach(w, layer, x, dy, reach)
  {
    forall w | w in Shift(ws, dy)
      ensures InReach(w, layer, x, dy, reach)
    {
      var i :| 0 <= i < |ws| && Shift(ws, dy)[i] == w;
      assert InReach(ws[i], layer, x, 0, reach);
    }
  }

  /**
   * Every write of scan position (x, y) lands on layer `layerEnd`, in
   * column x, between the drawing row `y - layerEnd` and the lowest row a
   * wall column reaches below it.
   */
  lemma CellWriteBounds(f: Field, brush: Brush, layerStart: int, layerEnd: int, x: int, y: int, w: Placement)
    requires w in CellWrites(f, brush, layerStart, layerEnd, x, y)
    ensures InReach(w, layerEnd, x, y - layerEnd, WallReach(layerStart, layerEnd))
  {
    var h := brush.height;
    var ws := DrawCell(TileFull(f, h, x, y), Neighbourhood(f, h, x, y), brush, layerStart, layerEnd, x, 0);
    DrawCellBounds(TileFull(f, h, x, y), Neighbourhood(f, h, x, y), brush, layerStart, layerEnd, x, 0);
    ShiftBounds(ws, y - layerEnd, layerEnd, x, WallReach(layerStart, layerEnd));
  }

  /** A fully surrounded cell writes exactly one non-blocking centre floor tile, at its drawing row. */
  lemma FullCellWritesCenter(f: Field, brush: Brush, layerStart: int, layerEnd: int, x: int, y: int)
    requires TileFull(f, brush.height, x, y)
    ensures CellWrites(f, brush, layerStart, layerEnd, x, y)
              == [TileGrid.Write(layerEnd, x, y - layerEnd, Tile(Floor(Center), [false, false, false, false]))]
  {
    var h := brush.height;
    assert Above(f, h, x, y);
    var one := Expand(DrawFloor(Center), brush, layerStart, layerEnd, x, 0);
    OpenFloorRoles(brush.solid, Center);
    assert one == [FloorWrite(layerEnd, x, 0, brush, Center)];
  }

  /** Moving a draw's writes down `dy` rows is drawing it `dy` rows lower. */
  lemma ExpandShift(d: Draw, brush: Brush, layerStart: int, layerEnd: int, x: int, row: int, dy: int)
    ensures Shift(Expand(d, brush, layerStart, layerEnd, x, row), dy) == Expand(d, brush, layerStart, layerEnd, x, row + dy)
  {
  }

  lemma ShiftAppend(a: seq<Placement>, b: seq<Placement>, dy: int)
    ensures Shift(a + b, dy) == Shift(a, dy) + Shift(b, dy)
  {
  }

  lemma {:induction false} EmitAllShift(ds: seq<Draw>, hasThis: bool, has: seq<bool>, brush: Brush, layerStart: int, layerEnd: int, x: int, row: int, dy: int)
    requires |has| == 8
    ensures Shift(EmitAll(ds, hasThis, has, brush, layerStart, layerEnd, x, row), dy)
            == EmitAll(ds, hasThis, has, brush, layerStart, layerEnd, x, row + dy)
    decreases |ds|
  {
    if ds != [] {
      ShiftAppend(Emit(hasThis, has, ds[0], brush, layerStart, layerEnd, x, row),
                  EmitAll(ds[1..], hasThis, has, brush, layerStart, layerEnd, x, row), dy);
      ExpandShift(ds[0], brush, layerStart, layerEnd, x, row, dy);
      EmitAllShift(ds[1..], hasThis, has, brush, layerStart, layerEnd, x, row, dy);
    }
  }

  /**
   * A cell's writes, laid out from row 0 and moved to row `row`, are its
   * calls made at `row` directly: `CellWrites` writes what the code's calls
   * at the drawing row `y - layerEnd` write.
   */
  lemma DrawnAtRow(hasThis: bool, has: seq<bool>, brush: Brush, layerStart: int, layerEnd: int, x: int, row: int)
    requires |has| == 8
    ensures Shift(DrawCell(hasThis, has, brush, layerStart, layerEnd, x, 0), row)
            == DrawCell(hasThis, has, brush, layerStart, layerEnd, x, row)
  {
    ExpandShift(DrawFloor(Center), brush, layerStart, layerEnd, x, 0, row);
    EmitAllShift(DrawOrder, false, has, brush, layerStart, layerEnd, x, 0, row);
  }

  lemma {:induction false} ExpandAllAppend(a: seq<Draw>, b: seq<Draw>, brush: Brush, layerStart: int, layerEnd: int, x: int, row: int)
    ensures ExpandAll(a + b, brush, layerStart, layerEnd, x, row)
            == ExpandAll(a, brush, layerStart, layerEnd, x, row) + ExpandAll(b, brush, layerStart, layerEnd, x, row)
    decreases |a|
  {
    if a != [] {
      assert (a + b)[0] == a[0];
      assert (a + b)[1..] == a[1..] + b;
      ExpandAllAppend(a[1..], b, brush, layerStart, layerEnd, x, row);
      var e := Expand(a[0], brush, layerStart, layerEnd, x, row);
      var p, q := ExpandAll(a[1..], brush, layerStart, layerEnd, x, row), ExpandAll(b, brush, layerStart, layerEnd, x, row);
      assert ExpandAll(a + b, brush, layerStart, layerEnd, x, row) == e + ExpandAll(a[1..] + b, brush, layerStart, layerEnd, x, row);
      assert ExpandAll(a, brush, layerStart, layerEnd, x, row) == e + p;
      assert e + (p + q) == (e + p) + q;
    } else {
      assert a + b == b;
    }
  }

  /** Trying the calls one by one writes what expanding the calls that fire writes. */
  lemma {:induction false} EmitAllExpandsKept(ds: seq<Draw>, hasThis: bool, has: seq<bool>, brush: Brush, layerStart: int, layerEnd: int, x: int, row: int)
    requires |has| == 8
    ensures EmitAll(ds, hasThis, has, brush, layerStart, layerEnd, x, row)
            == ExpandAll(Keep(ds, hasThis, has), brush, layerStart, layerEnd, x, row)
    decreases |ds|
  {
    if ds != [] {
      var head := if Fires(hasThis, has, ds[0]) then [ds[0]] else [];
      ExpandAllAppend(head, Keep(ds[1..], hasThis, has), brush, layerStart, layerEnd, x, row);
      EmitAllExpandsKept(ds[1..], hasThis, has, brush, layerStart, layerEnd, x, row);
      if Fires(hasThis, has, ds[0]) {
        assert ExpandAll(head, brush, layerStart, layerEnd, x, row)
               == Expand(ds[0], brush, layerStart, layerEnd, x, row) + ExpandAll([], brush, layerStart, layerEnd, x, row);
      }
    }
  }

  /** A cell writes exactly the tiles of the draws `Classify` lists for it, in that order. */
  lemma DrawCellExpandsClassify(hasThis: bool, has: seq<bool>, brush: Brush, layerStart: int, layerEnd: int, x: int, row: int)
    requires |has| == 8
    ensures DrawCell(hasThis, has, brush, layerStart, layerEnd, x, row)
            == ExpandAll(Classify(hasThis, has), brush, layerStart, layerEnd, x, row)
  {
    if hasThis {
      assert ExpandAll([DrawFloor(Center)], brush, layerStart, layerEnd, x, row)
             == Expand(DrawFloor(Center), brush, layerStart, layerEnd, x, row) + ExpandAll([], brush, layerStart, layerEnd, x, row);
    } else {
      EmitAllExpandsKept(DrawOrder, false, has, brush, layerStart, layerEnd, x, row);
    }
  }

  /** The inner loop over rows `y0 .. yEnd - 1` of column x. */
  function ScanColumn(f: Field, brush: Brush, layerStart: int, layerEnd: int, x: int, y0: int, yEnd: int): seq<Placement>
    decreases yEnd - y0
  {
    if y0 >= yEnd then []
    else CellWrites(f, brush, layerStart, layerEnd, x, y0) + ScanColumn(f, brush, layerStart, layerEnd, x, y0 + 1, yEnd)
  }

  /** The outer loop over columns `x0 .. scaleX - 1`; rows run to `scaleY + layerEnd`. */
  function ScanGrid(f: Field, brush: Brush, layerStart: int, layerEnd: int, x0: int, scaleX: int, rows: int): seq<Placement>
    decreases scaleX - x0
  {
    if x0 >= scaleX then []
    else ScanColumn(f, brush, layerStart, layerEnd, x0, 0, rows)
         + ScanGrid(f, brush, layerStart, layerEnd, x0 + 1, scaleX, rows)
  }

  /** `generate_terrain(layer_start, layer_end, brush)`: the `tile_set` calls in the order made. */
  function GenerateTerrain(f: Field, brush: Brush, layerStart: int, layerEnd: int, scaleX: int, scaleY: int): seq<Placement> {
    ScanGrid(f, brush, layerStart, layerEnd, 0, scaleX, scaleY + layerEnd)
  }

  /** A scan position the loops of `generate_terrain` visit. */
  predicate Scanned(layerEnd: int, scaleX: int, scaleY: int, x: int, y: int) {
    0 <= x < scaleX && 0 <= y < scaleY + layerEnd
  }

  lemma {:induction false} ScanColumnExactly(f: Field, brush: Brush, layerStart: int, layerEnd: int, x: int, y0: int, yEnd: int, w: Placement)
    ensures w in ScanColumn(f, brush, layerStart, layerEnd, x, y0, yEnd) <==>
              exists y :: y0 <= y < yEnd && w in CellWrites(f, brush, layerStart, layerEnd, x, y)
    decreases yEnd - y0
  {
    if y0 < yEnd {
      ScanColumnExactly(f, brush, layerStart, layerEnd, x, y0 + 1, yEnd, w);
      var here := CellWrites(f, brush, layerStart, layerEnd, x, y0);
      var rest := ScanColumn(f, brush, layerStart, layerEnd, x, y0 + 1, yEnd);
      assert ScanColumn(f, brush, layerStart, layerEnd, x, y0, yEnd) == here + rest;
      if exists y :: y0 <= y < yEnd && w in CellWrites(f, brush, layerStart, layerEnd, x, y) {
        var y :| y0 <= y < yEnd && w in CellWrites(f, brush, layerStart, layerEnd, x, y);
        assert y == y0 || y0 + 1 <= y;
      }
    }
  }

  lemma {:induction false} ScanGridExactly(f: Field, brush: Brush, layerStart: int, layerEnd: int, x0: int, scaleX: int, rows: int, w: Placement)
    ensures w in ScanGrid(f, brush, layerStart, layerEnd, x0, scaleX, rows) ==>
              exists x :: x0 <= x < scaleX && w in ScanColumn(f, brush, layerStart, layerEnd, x, 0, rows)
    ensures (exists x :: x0 <= x < scaleX && w in ScanColumn(f, brush, layerStart, layerEnd, x, 0, rows))
              ==> w in ScanGrid(f, brush, layerStart, layerEnd, x0, scaleX, rows)
    decreases scaleX - x0
  {
    if x0 < scaleX {
      ScanGridExactly(f, brush, layerStart, layerEnd, x0 + 1, scaleX, rows, w);
      var here := ScanColumn(f, brush, layerStart, layerEnd, x0, 0, rows);
      var rest := ScanGrid(f, brush, layerStart, layerEnd, x0 + 1, scaleX, rows);
      assert ScanGrid(f, brush, layerStart, layerEnd, x0, scaleX, rows) == here + rest;
      if exists x :: x0 <= x < scaleX && w in ScanColumn(f, brush, layerStart, layerEnd, x, 0, rows) {
        var x :| x0 <= x < scaleX && w in ScanColumn(f, brush, layerStart, layerEnd, x, 0, rows);
        assert x == x0 || x0 + 1 <= x;
      }
    }
  }

  /**
   * The painter writes exactly the writes of the scanned cells whose noise
   * reaches the brush height, and nothing else.
   */
  lemma GenerateTerrainExactly(f: Field, brush: Brush, layerStart: int, layerEnd: int, scaleX: int, scaleY: int, w: Placement)
    ensures w in GenerateTerrain(f, brush, layerStart, layerEnd, scaleX, scaleY) ==>
              exists x, y :: Scanned(layerEnd, scaleX, scaleY, x, y) && Above(f, brush.height, x, y)
                             && w in CellWrites(f, brush, layerStart, layerEnd, x, y)
    ensures forall x, y :: Scanned(layerEnd, scaleX, scaleY, x, y) && Above(f, brush.height, x, y)
                           && w in CellWrites(f, brush, layerStart, layerEnd, x, y)
              ==> w in GenerateTerrain(f, brush, layerStart, layerEnd, scaleX, scaleY)
  {
    if w in GenerateTerrain(f, brush, layerStart, layerEnd, scaleX, scaleY) {
      GeneratedWriteIsCellWrite(f, brush, layerStart, layerEnd, scaleX, scaleY, w);
    }
    forall x, y | Scanned(layerEnd, scaleX, scaleY, x, y) && Above(f, brush.height, x, y)
                  && w in CellWrites(f, brush, layerStart, layerEnd, x, y)
      ensures w in GenerateTerrain(f, brush, layerStart, layerEnd, scaleX, scaleY)
    {
      CellWriteIsGenerated(f, brush, layerStart, layerEnd, scaleX, scaleY, x, y, w);
    }
  }

  lemma GeneratedWriteIsCellWrite(f: Field, brush: Brush, layerStart: int, layerEnd: int, scaleX: int, scaleY: int, w: Placement)
    requires w in GenerateTerrain(f, brush, layerStart, layerEnd, scaleX, scaleY)
    ensures exists x, y :: Scanned(layerEnd, scaleX, scaleY, x, y) && Above(f, brush.height, x, y)
                           && w in CellWrites(f, brush, layerStart, layerEnd, x, y)
  {
    var rows := scaleY + layerEnd;
    ScanGridExactly(f, brush, layerStart, layerEnd, 0, scaleX, rows, w);
    var x :| 0 <= x < scaleX && w in ScanColumn(f, brush, layerStart, layerEnd, x, 0, rows);
    ScanColumnExactly(f, brush, layerStart, layerEnd, x, 0, rows, w);
    var y :| 0 <= y < rows && w in CellWrites(f, brush, layerStart, layerEnd, x, y);
    assert Scanned(layerEnd, scaleX, scaleY, x, y) && Above(f, brush.height, x, y);
  }

  lemma CellWriteIsGenerated(f: Field, brush: Brush, layerStart: int, layerEnd: int, scaleX: int, scaleY: int,
                             x: int, y: int, w: Placement)
    requires Scanned(layerEnd, scaleX, scaleY, x, y) && w in CellWrites(f, brush, layerStart, layerEnd, x, y)
    ensures w in GenerateTerrain(f, brush, layerStart, layerEnd, scaleX, scaleY)
  {
    var rows := scaleY + layerEnd;
    CellWriteInColumn(f, brush, layerStart, layerEnd, x, y, rows, w);
    ColumnWriteInGrid(f, brush, layerStart, layerEnd, x, scaleX, rows, w);
  }

  lemma CellWriteInColumn(f: Field, brush: Brush, layerStart: int, layerEnd: int, x: int, y: int, rows: int, w: Placement)
    requires 0 <= y < rows && w in CellWrites(f, brush, layerStart, layerEnd, x, y)
    ensures w in ScanColumn(f, brush, layerStart, layerEnd, x, 0, rows)
  {
    ScanColumnExactly(f, brush, layerStart, layerEnd, x, 0, rows, w);
  }

  lemma ColumnWriteInGrid(f: Field, brush: Brush, layerStart: int, layerEnd: int, x: int, scaleX: int, rows: int, w: Placement)
    requires 0 <= x < scaleX && w in ScanColumn(f, brush, layerStart, layerEnd, x, 0, rows)
    ensures w in ScanGrid(f, brush, layerStart, layerEnd, 0, scaleX, rows)
  {
    ScanGridExactly(f, brush, layerStart, layerEnd, 0, scaleX, rows, w);
  }

  /**
   * Every write of the painter lands on layer `layerEnd`, in a scanned
   * column, no higher than `-layerEnd` and above the last scanned row plus
   * the wall reach.
   */
  lemma GeneratedWriteBounds(f: Field, brush: Brush, layerStart: int, layerEnd: int, scaleX: int, scaleY: int, w: Placement)
    requires w in GenerateTerrain(f, brush, layerStart, layerEnd, scaleX, scaleY)
    ensures w.layer == layerEnd && 0 <= w.x < scaleX
    ensures -layerEnd <= w.y < scaleY + WallReach(layerStart, layerEnd)
  {
    GeneratedWriteIsCellWrite(f, brush, layerStart, layerEnd, scaleX, scaleY, w);
    var x, y :| Scanned(layerEnd, scaleX, scaleY, x, y) && Above(f, brush.height, x, y)
                && w in CellWrites(f, brush, layerStart, layerEnd, x, y);
    CellWriteBounds(f, brush, layerStart, layerEnd, x, y, w);
  }

  /**
   * Painting into a fresh store of `layers` layers and `scaleX` columns
   * succeeds when `layerEnd` names an existing layer, and every write then
   * lands on that layer.
   */
  lemma PaintFits(f: Field, brush: Brush, layerStart: int, layerEnd: int, layers: nat, scaleX: nat, scaleY: nat)
    requires 0 <= layerEnd < layers
    ensures TileGrid.ApplyAll(TileGrid.Init(layers, scaleX, scaleY),
                              GenerateTerrain(f, brush, layerStart, layerEnd, scaleX, scaleY)).Some?
  {
    var ws := GenerateTerrain(f, brush, layerStart, layerEnd, scaleX, scaleY);
    var g: TileGrid.Grid<Tile> := TileGrid.Init(layers, scaleX, scaleY);
    assert forall i :: 0 <= i < |ws| ==> TileGrid.ColumnExists(g, ws[i].layer, ws[i].x) by {
      forall i | 0 <= i < |ws|
        ensures TileGrid.ColumnExists(g, ws[i].layer, ws[i].x)
      {
        GeneratedWriteBounds(f, brush, layerStart, layerEnd, scaleX, scaleY, ws[i]);
      }
    }
    TileGrid.ApplyAllSucceeds(g, ws);
  }

  // ---------------------------------------------------------------------------
  // generate: the brush-ordering loop
  // ---------------------------------------------------------------------------

  /** `Math.floor(height * layers)`: the layer a brush is squished to. */
  function BrushLayer(height: real, layers: int): int {
    (height * layers as real).Floor
  }

  /** One `generate_terrain(last_layer, brush_layer, brush)` call. */
  datatype PaintCall = PaintCall(brush: nat, layerStart: int, layerEnd: int)

  /**
   * The loop of `generate`: every brush is painted from the running
   * `last_layer` (starting at 0) to its own layer; a brush whose layer is
   * below `last_layer` is still painted, and then the loop stops.
   */
  method PlanBrushes(heights: seq<real>, layers: int) returns (calls: seq<PaintCall>)
    ensures |calls| <= |heights|
    ensures forall i :: 0 <= i < |calls| ==>
              calls[i].brush == i && calls[i].layerEnd == BrushLayer(heights[i], layers)
    ensures |calls| > 0 ==> calls[0].layerStart == 0
    ensures forall i :: 0 < i < |calls| ==> calls[i].layerStart == calls[i - 1].layerEnd
    ensures forall i :: 0 <= i < |calls| - 1 ==> calls[i].layerStart <= calls[i].layerEnd
    ensures |calls| < |heights| ==>
              |calls| > 0 && calls[|calls| - 1].layerEnd < calls[|calls| - 1].layerStart
  {
    calls := [];
    var last := 0;
    var i := 0;
    while i < |heights|
      invariant 0 <= i <= |heights|
      invariant |calls| == i
      invariant forall j :: 0 <= j < i ==>
                  calls[j].brush == j && calls[j].layerEnd == BrushLayer(heights[j], layers)
      invariant i > 0 ==> calls[0].layerStart == 0
      invariant forall j :: 0 < j < i ==> calls[j].layerStart == calls[j - 1].layerEnd
      invariant forall j :: 0 <= j < i ==> calls[j].layerStart <= calls[j].layerEnd
      invariant last == if i == 0 then 0 else calls[i - 1].layerEnd
    {
      var layer := BrushLayer(heights[i], layers);
      calls := calls + [PaintCall(i, last, layer)];
      if layer >= last {
        last := layer;
      } else {
        return;
      }
      i := i + 1;
    }
  }

  /** The running `last_layer` never decreases while the loop continues, and never goes below 0. */
  lemma StartsNonDecreasing(calls: seq<PaintCall>, i: int, j: int)
    requires |calls| > 0 && calls[0].layerStart == 0
    requires forall k :: 0 < k < |calls| ==> calls[k].layerStart == calls[k - 1].layerEnd
    requires forall k :: 0 <= k < |calls| - 1 ==> calls[k].layerStart <= calls[k].layerEnd
    requires 0 <= i <= j < |calls|
    ensures 0 <= calls[i].layerStart <= calls[j].layerStart
    decreases j
  {
    if 0 < j {
      if i < j {
        StartsNonDecreasing(calls, i, j - 1);
      } else {
        StartsNonDecreasing(calls, j - 1, j - 1);
      }
    }
  }

  /** The writes of planned call `c`, painting with its brush. */
  function CallWrites(f: Field, brushes: seq<Brush>, c: PaintCall, scaleX: int, scaleY: int): seq<Placement>
    requires c.brush < |brushes|
  {
    GenerateTerrain(f, brushes[c.brush], c.layerStart, c.layerEnd, scaleX, scaleY)
  }

  /**
   * `generate`: the plan, then the writes of every planned call in order.
   * The writes are the planned calls' writes one call after another, so a
   * later brush's tile replaces an earlier one on a shared cell; every write
   * belongs to some planned call and lands on the end layer of one.
   */
  method Generate(f: Field, brushes: seq<Brush>, layers: int, scaleX: int, scaleY: int)
    returns (calls: seq<PaintCall>, writes: seq<Placement>)
    ensures |calls| <= |brushes|
    ensures forall i :: 0 <= i < |calls| ==>
              calls[i].brush == i && calls[i].layerEnd == BrushLayer(brushes[i].height, layers)
    ensures |calls| > 0 ==> calls[0].layerStart == 0
    ensures forall i :: 0 < i < |calls| ==> calls[i].layerStart == calls[i - 1].layerEnd
    ensures |calls| < |brushes| ==>
              |calls| > 0 && calls[|calls| - 1].layerEnd < calls[|calls| - 1].layerStart
    ensures forall w :: w in writes <==>
              exists i :: 0 <= i < |calls| && w in CallWrites(f, brushes, calls[i], scaleX, scaleY)
    ensures forall w :: w in writes ==> exists i :: 0 <= i < |calls| && w.layer == calls[i].layerEnd
    ensures writes == Flatten(seq(|calls|, j requires 0 <= j < |calls| => CallWrites(f, brushes, calls[j], scaleX, scaleY)))
  {
    var heights := seq(|brushes|, i requires 0 <= i < |brushes| => brushes[i].height);
    calls := PlanBrushes(heights, layers);
    writes := PaintPlanned(f, brushes, calls, scaleX, scaleY);
  }

  /** The loop body of `generate` over a plan: the writes of each call, in order. */
  method PaintPlanned(f: Field, brushes: seq<Brush>, calls: seq<PaintCall>, scaleX: int, scaleY: int)
    returns (writes: seq<Placement>)
    requires forall i :: 0 <= i < |calls| ==> calls[i].brush < |brushes|
    ensures forall w :: w in writes <==>
              exists i :: 0 <= i < |calls| && w in CallWrites(f, brushes, calls[i], scaleX, scaleY)
    ensures forall w :: w in writes ==> exists i :: 0 <= i < |calls| && w.layer == calls[i].layerEnd
    ensures writes == Flatten(seq(|calls|, j requires 0 <= j < |calls| => CallWrites(f, brushes, calls[j], scaleX, scaleY)))
  {
    var parts := seq(|calls|, j requires 0 <= j < |calls| => CallWrites(f, brushes, calls[j], scaleX, scaleY));
    writes := [];
    var i := 0;
    while i < |calls|
      invariant 0 <= i <= |calls|
      invariant writes == Flatten(parts[..i])
    {
      assert parts[..i + 1][..i] == parts[..i];
      writes := writes + parts[i];
      i := i + 1;
    }
    assert parts[..|calls|] == parts;
    PlannedWrites(f, brushes, calls, parts, scaleX, scaleY);
  }

  /** The writes of the planned calls, one call after another, are exactly the writes some planned call makes. */
  lemma PlannedWrites(f: Field, brushes: seq<Brush>, calls: seq<PaintCall>, parts: seq<seq<Placement>>, scaleX: int, scaleY: int)
    requires forall i :: 0 <= i < |calls| ==> calls[i].brush < |brushes|
    requires |parts| == |calls|
    requires forall j :: 0 <= j < |calls| ==> parts[j] == CallWrites(f, brushes, calls[j], scaleX, scaleY)
    ensures forall w :: w in Flatten(parts) <==>
              exists i :: 0 <= i < |calls| && w in CallWrites(f, brushes, calls[i], scaleX, scaleY)
    ensures forall w :: w in Flatten(parts) ==> exists i :: 0 <= i < |calls| && w.layer == calls[i].layerEnd
  {
    forall w
      ensures w in Flatten(parts) <==> exists j :: 0 <= j < |calls| && w in CallWrites(f, brushes, calls[j], scaleX, scaleY)
      ensures w in Flatten(parts) ==> exists j :: 0 <= j < |calls| && w.layer == calls[j].layerEnd
    {
      FlattenMembers(parts, w);
      if w in Flatten(parts) {
        var j :| 0 <= j < |calls| && w in parts[j];
        var c := calls[j];
        GeneratedWriteBounds(f, brushes[c.brush], c.layerStart, c.layerEnd, scaleX, scaleY, w);
      }
      if exists j :: 0 <= j < |calls| && w in CallWrites(f, brushes, calls[j], scaleX, scaleY) {
        var j :| 0 <= j < |calls| && w in CallWrites(f, brushes, calls[j], scaleX, scaleY);
        assert w in parts[j];
      }
    }
  }

  /** The lists of `parts`, one after another. */
  function Flatten<T>(parts: seq<seq<T>>): seq<T>
    decreases |parts|
  {
    if parts == [] then [] else Flatten(parts[..|parts| - 1]) + parts[|parts| - 1]
  }

  lemma {:induction false} FlattenMembers<T>(parts: seq<seq<T>>, w: T)
    ensures w in Flatten(parts) <==> exists j :: 0 <= j < |parts| && w in parts[j]
    decreases |parts|
  {
    if parts != [] {
      var n := |parts| - 1;
      FlattenMembers(parts[..n], w);
      assert forall j :: 0 <= j < n ==> parts[..n][j] == parts[j];
    }
  }
}
