/**
 * Facts about the decision table of `generate_terrain`
 * (js/engine/tileset_terrain.js:144-184): which draws exclude each other,
 * which may appear together, and how the table behaves when the
 * neighbourhood is mirrored left-to-right or turned a quarter clockwise.
 *
 * Neighbour indices follow the code: 0 NW, 1 N, 2 NE, 3 E, 4 SE, 5 S, 6 SW, 7 W.
 */
module TerrainPatterns {
  import opened Terrain

  predicate IsEdge(t: FloorType) {
    t == Top || t == Right || t == Bottom || t == Left
  }

  predicate IsInnerCorner(t: FloorType) {
    t == InTopLeft || t == InTopRight || t == InBottomLeft || t == InBottomRight
  }

  predicate IsOuterCorner(t: FloorType) {
    t == OutTopLeft || t == OutTopRight || t == OutBottomLeft || t == OutBottomRight
  }

  // ---------------------------------------------------------------------------
  // Exclusions
  // ---------------------------------------------------------------------------

  /** A full cell draws the centre floor and nothing else: no wall, edge or corner. */
  lemma FullCellDrawsOnlyCenter(has: seq<bool>, d: Draw)
    requires |has| == 8
    ensures d in Classify(true, has) <==> d == DrawFloor(Center)
  {
    ClassifyMember(true, has, d);
  }

  /** The centre wall fires exactly when the north neighbour is full, and then neither side wall fires. */
  lemma CenterWallExcludesSideWalls(has: seq<bool>)
    requires |has| == 8
    ensures DrawWall(0) in Classify(false, has) <==> has[1]
    ensures DrawWall(-1) in Classify(false, has) <==> !has[1] && has[2]
    ensures DrawWall(1) in Classify(false, has) <==> !has[1] && has[0]
    ensures DrawWall(0) in Classify(false, has) ==>
              DrawWall(-1) !in Classify(false, has) && DrawWall(1) !in Classify(false, has)
  {
    ClassifyMember(false, has, DrawWall(-1));
    ClassifyMember(false, has, DrawWall(0));
    ClassifyMember(false, has, DrawWall(1));
  }

  /** Both side walls are drawn for a cell whose north neighbour is open and both northern diagonals are full. */
  lemma SideWallsCoexist(has: seq<bool>)
    requires |has| == 8 && !has[1] && has[0] && has[2]
    ensures DrawWall(-1) in Classify(false, has) && DrawWall(1) in Classify(false, has)
  {
    ClassifyMember(false, has, DrawWall(-1));
    ClassifyMember(false, has, DrawWall(1));
  }

  /** Two floor roles are drawn together exactly when both of their conditions hold. */
  lemma DrawnTogether(has: seq<bool>, t: FloorType, u: FloorType)
    requires |has| == 8
    ensures DrawFloor(t) in Classify(false, has) && DrawFloor(u) in Classify(false, has)
            <==> FloorFires(false, has, t) && FloorFires(false, has, u)
  {
    ClassifyMember(false, has, DrawFloor(t));
    ClassifyMember(false, has, DrawFloor(u));
  }

  /** At most one inner corner is drawn for a cell. */
  lemma InnerCornersExclusive(has: seq<bool>, t: FloorType, u: FloorType)
    requires |has| == 8
    requires IsInnerCorner(t) && IsInnerCorner(u) && t != u
    ensures !(DrawFloor(t) in Classify(false, has) && DrawFloor(u) in Classify(false, has))
  {
    DrawnTogether(has, t, u);
    assert !(FloorFires(false, has, t) && FloorFires(false, has, u));
  }

  /** An inner corner is never drawn together with an edge. */
  lemma InnerCornerExcludesEdges(has: seq<bool>, t: FloorType, e: FloorType)
    requires |has| == 8
    requires IsInnerCorner(t) && IsEdge(e)
    ensures !(DrawFloor(t) in Classify(false, has) && DrawFloor(e) in Classify(false, has))
  {
    DrawnTogether(has, t, e);
    assert !(FloorFires(false, has, t) && FloorFires(false, has, e));
  }

  /** A horizontal edge (top, bottom) is never drawn together with a vertical one (left, right). */
  lemma EdgeAxesExclusive(has: seq<bool>, t: FloorType, u: FloorType)
    requires |has| == 8
    requires (t == Top || t == Bottom) && (u == Left || u == Right)
    ensures !(DrawFloor(t) in Classify(false, has) && DrawFloor(u) in Classify(false, has))
  {
    DrawnTogether(has, t, u);
    assert !(FloorFires(false, has, t) && FloorFires(false, has, u));
  }

  /** A cell between a full north and a full south neighbour, open east and west, gets both the top and the bottom edge. */
  lemma TopAndBottomCoexist(has: seq<bool>)
    requires |has| == 8 && has[1] && has[5] && !has[3] && !has[7]
    ensures DrawFloor(Top) in Classify(false, has) && DrawFloor(Bottom) in Classify(false, has)
  {
    ClassifyMember(false, has, DrawFloor(Top));
    ClassifyMember(false, has, DrawFloor(Bottom));
  }

  /** With only the four diagonal neighbours full, all four outer corners are drawn. */
  lemma OuterCornersCoexist(has: seq<bool>, t: FloorType)
    requires |has| == 8 && has[0] && has[2] && has[4] && has[6]
    requires !has[1] && !has[3] && !has[5] && !has[7]
    requires IsOuterCorner(t)
    ensures DrawFloor(t) in Classify(false, has)
  {
    ClassifyMember(false, has, DrawFloor(t));
  }

  // ---------------------------------------------------------------------------
  // Left-to-right mirror
  // ---------------------------------------------------------------------------

  /** The neighbourhood seen in a vertical mirror: west and east swap. */
  function MirrorH(has: seq<bool>): (m: seq<bool>)
    requires |has| == 8
    ensures |m| == 8
  {
    [has[2], has[1], has[0], has[7], has[6], has[5], has[4], has[3]]
  }

  function MirrorFloor(t: FloorType): FloorType {
    match t
    case Left => Right
    case Right => Left
    case InTopLeft => InTopRight
    case InTopRight => InTopLeft
    case InBottomLeft => InBottomRight
    case InBottomRight => InBottomLeft
    case OutTopLeft => OutTopRight
    case OutTopRight => OutTopLeft
    case OutBottomLeft => OutBottomRight
    case OutBottomRight => OutBottomLeft
    case _ => t
  }

  function MirrorDraw(d: Draw): Draw {
    match d
    case DrawFloor(t) => DrawFloor(MirrorFloor(t))
    case DrawWall(dir) => DrawWall(-dir)
  }

  /** The decision table is mirror-symmetric: a draw fires for the mirrored pattern exactly when its mirror image fires for the original. */
  lemma FiresMirror(hasThis: bool, has: seq<bool>, d: Draw)
    requires |has| == 8
    ensures Fires(hasThis, MirrorH(has), d) <==> Fires(hasThis, has, MirrorDraw(d))
  {
  }

  /**
   * Mirroring the neighbourhood mirrors the drawing: every left role
   * becomes its right counterpart and the wall directions flip.
   */
  lemma ClassifyMirror(hasThis: bool, has: seq<bool>, d: Draw)
    requires |has| == 8
    ensures d in Classify(hasThis, MirrorH(has)) <==> MirrorDraw(d) in Classify(hasThis, has)
  {
    FiresMirror(hasThis, has, d);
    ClassifyMember(hasThis, MirrorH(has), d);
    ClassifyMember(hasThis, has, MirrorDraw(d));
  }

  // ---------------------------------------------------------------------------
  // Quarter turn clockwise (floors only: walls always hang downward)
  // ---------------------------------------------------------------------------

  /** The neighbourhood after turning the map a quarter clockwise: what was west is now north. */
  function RotateCW(has: seq<bool>): (r: seq<bool>)
    requires |has| == 8
    ensures |r| == 8
  {
    [has[6], has[7], has[0], has[1], has[2], has[3], has[4], has[5]]
  }

  function RotateFloor(t: FloorType): FloorType {
    match t
    case Top => Right
    case Right => Bottom
    case Bottom => Left
    case Left => Top
    case InTopLeft => InTopRight
    case InTopRight => InBottomRight
    case InBottomRight => InBottomLeft
    case InBottomLeft => InTopLeft
    case OutTopLeft => OutTopRight
    case OutTopRight => OutBottomRight
    case OutBottomRight => OutBottomLeft
    case OutBottomLeft => OutTopLeft
    case _ => t
  }

  /** The floor table turns with the map: a role fires for a pattern exactly when its turned role fires for the turned pattern. */
  lemma FiresRotation(hasThis: bool, has: seq<bool>, t: FloorType)
    requires |has| == 8
    ensures Fires(hasThis, RotateCW(has), DrawFloor(RotateFloor(t))) <==> Fires(hasThis, has, DrawFloor(t))
  {
  }

  /** The floor roles drawn for the turned pattern are the turned roles of the original. */
  lemma FloorRotation(hasThis: bool, has: seq<bool>, t: FloorType)
    requires |has| == 8
    ensures DrawFloor(RotateFloor(t)) in Classify(hasThis, RotateCW(has)) <==> DrawFloor(t) in Classify(hasThis, has)
  {
    FiresRotation(hasThis, has, t);
    ClassifyMember(hasThis, RotateCW(has), DrawFloor(RotateFloor(t)));
    ClassifyMember(hasThis, has, DrawFloor(t));
  }
}
