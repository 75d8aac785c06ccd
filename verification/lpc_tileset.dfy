/**
 * `lpc_tileset(pos_floor, pos_wall, flags, height, cliff)` of the LPC mod
 * (js/mods/default/tileset_lpc.js): the floor table and, for walls at least
 * one course high, the wall table of one terrain kind.  The positions are
 * those of js/default.js (`TileTables.FloorTable`, `TileTables.Walls`); the
 * builder differs in the flags it attaches.
 */
module LpcTileset {
  import opened Wrappers
  import opened TileTables

  function Min(a: int, b: int): int {
    if a < b then a else b
  }

  /** The last flag of the floor centre: a cliff is solid. */
  function FloorTag(cliff: bool): string {
    if cliff then "solid" else "floor"
  }

  /** The last flag of the path candidates: solid on a cliff, path on raised ground, gravel at height 0 or below. */
  function PathTag(height: int, cliff: bool): string {
    if cliff then "solid" else if height > 0 then "path" else "gravel"
  }

  /** The flags added to the given ones on the cave mouth. */
  function CaveTags(cliff: bool): seq<string> {
    ["cave", if cliff then "cave_out" else "cave_in"]
  }

  /** The `floor_*` entries, role by role. */
  function LpcFloor(fx: int, fy: int, flags: seq<string>, height: int, cliff: bool, role: FloorType): Option<seq<Candidate>> {
    FloorTable(fx, fy, flags + [FloorTag(cliff)], flags + [PathTag(height, cliff)], role)
  }

  /**
   * The `wall_left`, `wall_middle` and `wall_right` entries: absent below
   * one course, otherwise as many courses as the height, capped at four.
   */
  function LpcWalls(wx: int, wy: int, flags: seq<string>, height: int, cliff: bool): (r: Option<WallTable>)
    ensures r.Some? <==> height >= 1
    ensures r.Some? ==> |r.value.left| == |r.value.middle| == |r.value.right| == Min(height, 4)
  {
    var wall := flags + ["wall"];
    var cave := flags + CaveTags(cliff);
    if height >= 4 then Some(Walls(4, wx, wy, wall, cave))
    else if height >= 3 then Some(Walls(3, wx, wy, wall, cave))
    else if height >= 2 then Some(Walls(2, wx, wy, wall, cave))
    else if height >= 1 then Some(Walls(1, wx, wy, wall, cave))
    else None
  }

  /**
   * Every flagged floor candidate carries the given flags and one tag
   * after them; the tag is "solid" exactly on a cliff, and off a cliff a
   * path candidate's tag is "path" on raised ground and "gravel" otherwise.
   */
  lemma LpcFloorTags(fx: int, fy: int, flags: seq<string>, height: int, cliff: bool, role: FloorType, c: Candidate)
    requires LpcFloor(fx, fy, flags, height, cliff, role).Some?
    requires c in LpcFloor(fx, fy, flags, height, cliff, role).value && c.flags.Some?
    ensures |c.flags.value| == |flags| + 1 && c.flags.value[..|flags|] == flags
    ensures c.flags.value[|flags|] == "solid" <==> cliff
    ensures !cliff && c.gate.Path? ==> (c.flags.value[|flags|] == "path" <==> height > 0)
    ensures !cliff && c.gate.Floor? ==> c.flags.value[|flags|] == "floor"
  {
    var tagged := c.flags.value;
    if c.gate.Floor? {
      assert tagged == flags + [FloorTag(cliff)];
    } else {
      assert tagged == flags + [PathTag(height, cliff)];
    }
    assert tagged[..|flags|] == flags;
  }

  /**
   * Off a cliff and above ground, the LPC floor of a single-flag terrain
   * kind is the floor table of `tileset_floor_terrain` for that kind.
   */
  lemma LpcFloorMatchesDefault(fx: int, fy: int, kind: string, height: int, role: FloorType)
    requires height > 0
    ensures LpcFloor(fx, fy, [kind], height, false, role) == FloorTerrain(fx, fy, kind, role)
  {
    assert [kind] + ["floor"] == [kind, "floor"];
    assert [kind] + ["path"] == [kind, "path"];
  }

  /**
   * For a single-flag kind the LPC walls are the walls of `tileset_wall_N`
   * with N the capped height, apart from the cave mouth, which also says
   * whether the cave leads in or out.
   */
  lemma LpcWallsMatchDefault(wx: int, wy: int, kind: string, height: int, cliff: bool)
    requires height >= 1
    ensures LpcWalls(wx, wy, [kind], height, cliff).value
            == Walls(Min(height, 4), wx, wy, [kind, "wall"], [kind, "cave", if cliff then "cave_out" else "cave_in"])
    ensures TilesetWall(Min(height, 4), wx, wy, kind)
            == Walls(Min(height, 4), wx, wy, [kind, "wall"], [kind, "cave"])
  {
    assert [kind] + ["wall"] == [kind, "wall"];
    assert [kind] + CaveTags(cliff) == [kind, "cave", if cliff then "cave_out" else "cave_in"];
  }

  /**
   * In every middle course of the LPC walls exactly one candidate is
   * eligible at any cell, and the cave mouth is the one exactly where
   * `cave_true` holds, along the whole column.
   */
  lemma LpcCaveCourses(wx: int, wy: int, flags: seq<string>, height: int, cliff: bool, i: int,
                       noise: (int, int) -> real, cx: int, cy: int, layer: int)
    requires height >= 1 && 0 <= i < Min(height, 4)
    ensures var row := LpcWalls(wx, wy, flags, height, cliff).value.middle[i];
            |Eligible(row, noise, cx, cy, layer)| == 1
            && (|row| == 2 <==> height >= 3 && Min(height, 4) - 2 <= i)
            && (|row| == 2 ==> (Eligible(row, noise, cx, cy, layer)[0] == row[1] <==> NoiseBands.CaveTrue(noise, cx, cy, layer)))
  {
    WallCoursesGated(Min(height, 4), wx, wy, flags + ["wall"], flags + CaveTags(cliff), i, noise, cx, cy, layer, cy, layer);
  }
}
