/**
 * The overworld stage (game/overworld.py): the table of walkable paths
 * between nodes, the path tiles laid along each path with the shape of each
 * tile, and the per-frame input that sends the icon along a path or enters
 * the current node's level.
 */
module WorldMap {
  import opened Wrappers
  import opened Geometry
  import opened Settings
  import opened Progress
  import opened WorldIcons
  import opened Cameras

  // ----- The paths table -----

  /** A polyline of the "Paths" layer, with its start and end node stages. */
  datatype PathObject = PathObject(points: seq<Vec>, start: int, end: int)

  /** An entry of self.paths: the waypoints, moved to tile centres, and the start stage. */
  datatype PathEntry = PathEntry(pos: seq<Vec>, start: int)

  const HalfTile: Vec := Vec(TileSize as real / 2.0, TileSize as real / 2.0)

  function Centred(points: seq<Vec>): (s: seq<Vec>)
    ensures |s| == |points| && forall i :: 0 <= i < |points| ==> s[i] == points[i].Plus(HalfTile)
  {
    seq(|points|, i requires 0 <= i < |points| => points[i].Plus(HalfTile))
  }

  function EntryOf(o: PathObject): PathEntry {
    PathEntry(Centred(o.points), o.start)
  }

  /** self.paths, keyed by the end stage; a later path with the same end replaces an earlier one. */
  function PathsTable(objs: seq<PathObject>): map<int, PathEntry>
    decreases |objs|
  {
    if objs == [] then map[]
    else
      var o := objs[|objs| - 1];
      PathsTable(objs[..|objs| - 1])[o.end := EntryOf(o)]
  }

  /** The last path object with end stage k. */
  predicate LastWithEnd(objs: seq<PathObject>, i: int)
    requires 0 <= i < |objs|
  {
    forall j :: i < j < |objs| ==> objs[j].end != objs[i].end
  }

  /** A stage is a key exactly when some path ends there. */
  lemma {:induction false} PathsTableKeySet(objs: seq<PathObject>)
    ensures forall k :: k in PathsTable(objs) <==> exists i :: 0 <= i < |objs| && objs[i].end == k
    decreases |objs|
  {
    if objs != [] {
      var init := objs[..|objs| - 1];
      var last := |objs| - 1;
      PathsTableKeySet(init);
      assert PathsTable(objs) == PathsTable(init)[objs[last].end := EntryOf(objs[last])];
      forall k
        ensures k in PathsTable(objs) <==> exists i :: 0 <= i < |objs| && objs[i].end == k
      {
        if k == objs[last].end {
          assert k in PathsTable(objs);
        } else if k in PathsTable(init) {
          var i :| 0 <= i < |init| && init[i].end == k;
          assert objs[i] == init[i];
        } else {
          forall i | 0 <= i < |objs|
            ensures objs[i].end != k
          {
            if i < last {
              assert objs[i] == init[i];
            }
          }
        }
      }
    }
  }

  /** The entry of a stage is the last path ending there. */
  lemma {:induction false} PathsTableLast(objs: seq<PathObject>)
    ensures forall i :: 0 <= i < |objs| && LastWithEnd(objs, i) ==>
      objs[i].end in PathsTable(objs) && PathsTable(objs)[objs[i].end] == EntryOf(objs[i])
    decreases |objs|
  {
    if objs != [] {
      var init := objs[..|objs| - 1];
      var o := objs[|objs| - 1];
      PathsTableLast(init);
      assert PathsTable(objs) == PathsTable(init)[o.end := EntryOf(o)];
      forall i | 0 <= i < |objs| && LastWithEnd(objs, i)
        ensures objs[i].end in PathsTable(objs) && PathsTable(objs)[objs[i].end] == EntryOf(objs[i])
      {
        if i < |init| {
          assert objs[i].end != o.end;
          assert init[i] == objs[i];
          assert LastWithEnd(init, i) by {
            forall j | i < j < |init|
              ensures init[j].end != init[i].end
            {
              assert init[j] == objs[j];
            }
          }
        }
      }
    }
  }

  /** A stage is a key exactly when some path ends there, and holds the last such path. */
  lemma PathsTableKeys(objs: seq<PathObject>)
    ensures forall k :: k in PathsTable(objs) <==> exists i :: 0 <= i < |objs| && objs[i].end == k
    ensures forall i :: 0 <= i < |objs| && LastWithEnd(objs, i) ==> PathsTable(objs)[objs[i].end] == EntryOf(objs[i])
  {
    PathsTableKeySet(objs);
    PathsTableLast(objs);
  }

  /** The setup loop over the "Paths" layer. */
  method BuildPaths(objs: seq<PathObject>) returns (paths: map<int, PathEntry>)
    ensures paths == PathsTable(objs)
  {
    paths := map[];
    var i := 0;
    while i < |objs|
      invariant 0 <= i <= |objs|
      invariant paths == PathsTable(objs[..i])
    {
      assert objs[..i + 1][..i] == objs[..i];
      var pos: seq<Vec> := [];
      var j := 0;
      while j < |objs[i].points|
        invariant 0 <= j <= |objs[i].points|
        invariant pos == Centred(objs[i].points[..j])
      {
        pos := pos + [objs[i].points[j].Plus(HalfTile)];
        j := j + 1;
      }
      assert objs[i].points[..j] == objs[i].points;
      paths := paths[objs[i].end := PathEntry(pos, objs[i].start)];
      i := i + 1;
    }
    assert objs[..i] == objs;
  }

  // ----- Nodes -----

  /** An object of the "Nodes" layer. */
  datatype NodeObject = NodeObject(name: Option<string>, pos: Vec, stage: int, props: map<string, string>)

  const Directions: set<string> := {"left", "right", "up", "down"}

  /** avail_dirs: the properties named after a direction. */
  function AvailDirs(props: map<string, string>): (dirs: map<string, string>)
    ensures forall d :: d in dirs <==> d in props && d in Directions
    ensures forall d :: d in dirs ==> dirs[d] == props[d]
  {
    map d | d in props.Keys && d in Directions :: props[d]
  }

  predicate IsNode(o: NodeObject) {
    o.name == Some("Node")
  }

  /** The nodes the setup creates, in layer order. */
  function Nodes(objs: seq<NodeObject>, size: Vec): (nodes: seq<Node>)
    ensures |nodes| <= |objs|
    ensures forall n :: n in nodes ==>
      exists o :: o in objs && IsNode(o) && n == NodeAt(o.pos, size, o.stage, AvailDirs(o.props))
    decreases |objs|
  {
    if objs == [] then []
    else
      var o := objs[|objs| - 1];
      Nodes(objs[..|objs| - 1], size) +
        (if IsNode(o) then [NodeAt(o.pos, size, o.stage, AvailDirs(o.props))] else [])
  }

  /** Where the icon is created: the last node whose stage is the current level, at its tile's centre. */
  function IconStart(objs: seq<NodeObject>, currentLevel: int): Option<Vec>
    decreases |objs|
  {
    if objs == [] then None
    else
      var o := objs[|objs| - 1];
      if IsNode(o) && o.stage == currentLevel then Some(o.pos.Plus(HalfTile))
      else IconStart(objs[..|objs| - 1], currentLevel)
  }

  /** The icon starts at the centre of a node of the current level. */
  lemma {:induction false} IconStartsOnNode(objs: seq<NodeObject>, size: Vec, currentLevel: int)
    requires IconStart(objs, currentLevel).Some?
    ensures exists n :: (n in Nodes(objs, size) && n.level == currentLevel &&
      n.rect.Center() == IconStart(objs, currentLevel).value)
    decreases |objs|
  {
    var init := objs[..|objs| - 1];
    var o := objs[|objs| - 1];
    if IsNode(o) && o.stage == currentLevel {
      var n := NodeAt(o.pos, size, o.stage, AvailDirs(o.props));
      assert n in Nodes(objs, size);
    } else {
      IconStartsOnNode(init, size, currentLevel);
      var n :| n in Nodes(init, size) && n.level == currentLevel &&
        n.rect.Center() == IconStart(init, currentLevel).value;
      assert n in Nodes(objs, size);
    }
  }

  /** The initial current_node: the first node of level 0; indexing the empty list raises. */
  function FirstOfLevelZero(nodes: seq<Node>): (r: Result<Node>)
    ensures r.Err? <==> forall i :: 0 <= i < |nodes| ==> nodes[i].level != 0
    ensures r.Err? ==> r.error == IndexError
    ensures r.Ok? ==> exists i :: (0 <= i < |nodes| && nodes[i] == r.value && r.value.level == 0 &&
      forall j :: 0 <= j < i ==> nodes[j].level != 0)
    decreases |nodes|
  {
    if nodes == [] then Err(IndexError)
    else if nodes[0].level == 0 then Ok(nodes[0])
    else
      var r := FirstOfLevelZero(nodes[1..]);
      assert forall i :: 0 <= i < |nodes[1..]| ==> nodes[1..][i] == nodes[i + 1];
      r
  }

  /** The grid position of each level, a later node of the same level replacing an earlier one. */
  function GridOfLevels(nodes: seq<Node>): map<int, Tile>
    decreases |nodes|
  {
    if nodes == [] then map[]
    else
      var n := nodes[|nodes| - 1];
      GridOfLevels(nodes[..|nodes| - 1])[n.level := Tile(n.gridCol, n.gridRow)]
  }

  lemma {:induction false} GridOfLevelsKeys(nodes: seq<Node>)
    ensures forall k :: k in GridOfLevels(nodes) <==> exists i :: 0 <= i < |nodes| && nodes[i].level == k
    decreases |nodes|
  {
    if nodes != [] {
      var init := nodes[..|nodes| - 1];
      GridOfLevelsKeys(init);
      assert GridOfLevels(nodes) == GridOfLevels(init)[nodes[|nodes| - 1].level :=
        Tile(nodes[|nodes| - 1].gridCol, nodes[|nodes| - 1].gridRow)];
      forall k | k in GridOfLevels(nodes)
        ensures exists i :: 0 <= i < |nodes| && nodes[i].level == k
      {
        if k != nodes[|nodes| - 1].level {
          assert k in GridOfLevels(init);
          var i :| 0 <= i < |init| && init[i].level == k;
          assert nodes[i] == init[i];
        }
      }
      forall k | exists i :: 0 <= i < |nodes| && nodes[i].level == k
        ensures k in GridOfLevels(nodes)
      {
        var i :| 0 <= i < |nodes| && nodes[i].level == k;
        if i < |init| {
          assert init[i] == nodes[i];
        }
      }
    }
  }

  // ----- Path tiles -----

  /** A grid position. */
  datatype Tile = Tile(col: int, row: int) {
    function Minus(o: Tile): Tile { Tile(col - o.col, row - o.row) }
  }

  /** Python's range(lo, hi, step) for a step of 1 or -1. */
  function Range(lo: int, hi: int, step: int): seq<int>
    requires step == 1 || step == -1
    decreases if step == 1 then hi - lo else lo - hi
  {
    if (step == 1 && lo >= hi) || (step == -1 && lo <= hi) then []
    else [lo] + Range(lo + step, hi, step)
  }

  lemma {:induction false} RangeRun(lo: int, n: nat, step: int)
    requires step == 1 || step == -1
    ensures Range(lo, lo + step * n, step) == seq(n, k => lo + step * k)
    decreases n
  {
    if n > 0 {
      RangeRun(lo + step, n - 1, step);
      assert lo + step + step * (n - 1) == lo + step * n;
      assert Range(lo, lo + step * n, step) == [lo] + Range(lo + step, lo + step * n, step);
    }
  }

  function Sign(p: real): int {
    if p > 0.0 then 1 else -1
  }

  /** The steps of a run: range(d, int(p) + d, d) for d the sign of p. */
  function RunSteps(p: real): seq<int> {
    Range(Sign(p), Trunc(p) + Sign(p), Sign(p))
  }

  /** A run of |int(p)| steps, one grid unit each in the direction of p. */
  lemma {:induction false} RunStepsCount(p: real)
    requires p != 0.0
    ensures var n := if Trunc(p) >= 0 then Trunc(p) else -Trunc(p);
      RunSteps(p) == seq(n, k => Sign(p) * (k + 1))
  {
    var d := Sign(p);
    var n := if Trunc(p) >= 0 then Trunc(p) else -Trunc(p);
    assert Trunc(p) == d * n;
    RangeRun(d, n, d);
    assert d + d * n == Trunc(p) + d;
  }

  /** The tiles of one run from the segment's start tile, vertical or horizontal. */
  function RunTiles(start: Tile, steps: seq<int>, vertical: bool): (s: seq<Tile>)
    ensures |s| == |steps|
  {
    seq(|steps|, i requires 0 <= i < |steps| =>
      if vertical then Tile(start.col, start.row + steps[i]) else Tile(start.col + steps[i], start.row))
  }

  function StartTile(a: Vec): Tile {
    Tile(Trunc(a.x / TileSize as real), Trunc(a.y / TileSize as real))
  }

  /** The tiles of the segment from waypoint a to waypoint b: the vertical run, then the horizontal run. */
  function SegmentTiles(a: Vec, b: Vec): seq<Tile> {
    var dir := b.Minus(a).Scale(1.0 / TileSize as real);
    Runs(StartTile(a), dir.y, dir.x)
  }

  /** The vertical run of dy grid units from st, then the horizontal run of dx. */
  function Runs(st: Tile, dy: real, dx: real): seq<Tile> {
    (if dy != 0.0 then RunTiles(st, RunSteps(dy), true) else []) +
      (if dx != 0.0 then RunTiles(st, RunSteps(dx), false) else [])
  }

  /** The tiles of all segments of a path. */
  function WaypointTiles(points: seq<Vec>): seq<Tile>
    decreases |points|
  {
    if |points| < 2 then []
    else WaypointTiles(points[..|points| - 1]) + SegmentTiles(points[|points| - 2], points[|points| - 1])
  }

  /** path_tiles[path_id]: the start node's grid position, the segments' tiles, the end node's. */
  function PathTiles(startNode: Tile, points: seq<Vec>, endNode: Tile): (s: seq<Tile>)
    ensures |s| >= 2 && s[0] == startNode && s[|s| - 1] == endNode
  {
    [startNode] + WaypointTiles(points) + [endNode]
  }

  function AbsInt(n: int): nat { if n >= 0 then n else -n }

  /** A run has |int(p)| tiles, the k-th of them k + 1 grid units from the start tile along the run's axis. */
  lemma {:induction false} RunTilesShape(st: Tile, p: real, vertical: bool)
    requires p != 0.0
    ensures var s := RunTiles(st, RunSteps(p), vertical);
      |s| == AbsInt(Trunc(p)) &&
      forall k :: 0 <= k < |s| ==>
        s[k] == (if vertical then Tile(st.col, st.row + Sign(p) * (k + 1)) else Tile(st.col + Sign(p) * (k + 1), st.row))
  {
    RunStepsCount(p);
  }

  /** Each segment adds |int(dy)| vertical tiles and then |int(dx)| horizontal tiles. */
  lemma {:induction false} SegmentTilesCount(a: Vec, b: Vec)
    ensures var dir := b.Minus(a).Scale(1.0 / TileSize as real);
      |SegmentTiles(a, b)| == AbsInt(Trunc(dir.y)) + AbsInt(Trunc(dir.x))
  {
    var dir := b.Minus(a).Scale(1.0 / TileSize as real);
    var st := StartTile(a);
    if dir.y != 0.0 {
      RunTilesShape(st, dir.y, true);
    } else {
      TruncOfInt(0);
    }
    if dir.x != 0.0 {
      RunTilesShape(st, dir.x, false);
    } else {
      TruncOfInt(0);
    }
  }

  /** Between the centres of two tiles, the direction is the tile difference and the start tile is the first tile. */
  lemma CentreSegment(c1: nat, r1: nat, c2: nat, r2: nat)
    ensures var a := Vec((c1 * TileSize) as real, (r1 * TileSize) as real).Plus(HalfTile);
      var b := Vec((c2 * TileSize) as real, (r2 * TileSize) as real).Plus(HalfTile);
      b.Minus(a).Scale(1.0 / TileSize as real) == Vec((c2 - c1) as real, (r2 - r1) as real) &&
      StartTile(a) == Tile(c1, r1)
  {
    var a := Vec((c1 * TileSize) as real, (r1 * TileSize) as real).Plus(HalfTile);
    assert a.x / TileSize as real == c1 as real + 0.5;
    assert a.y / TileSize as real == r1 as real + 0.5;
  }

  /** A run of a whole number n of tiles ends n units from its start, one unit per tile. */
  lemma {:induction false} WholeRun(st: Tile, n: int, vertical: bool)
    requires n != 0
    ensures var s := RunTiles(st, RunSteps(n as real), vertical);
      |s| == AbsInt(n) &&
      s[|s| - 1] == (if vertical then Tile(st.col, st.row + n) else Tile(st.col + n, st.row)) &&
      forall k :: 0 <= k < |s| ==> AbsInt(s[k].col - st.col) + AbsInt(s[k].row - st.row) == k + 1
  {
    TruncOfInt(n);
    RunTilesShape(st, n as real, vertical);
    var d := Sign(n as real);
    assert d * AbsInt(n) == n;
    var s := RunTiles(st, RunSteps(n as real), vertical);
    forall k | 0 <= k < |s|
      ensures AbsInt(s[k].col - st.col) + AbsInt(s[k].row - st.row) == k + 1
    {
      assert d == 1 || d == -1;
    }
  }

  /** A segment whose direction is a whole number of tiles along one axis steps one unit at a time from its start tile. */
  lemma {:induction false} AxisSegment(a: Vec, b: Vec, st: Tile, dc: int, dr: int)
    requires b.Minus(a).Scale(1.0 / TileSize as real) == Vec(dc as real, dr as real) && StartTile(a) == st
    requires dc == 0 || dr == 0
    ensures var s := SegmentTiles(a, b);
      |s| == AbsInt(dc) + AbsInt(dr) &&
      (|s| > 0 ==> s[|s| - 1] == Tile(st.col + dc, st.row + dr)) &&
      forall k :: 0 <= k < |s| ==> AbsInt(s[k].col - st.col) + AbsInt(s[k].row - st.row) == k + 1
  {
    if dr != 0 {
      assert SegmentTiles(a, b) == RunTiles(st, RunSteps(dr as real), true);
      WholeRun(st, dr, true);
    } else if dc != 0 {
      assert SegmentTiles(a, b) == RunTiles(st, RunSteps(dc as real), false);
      WholeRun(st, dc, false);
    } else {
      assert SegmentTiles(a, b) == [];
    }
  }

  /**
   * Between the centres of two tiles on one row (or one column), the
   * segment's tiles step one unit at a time away from the first tile and end
   * on the second.
   */
  lemma SegmentReachesNextTile(c1: nat, r1: nat, c2: nat, r2: nat)
    requires c1 == c2 || r1 == r2
    ensures var a := Vec((c1 * TileSize) as real, (r1 * TileSize) as real).Plus(HalfTile);
      var b := Vec((c2 * TileSize) as real, (r2 * TileSize) as real).Plus(HalfTile);
      var s := SegmentTiles(a, b);
      |s| == AbsInt(c2 - c1) + AbsInt(r2 - r1) &&
      (|s| > 0 ==> s[|s| - 1] == Tile(c2, r2)) &&
      forall k :: 0 <= k < |s| ==> AbsInt(s[k].col - c1) + AbsInt(s[k].row - r1) == k + 1
  {
    var a := Vec((c1 * TileSize) as real, (r1 * TileSize) as real).Plus(HalfTile);
    var b := Vec((c2 * TileSize) as real, (r2 * TileSize) as real).Plus(HalfTile);
    CentreSegment(c1, r1, c2, r2);
    AxisSegment(a, b, Tile(c1, r1), c2 - c1, r2 - r1);
  }

  /** One inner loop of create_path_sprites: append a run. */
  method AppendRun(tiles: seq<Tile>, st: Tile, steps: seq<int>, vertical: bool) returns (r: seq<Tile>)
    ensures r == tiles + RunTiles(st, steps, vertical)
  {
    r := tiles;
    var k := 0;
    while k < |steps|
      invariant 0 <= k <= |steps|
      invariant r == tiles + RunTiles(st, steps, vertical)[..k]
    {
      var next := if vertical then Tile(st.col, st.row + steps[k]) else Tile(st.col + steps[k], st.row);
      assert RunTiles(st, steps, vertical)[..k + 1] == RunTiles(st, steps, vertical)[..k] + [next];
      r := r + [next];
      k := k + 1;
    }
    assert RunTiles(st, steps, vertical)[..k] == RunTiles(st, steps, vertical);
  }

  /** The body of the waypoint loop: the vertical run, then the horizontal run. */
  method AppendSegment(tiles: seq<Tile>, a: Vec, b: Vec) returns (r: seq<Tile>)
    ensures r == tiles + SegmentTiles(a, b)
  {
    var dir := b.Minus(a).Scale(1.0 / TileSize as real);
    r := AppendRuns(tiles, StartTile(a), dir.y, dir.x);
  }

  method AppendRuns(tiles: seq<Tile>, st: Tile, dy: real, dx: real) returns (r: seq<Tile>)
    ensures r == tiles + Runs(st, dy, dx)
  {
    if dy != 0.0 && dx != 0.0 {
      var ys := AppendRun([], st, RunSteps(dy), true);
      var xs := AppendRun([], st, RunSteps(dx), false);
      assert ys + xs == Runs(st, dy, dx);
      r := tiles + (ys + xs);
    } else if dy != 0.0 {
      r := AppendRun(tiles, st, RunSteps(dy), true);
      assert Runs(st, dy, dx) == RunTiles(st, RunSteps(dy), true) + [];
    } else if dx != 0.0 {
      r := AppendRun(tiles, st, RunSteps(dx), false);
      assert Runs(st, dy, dx) == [] + RunTiles(st, RunSteps(dx), false);
    } else {
      r := tiles;
      assert Runs(st, dy, dx) == [] + [];
    }
  }



  /** One more waypoint: the segment from the previous one is appended. */
  lemma WaypointStep(points: seq<Vec>, idx: nat)
    requires idx + 1 < |points|
    ensures WaypointTiles(points[..idx + 2]) == WaypointTiles(points[..idx + 1]) + SegmentTiles(points[idx], points[idx + 1])
  {
    var upto := points[..idx + 2];
    assert upto[..|upto| - 1] == points[..idx + 1];
    assert upto[|upto| - 2] == points[idx] && upto[|upto| - 1] == points[idx + 1];
  }

  /** One pass of the waypoint loop: the tiles up to waypoint idx + 1. */
  method AppendWaypoint(tiles: seq<Tile>, startNode: Tile, points: seq<Vec>, idx: nat) returns (r: seq<Tile>)
    requires idx + 1 < |points| && tiles == [startNode] + WaypointTiles(points[..idx + 1])
    ensures r == [startNode] + WaypointTiles(points[..idx + 2])
  {
    ghost var before := WaypointTiles(points[..idx + 1]);
    ghost var seg := SegmentTiles(points[idx], points[idx + 1]);
    r := AppendSegment(tiles, points[idx], points[idx + 1]);
    WaypointStep(points, idx);
    assert r == ([startNode] + before) + seg;
    assert ([startNode] + before) + seg == [startNode] + (before + seg);
  }

  /** The appending loops of create_path_sprites for one path. */
  method BuildPathTiles(startNode: Tile, points: seq<Vec>, endNode: Tile) returns (tiles: seq<Tile>)
    ensures tiles == PathTiles(startNode, points, endNode)
  {
    tiles := [startNode];
    var idx := 0;
    while idx < |points|
      invariant 0 <= idx <= |points|
      invariant tiles == [startNode] + WaypointTiles(points[..if idx + 1 <= |points| then idx + 1 else |points|])
    {
      if idx < |points| - 1 {
        tiles := AppendWaypoint(tiles, startNode, points, idx);
      }
      idx := idx + 1;
    }
    assert points[..if idx + 1 <= |points| then idx + 1 else |points|] == points;
    tiles := tiles + [endNode];
  }

  // ----- Path sprites -----

  datatype PathShape = Vertical | Horizontal | TopLeftCorner | BottomRightCorner | BottomLeftCorner | TopRightCorner

  /** The image of an interior tile from the offsets of its neighbours; unmatched patterns fall back to horizontal. */
  function Shape(prev: Tile, next: Tile): PathShape {
    if prev.col == next.col then Vertical
    else if prev.row == next.row then Horizontal
    else if (prev.col == -1 && next.row == -1) || (prev.row == -1 && next.col == -1) then TopLeftCorner
    else if (prev.col == 1 && next.row == 1) || (prev.row == 1 && next.col == 1) then BottomRightCorner
    else if (prev.col == -1 && next.row == 1) || (prev.row == 1 && next.col == -1) then BottomLeftCorner
    else if (prev.col == 1 && next.row == -1) || (prev.row == -1 && next.col == 1) then TopRightCorner
    else Horizontal
  }

  const West: Tile := Tile(-1, 0)
  const East: Tile := Tile(1, 0)
  const North: Tile := Tile(0, -1)
  const South: Tile := Tile(0, 1)

  /** The shape does not depend on which neighbour comes first along the path. */
  lemma ShapeSymmetric(prev: Tile, next: Tile)
    ensures Shape(prev, next) == Shape(next, prev)
  {
  }

  /** Straight tiles and the four corners, named by the sides their neighbours are on. */
  lemma ShapeOfNeighbours()
    ensures Shape(North, South) == Vertical && Shape(West, East) == Horizontal
    ensures Shape(West, North) == TopLeftCorner && Shape(East, South) == BottomRightCorner
    ensures Shape(West, South) == BottomLeftCorner && Shape(East, North) == TopRightCorner
  {
  }

  /** A WalkPath sprite: top-left position, image and the level it leads to. */
  datatype PathSprite = PathSprite(pos: Vec, shape: PathShape, level: int)

  /** The sprites of one path: one per interior tile. */
  function PathSprites(key: int, tiles: seq<Tile>): (s: seq<PathSprite>)
    requires |tiles| >= 2
    ensures |s| == |tiles| - 2
  {
    seq(|tiles| - 2, i requires 0 <= i < |tiles| - 2 =>
      var t := tiles[i + 1];
      PathSprite(Vec((t.col * TileSize) as real, (t.row * TileSize) as real),
                 Shape(tiles[i].Minus(t), tiles[i + 2].Minus(t)), key))
  }

  /** Each interior tile gets one sprite at its grid position, on its path's level, and the end tiles get none. */
  lemma PathSpritesCover(key: int, tiles: seq<Tile>)
    requires |tiles| >= 2
    ensures forall i :: 1 <= i < |tiles| - 1 ==>
      PathSprites(key, tiles)[i - 1].pos == Vec((tiles[i].col * TileSize) as real, (tiles[i].row * TileSize) as real) &&
      PathSprites(key, tiles)[i - 1].level == key
  {
    var s := PathSprites(key, tiles);
    forall i | 1 <= i < |tiles| - 1
      ensures s[i - 1].pos == Vec((tiles[i].col * TileSize) as real, (tiles[i].row * TileSize) as real)
      ensures s[i - 1].level == key
    {
      var t := tiles[i];
      assert s[i - 1] == PathSprite(Vec((t.col * TileSize) as real, (t.row * TileSize) as real),
                                    Shape(tiles[i - 1].Minus(t), tiles[i + 1].Minus(t)), key);
    }
  }

  /** A path sprite in the overworld group: on the path layer, hidden until its level is unlocked. */
  function AsWorldSprite(p: PathSprite, image: int): (w: WorldSprite)
    ensures w.z == ZPath && w.level == p.level && !w.icon
    ensures forall unlocked :: BackgroundShown(w, unlocked) <==> p.level <= unlocked
  {
    WorldSprite(image, Rect(p.pos.x, p.pos.y, TileSize as real, TileSize as real), ZPath, p.level, false)
  }

  /** The path tiles for one entry of the table: nodes[start] and nodes[path_id] must exist. */
  function EntryTiles(grid: map<int, Tile>, pathId: int, e: PathEntry): (r: Result<seq<Tile>>)
    ensures r.Err? <==> e.start !in grid || pathId !in grid
    ensures r.Err? ==> r.error == KeyError
    ensures r.Ok? ==> r.value == PathTiles(grid[e.start], e.pos, grid[pathId])
  {
    if e.start !in grid || pathId !in grid then Err(KeyError)
    else Ok(PathTiles(grid[e.start], e.pos, grid[pathId]))
  }

  // ----- Input -----

  /** The keys read by input: arrows or WASD, and z or return to confirm. */
  datatype WorldKeys = WorldKeys(down: bool, up: bool, left: bool, right: bool, confirm: bool)

  predicate EndsReversed(s: string) {
    |s| > 0 && s[|s| - 1] == 'r'
  }

  function Reverse<T>(s: seq<T>): (r: seq<T>)
    ensures |r| == |s| && forall i :: 0 <= i < |s| ==> r[i] == s[|s| - 1 - i]
    decreases |s|
  {
    if s == [] then [] else [s[|s| - 1]] + Reverse(s[..|s| - 1])
  }

  /**
   * move(dir): the path keyed by the first character of the direction's
   * value, reversed when the value ends in 'r'. The icon receives its own
   * sequence, so consuming it never changes the table.
   */
  function MovePath(dirs: map<string, string>, dir: string, paths: map<int, PathEntry>): (r: Result<seq<Vec>>)
  {
    if dir !in dirs then Err(KeyError)
    else if |dirs[dir]| == 0 then Err(IndexError)
    else if !IsDigit(dirs[dir][0]) then Err(ValueError)
    else if DigitValue(dirs[dir][0]) !in paths then Err(KeyError)
    else
      var pos := paths[DigitValue(dirs[dir][0])].pos;
      Ok(if EndsReversed(dirs[dir]) then Reverse(pos) else pos)
  }

  /** After can_move allows a direction, move fails only for a missing path and otherwise follows it, forwards or backwards. */
  lemma MovePathAfterCanMove(dirs: map<string, string>, dir: string, unlocked: int, paths: map<int, PathEntry>)
    requires CanMove(dirs, dir, unlocked) == Ok(true)
    ensures var key := DigitValue(dirs[dir][0]);
      (MovePath(dirs, dir, paths).Err? <==> key !in paths) &&
      (key in paths && !EndsReversed(dirs[dir]) ==> MovePath(dirs, dir, paths) == Ok(paths[key].pos)) &&
      (key in paths && EndsReversed(dirs[dir]) ==> MovePath(dirs, dir, paths) == Ok(Reverse(paths[key].pos))) &&
      key <= unlocked
  {
  }

  /** One direction check of input: if pressed and allowed, start moving along its path. */
  function TryMove(m: Motion, dirs: map<string, string>, unlocked: int, paths: map<int, PathEntry>,
                   pressed: bool, dir: string): Result<Motion>
  {
    if !pressed then Ok(m)
    else match CanMove(dirs, dir, unlocked)
      case Err(e) => Err(e)
      case Ok(allowed) =>
        if !allowed then Ok(m)
        else match MovePath(dirs, dir, paths)
          case Err(e) => Err(e)
          case Ok(p) => StartedMoving(m, p)
  }

  /** The movement part of input: nothing while the icon has a path, else down, up, left, right in turn. */
  function InputMotion(m: Motion, dirs: map<string, string>, unlocked: int, paths: map<int, PathEntry>,
                       keys: WorldKeys): Result<Motion>
  {
    if HasWaypoints(m.path) then Ok(m)
    else
      match TryMove(m, dirs, unlocked, paths, keys.down, "down")
      case Err(e) => Err(e)
      case Ok(m1) =>
        match TryMove(m1, dirs, unlocked, paths, keys.up, "up")
        case Err(e) => Err(e)
        case Ok(m2) =>
          match TryMove(m2, dirs, unlocked, paths, keys.left, "left")
          case Err(e) => Err(e)
          case Ok(m3) => TryMove(m3, dirs, unlocked, paths, keys.right, "right")
  }

  lemma TryMoveSteady(m: Motion, dirs: map<string, string>, unlocked: int, paths: map<int, PathEntry>,
                      pressed: bool, dir: string)
    requires Steady(m.direction, m.path)
    ensures TryMove(m, dirs, unlocked, paths, pressed, dir).Ok? ==>
      Steady(TryMove(m, dirs, unlocked, paths, pressed, dir).value.direction, TryMove(m, dirs, unlocked, paths, pressed, dir).value.path)
  {
    var r := TryMove(m, dirs, unlocked, paths, pressed, dir);
    if r.Ok? && r.value != m {
      FindDirSteady(r.value.center, r.value.path);
    }
  }

  /**
   * Input never moves an icon that is still on its way, and otherwise keeps
   * it steady: it moves exactly when it received a path with waypoints left.
   */
  lemma {:induction false} InputMotionSteady(m: Motion, dirs: map<string, string>, unlocked: int,
                                             paths: map<int, PathEntry>, keys: WorldKeys)
    requires Steady(m.direction, m.path)
    ensures HasWaypoints(m.path) ==> InputMotion(m, dirs, unlocked, paths, keys) == Ok(m)
    ensures InputMotion(m, dirs, unlocked, paths, keys).Ok? ==>
      Steady(InputMotion(m, dirs, unlocked, paths, keys).value.direction, InputMotion(m, dirs, unlocked, paths, keys).value.path)
  {
    if !HasWaypoints(m.path) {
      TryMoveSteady(m, dirs, unlocked, paths, keys.down, "down");
      var r1 := TryMove(m, dirs, unlocked, paths, keys.down, "down");
      if r1.Ok? {
        TryMoveSteady(r1.value, dirs, unlocked, paths, keys.up, "up");
        var r2 := TryMove(r1.value, dirs, unlocked, paths, keys.up, "up");
        if r2.Ok? {
          TryMoveSteady(r2.value, dirs, unlocked, paths, keys.left, "left");
          var r3 := TryMove(r2.value, dirs, unlocked, paths, keys.left, "left");
          if r3.Ok? {
            TryMoveSteady(r3.value, dirs, unlocked, paths, keys.right, "right");
          }
        }
      }
    }
  }

  /** With no key pressed the icon is left alone. */
  lemma InputWithoutKeys(m: Motion, dirs: map<string, string>, unlocked: int, paths: map<int, PathEntry>)
    ensures InputMotion(m, dirs, unlocked, paths, WorldKeys(false, false, false, false, false)) == Ok(m)
  {
  }

  /** A locked direction is never taken, whatever is pressed. */
  lemma LockedDirectionIgnored(m: Motion, dirs: map<string, string>, unlocked: int, paths: map<int, PathEntry>,
                               pressed: bool, dir: string)
    requires CanMove(dirs, dir, unlocked) == Ok(false)
    ensures TryMove(m, dirs, unlocked, paths, pressed, dir) == Ok(m)
  {
  }

  /** get_curr_node: the first node the icon overlaps, else the previous one. */
  function CurrentNode(prev: Node, nodes: seq<Node>, icon: Rect): (n: Node)
  {
    var i := CollideList(icon, NodeRects(nodes));
    if i >= 0 then nodes[i] else prev
  }

  function NodeRects(nodes: seq<Node>): (rs: seq<Rect>)
    ensures |rs| == |nodes| && forall i :: 0 <= i < |nodes| ==> rs[i] == nodes[i].rect
  {
    seq(|nodes|, i requires 0 <= i < |nodes| => nodes[i].rect)
  }

  /** The current node changes only to the first node under the icon, and stays put when none is. */
  lemma CurrentNodeRule(prev: Node, nodes: seq<Node>, icon: Rect)
    ensures (forall i :: 0 <= i < |nodes| ==> !Collide(icon, nodes[i].rect)) ==> CurrentNode(prev, nodes, icon) == prev
    ensures forall i ::
      (0 <= i < |nodes| && Collide(icon, nodes[i].rect) && (forall j :: 0 <= j < i ==> !Collide(icon, nodes[j].rect))) ==>
      CurrentNode(prev, nodes, icon) == nodes[i]
  {
    var rs := NodeRects(nodes);
    var k := CollideList(icon, rs);
    forall i | 0 <= i < |nodes| && Collide(icon, nodes[i].rect) && (forall j :: 0 <= j < i ==> !Collide(icon, nodes[j].rect))
      ensures CurrentNode(prev, nodes, icon) == nodes[i]
    {
      assert rs[i] == nodes[i].rect;
    }
  }

  /**
   * Confirming is read only while the icon stands on a node (it has no
   * waypoints left when the input arrives); a move started by the same
   * call does not cancel it.
   */
  predicate EntersLevel(keys: WorldKeys, m: Motion) {
    keys.confirm && !HasWaypoints(m.path)
  }

  /** The overworld stage. */
  class Overworld {
    const data: Data
    const icon: PlayerIcon
    const nodes: seq<Node>
    const paths: map<int, PathEntry>
    var currentNode: Node

    predicate Valid()
      reads this, icon
    {
      icon.Valid()
    }

    /**
     * The part of the constructor after setup: the first node of level 0
     * becomes current, or the list indexing raises.
     */
    static method Create(data: Data, icon: PlayerIcon, nodes: seq<Node>, paths: map<int, PathEntry>)
      returns (r: Result<Overworld>)
      requires icon.Valid()
      ensures r.Err? <==> FirstOfLevelZero(nodes).Err?
      ensures r.Err? ==> r.error == IndexError
      ensures r.Ok? ==>
        (fresh(r.value) && r.value.Valid() &&
         r.value.data == data && r.value.icon == icon && r.value.nodes == nodes && r.value.paths == paths &&
         r.value.currentNode == FirstOfLevelZero(nodes).value)
    {
      var first := FirstOfLevelZero(nodes);
      if first.Err? {
        return Err(first.error);
      }
      var o := new Overworld(data, icon, nodes, paths, first.value);
      return Ok(o);
    }

    constructor (data: Data, icon: PlayerIcon, nodes: seq<Node>, paths: map<int, PathEntry>, current: Node)
      requires icon.Valid()
      ensures Valid()
      ensures this.data == data && this.icon == icon && this.nodes == nodes && this.paths == paths
      ensures currentNode == current
    {
      this.data := data;
      this.icon := icon;
      this.nodes := nodes;
      this.paths := paths;
      currentNode := current;
    }

    /** One direction check of input. */
    method Try(pressed: bool, dir: string) returns (err: Option<Error>)
      requires Valid()
      modifies icon
      ensures Valid()
      ensures var r := TryMove(old(icon.Movement()), currentNode.dirs, data.unlockedLevel, paths, pressed, dir);
        (r.Err? ==> err == Some(r.error)) && (r.Ok? ==> err == None && icon.Movement() == r.value)
      ensures icon.state == old(icon.state) && icon.frameIndex == old(icon.frameIndex)
    {
      TryMoveSteady(icon.Movement(), currentNode.dirs, data.unlockedLevel, paths, pressed, dir);
      if !pressed {
        return None;
      }
      var allowed := CanMove(currentNode.dirs, dir, data.unlockedLevel);
      if allowed.Err? {
        return Some(allowed.error);
      }
      if !allowed.value {
        return None;
      }
      var p := MovePath(currentNode.dirs, dir, paths);
      if p.Err? {
        return Some(p.error);
      }
      err := icon.StartMoving(p.value);
    }

    /**
     * input(): movement first; then confirming records the node's level as
     * the current one and requests the level stage with the one argument
     * the source passes.
     */
    method Input(keys: WorldKeys) returns (err: Option<Error>, requests: seq<StageRequest>)
      requires Valid()
      modifies icon, data
      ensures Valid()
      ensures var r := InputMotion(old(icon.Movement()), currentNode.dirs, old(data.unlockedLevel), paths, keys);
        (r.Err? ==> err == Some(r.error) && requests == [] && data.currentLevel == old(data.currentLevel)) &&
        (r.Ok? ==>
          (err == None && icon.Movement() == r.value &&
           requests == (if EntersLevel(keys, old(icon.Movement())) then [StageRequest(LevelState, None)] else []) &&
           data.currentLevel == (if EntersLevel(keys, old(icon.Movement())) then currentNode.level else old(data.currentLevel))))
      ensures data.unlockedLevel == old(data.unlockedLevel) && data.health == old(data.health)
      ensures data.coins == old(data.coins) && data.uiCalls == old(data.uiCalls)
      ensures data.unlockedOverworld == old(data.unlockedOverworld) && data.currentOverworld == old(data.currentOverworld)
      ensures icon.state == old(icon.state) && icon.frameIndex == old(icon.frameIndex)
    {
      requests := [];
      err := None;
      if !(icon.path.Some? && |icon.path.value| > 0) {
        err := Try(keys.down, "down");
        if err.Some? {
          return;
        }
        err := Try(keys.up, "up");
        if err.Some? {
          return;
        }
        err := Try(keys.left, "left");
        if err.Some? {
          return;
        }
        err := Try(keys.right, "right");
        if err.Some? {
          return;
        }
        if keys.confirm {
          data.currentLevel := currentNode.level;
          requests := [StageRequest(LevelState, None)];
        }
      }
    }

    method GetCurrNode()
      modifies this
      ensures currentNode == CurrentNode(old(currentNode), nodes, icon.Rect())
    {
      var i := CollideList(icon.Rect(), NodeRects(nodes));
      if i >= 0 {
        currentNode := nodes[i];
      }
    }

    /** run(dt): input, then the current node, then the icon's update; drawing is Cameras.WorldSprites.Draw. */
    method Run(keys: WorldKeys, dt: real) returns (err: Option<Error>, requests: seq<StageRequest>)
      requires Valid()
      modifies this, icon, data
      ensures Valid()
      ensures var r := InputMotion(old(icon.Movement()), old(currentNode).dirs, old(data.unlockedLevel), paths, keys);
        r.Err? ==> err == Some(r.error) && requests == []
      ensures var r := InputMotion(old(icon.Movement()), old(currentNode).dirs, old(data.unlockedLevel), paths, keys);
        r.Ok? ==> err == None && requests == (if EntersLevel(keys, old(icon.Movement())) then [StageRequest(LevelState, None)] else [])
      ensures var r := InputMotion(old(icon.Movement()), old(currentNode).dirs, old(data.unlockedLevel), paths, keys);
        r.Ok? ==>
          currentNode == CurrentNode(old(currentNode), nodes, Geometry.Rect(r.value.center.x - icon.size.x / 2.0,
            r.value.center.y - icon.size.y / 2.0, icon.size.x, icon.size.y)) &&
          Moved(r.value, dt).Ok? && icon.Movement() == Moved(r.value, dt).value
      ensures data.currentLevel == (if err.None? && EntersLevel(keys, old(icon.Movement()))
        then old(currentNode).level else old(data.currentLevel))
      ensures data.unlockedLevel == old(data.unlockedLevel) && data.health == old(data.health)
      ensures data.coins == old(data.coins) && data.uiCalls == old(data.uiCalls)
      ensures data.unlockedOverworld == old(data.unlockedOverworld) && data.currentOverworld == old(data.currentOverworld)
      ensures err.None? ==>
        icon.state == AnimState(icon.direction) && icon.frameIndex == old(icon.frameIndex) + AnimSpeed as real * dt
      ensures err.Some? ==> icon.state == old(icon.state) && icon.frameIndex == old(icon.frameIndex)
    {
      ghost var r := InputMotion(icon.Movement(), currentNode.dirs, data.unlockedLevel, paths, keys);
      err, requests := Input(keys);
      if err.Some? {
        return;
      }
      ghost var rect := icon.Rect();
      assert rect == Geometry.Rect(r.value.center.x - icon.size.x / 2.0,
        r.value.center.y - icon.size.y / 2.0, icon.size.x, icon.size.y);
      GetCurrNode();
      assert icon.Movement() == r.value;
      icon.Update(dt);
    }
  }
}
