/**
 * How Level.setup in game/level.py sorts the objects of a Tiled map into
 * sprite groups and paint layers: the tile layers, the background details,
 * the objects layer, the moving objects with their chains, the enemies, the
 * items and the water. A map object enters as a plain record; loading the
 * map and its images is not part of this model.
 */
module LevelSetup {
  import opened Wrappers
  import opened Geometry
  import opened Settings
  import opened Sprites

  /** A Tiled object: its optional name, its rectangle, and whether it carries an image. */
  datatype MapObject = MapObject(name: Option<string>, x: real, y: real, width: real, height: real, hasImage: bool)

  /** The sprite groups of a level besides the group of all sprites. */
  datatype Group = Collision | SemiCollision | Damage | Teeth | Pearls | Items

  // ---------------------------------------------------------------- strings

  /** sub occurs in s starting at index i. */
  predicate OccursAt(s: string, sub: string, i: int) {
    0 <= i && i + |sub| <= |s| && s[i..i + |sub|] == sub
  }

  /** Python's `sub in s` on strings: sub occurs somewhere in s. */
  predicate Contains(s: string, sub: string) {
    exists i :: 0 <= i <= |s| && OccursAt(s, sub, i)
  }

  // ------------------------------------------------------------------ tiles

  datatype TileLayer = BgLayer | TerrainLayer | FgLayer | PlatformsLayer

  /** The groups a tile of the layer joins besides the group of all sprites. */
  function TileGroups(layer: TileLayer): (g: set<Group>)
    ensures Collision in g <==> layer == TerrainLayer
    ensures SemiCollision in g <==> layer == PlatformsLayer
    ensures |g| <= 1
  {
    match layer
    case TerrainLayer => {Collision}
    case PlatformsLayer => {SemiCollision}
    case _ => {}
  }

  /** The paint layer of a tile: background and foreground tiles at BG_TILES, the others at MAIN. */
  function TileZ(layer: TileLayer): (z: int)
    ensures z == ZBgTiles || z == ZMain
  {
    if layer == BgLayer || layer == FgLayer then ZBgTiles else ZMain
  }

  /** Only terrain tiles block, only platform tiles are one-way, and neither is painted behind the details. */
  lemma SolidTilesOnMainLayer(layer: TileLayer)
    ensures TileGroups(layer) != {} <==> TileZ(layer) == ZMain
    ensures TileGroups(layer) != {} ==> TileZ(layer) > ZBgDetails
  {
    assert Collision in TileGroups(TerrainLayer);
    assert SemiCollision in TileGroups(PlatformsLayer);
  }

  /** A tile at grid cell (col, row) sits at (col * TILE_SIZE, row * TILE_SIZE). */
  function TilePos(col: int, row: int): (p: Vec)
    ensures Trunc(p.x) / TileSize == col && Trunc(p.y) / TileSize == row
  {
    TruncOfInt(col * TileSize);
    TruncOfInt(row * TileSize);
    Vec((col * TileSize) as real, (row * TileSize) as real)
  }

  /**
   * The z the tile loop leaves in its loop variable: the value set by the
   * last tile, where the layers are visited as BG, TERRAIN, FG, PLATFORMS;
   * none when the map has no tiles at all.
   */
  function LastTileZ(bgTiles: nat, terrainTiles: nat, fgTiles: nat, platformTiles: nat): (z: Option<int>)
    ensures z.None? <==> bgTiles + terrainTiles + fgTiles + platformTiles == 0
    ensures platformTiles > 0 ==> z == Some(ZMain)
  {
    if platformTiles > 0 then Some(TileZ(PlatformsLayer))
    else if fgTiles > 0 then Some(TileZ(FgLayer))
    else if terrainTiles > 0 then Some(TileZ(TerrainLayer))
    else if bgTiles > 0 then Some(TileZ(BgLayer))
    else None
  }

  // -------------------------------------------------------- background details

  /**
   * The BG-details loop as written: a "static" object sets z to BG_TILES;
   * any other object is animated at whatever z is left over from the
   * previous object or from the tile loop, and a candle adds its light at
   * the same z. Yields the z of each sprite created, in order. A nameless
   * object raises TypeError, as does a static one without an image; an
   * animated object before any z was set reads an unbound local.
   */
  function BgDetailZsAsWritten(carried: Option<int>, objs: seq<MapObject>): Result<seq<int>>
    decreases |objs|
  {
    if objs == [] then Ok([])
    else
      var o := objs[0];
      if o.name.None? then Err(TypeError)
      else if o.name.value == "static" then
        if !o.hasImage then Err(TypeError)
        else
          var rest := BgDetailZsAsWritten(Some(ZBgTiles), objs[1..]);
          if rest.Err? then rest else Ok([ZBgTiles] + rest.value)
      else if carried.None? then Err(UnboundLocalError)
      else
        var here := if o.name.value == "candle" then [carried.value, carried.value] else [carried.value];
        var rest := BgDetailZsAsWritten(carried, objs[1..]);
        if rest.Err? then rest else Ok(here + rest.value)
  }

  /** The loop itself, carrying z from one object to the next. */
  method PlaceBgDetailsAsWritten(carried: Option<int>, objs: seq<MapObject>) returns (r: Result<seq<int>>)
    ensures r == BgDetailZsAsWritten(carried, objs)
  {
    var z := carried;
    var zs: seq<int> := [];
    var i := 0;
    assert objs[0..] == objs;
    ghost var whole := BgDetailZsAsWritten(carried, objs);
    assert whole.Ok? ==> [] + whole.value == whole.value;
    while i < |objs|
      invariant 0 <= i <= |objs|
      invariant BgDetailZsAsWritten(carried, objs) ==
        (var rest := BgDetailZsAsWritten(z, objs[i..]); if rest.Err? then rest else Ok(zs + rest.value))
    {
      var o := objs[i];
      assert objs[i..][0] == o && objs[i..][1..] == objs[i + 1..];
      if o.name.None? {
        return Err(TypeError);
      }
      var here: seq<int>;
      if o.name.value == "static" {
        if !o.hasImage {
          return Err(TypeError);
        }
        z := Some(ZBgTiles);
        here := [ZBgTiles];
      } else {
        if z.None? {
          return Err(UnboundLocalError);
        }
        here := if o.name.value == "candle" then [z.value, z.value] else [z.value];
      }
      ghost var rest := BgDetailZsAsWritten(z, objs[i + 1..]);
      assert rest.Ok? ==> zs + (here + rest.value) == (zs + here) + rest.value;
      zs := zs + here;
      i := i + 1;
    }
    assert BgDetailZsAsWritten(z, objs[i..]) == Ok([]);
    assert zs + [] == zs;
    return Ok(zs);
  }

  /**
   * A map whose platform layer has a tile and whose first background detail
   * is a candle paints the candle and its light at MAIN, among the player
   * and the enemies, not behind them.
   */
  lemma CandleOnMainLayer(x: real, y: real)
    ensures var candle := MapObject(Some("candle"), x, y, 32.0, 32.0, false);
      BgDetailZsAsWritten(LastTileZ(0, 0, 0, 1), [candle]) == Ok([ZMain, ZMain])
  {
    var candle := MapObject(Some("candle"), x, y, 32.0, 32.0, false);
    assert [candle][1..] == [];
    assert BgDetailZsAsWritten(Some(ZMain), []) == Ok([]);
    assert [ZMain, ZMain] + [] == [ZMain, ZMain];
  }

  /** The background details as intended: every sprite of the layer at BG_TILES. */
  function BgDetailZs(objs: seq<MapObject>): Result<seq<int>>
    decreases |objs|
  {
    if objs == [] then Ok([])
    else
      var o := objs[0];
      if o.name.None? || (o.name.value == "static" && !o.hasImage) then Err(TypeError)
      else
        var here := if o.name.value == "candle" then [ZBgTiles, ZBgTiles] else [ZBgTiles];
        var rest := BgDetailZs(objs[1..]);
        if rest.Err? then rest else Ok(here + rest.value)
  }

  /** Every background detail is painted behind the main layer, whatever the tiles were. */
  lemma {:induction false} BgDetailsBehind(objs: seq<MapObject>)
    ensures BgDetailZs(objs).Ok? ==> forall z :: z in BgDetailZs(objs).value ==> z == ZBgTiles
    decreases |objs|
  {
    if objs != [] {
      BgDetailsBehind(objs[1..]);
    }
  }

  /** Once a static object has set z, the as-written loop agrees with the intended one. */
  lemma {:induction false} AsWrittenAgreesAfterStatic(objs: seq<MapObject>)
    ensures BgDetailZsAsWritten(Some(ZBgTiles), objs) == BgDetailZs(objs)
    decreases |objs|
  {
    if objs != [] {
      AsWrittenAgreesAfterStatic(objs[1..]);
    }
  }

  /** The candle's light: 20 px up and left of the candle. */
  function CandleLightPos(o: MapObject): (p: Vec)
    ensures p.x == o.x - 20.0 && p.y == o.y - 20.0
  {
    Vec(o.x - 20.0, o.y - 20.0)
  }

  // ------------------------------------------------------------ objects

  /** What the objects layer makes of an object. */
  datatype ObjectRole =
    | PlayerSpawn(pos: Vec)
    | Crate(pos: Vec)
    | FloorSpikeAt(pos: Vec)
    | Decoration(pos: Vec, groups: set<Group>, z: int, palm: bool)

  lemma ContainsAt(s: string, sub: string, i: nat)
    requires i + |sub| <= |s| && s[i..i + |sub|] == sub
    ensures Contains(s, sub)
  {
    assert OccursAt(s, sub, i);
  }

  /** `name in ("saw")` as written: ("saw") is a string, so this is a substring test. */
  predicate DecorationDamagesAsWritten(name: string) {
    Contains("saw", name)
  }

  /** The test as written also puts objects named "s", "aw" or "" into the damage group. */
  lemma SubstringOfSawDamages()
    ensures DecorationDamagesAsWritten("aw") && DecorationDamagesAsWritten("s")
    ensures DecorationDamagesAsWritten("")
  {
    ContainsAt("saw", "aw", 1);
    ContainsAt("saw", "s", 0);
    ContainsAt("saw", "", 0);
  }

  /** The evidently intended membership test, against the one-element tuple ("saw",). */
  predicate DecorationDamages(name: string) {
    name == "saw"
  }

  /** Only a saw hurts among the decorations; "aw" does not. */
  lemma OnlySawDamages()
    ensures DecorationDamages("saw") && !DecorationDamages("aw") && !DecorationDamages("s")
  {
  }

  /** The intended test is the substring test narrowed to the whole name. */
  lemma DamagesImpliesAsWritten(name: string)
    requires DecorationDamages(name)
    ensures DecorationDamagesAsWritten(name)
  {
    ContainsAt("saw", name, 0);
  }

  /**
   * The objects layer: a nameless object raises TypeError; the player, a
   * barrel or a crate need an image; any other object is an animated
   * decoration, one-way for the two palms, harmful for a saw, at
   * BG_DETAILS when its name contains "bg" and at MAIN otherwise.
   */
  function ObjectRoleOf(o: MapObject): (r: Result<ObjectRole>)
    ensures o.name.None? ==> r == Err(TypeError)
    ensures r.Err? ==> r == Err(TypeError)
    ensures r.Ok? && r.value.Decoration? ==>
      var name := o.name.value;
      (SemiCollision in r.value.groups <==> name == "palm_small" || name == "palm_large") &&
      (Damage in r.value.groups <==> name == "saw") &&
      (r.value.z == ZBgDetails <==> Contains(name, "bg")) &&
      (r.value.palm <==> Contains(name, "palm"))
  {
    var pos := Vec(o.x, o.y);
    if o.name.None? then Err(TypeError)
    else
      var name := o.name.value;
      if name == "player" || name == "barrel" || name == "crate" then
        if !o.hasImage then Err(TypeError)
        else if name == "player" then Ok(PlayerSpawn(pos))
        else Ok(Crate(pos))
      else if name == "floor_spike" then Ok(FloorSpikeAt(pos))
      else
        var semi: set<Group> := if name == "palm_small" || name == "palm_large" then {SemiCollision} else {};
        var harm: set<Group> := if DecorationDamages(name) then {Damage} else {};
        Ok(Decoration(pos, semi + harm, if Contains(name, "bg") then ZBgDetails else ZMain, Contains(name, "palm")))
  }

  /** A palm's animation runs at ANIM_SPEED plus a uniform draw from [-1, 1]; others at ANIM_SPEED. */
  function DecorationAnimSpeed(palm: bool, jitter: real): (s: real)
    requires -1.0 <= jitter <= 1.0
    ensures palm ==> AnimSpeed as real - 1.0 <= s <= AnimSpeed as real + 1.0
    ensures !palm ==> s == AnimSpeed as real
  {
    if palm then AnimSpeed as real + jitter else AnimSpeed as real
  }

  /** The flag object gives the level's finish rect, its own rectangle. */
  function FinishRect(o: MapObject): (r: Option<Rect>)
    ensures r.Some? <==> o.name == Some("flag")
    ensures r.Some? ==> r.value.TopLeft() == Vec(o.x, o.y) && r.value.w == o.width && r.value.h == o.height
  {
    if o.name == Some("flag") then Some(Rect(o.x, o.y, o.width, o.height)) else None
  }

  // ------------------------------------------------------- moving objects

  /** range(lo, hi, 20). */
  function Steps(lo: int, hi: int): seq<int>
    decreases hi - lo
  {
    if lo >= hi then [] else [lo] + Steps(lo + 20, hi)
  }

  /** range(lo, hi, 20) holds exactly the values from lo below hi that are 20 apart from lo, in rising order. */
  lemma {:induction false} StepsIff(lo: int, hi: int, k: int)
    ensures k in Steps(lo, hi) <==> lo <= k < hi && (k - lo) % 20 == 0
    decreases hi - lo
  {
    if lo < hi {
      StepsIff(lo + 20, hi, k);
      if lo + 20 <= k {
        assert (k - lo) % 20 == (k - (lo + 20)) % 20;
      }
    }
  }

  /** range(lo, hi, 20) has ceil((hi - lo) / 20) elements. */
  lemma {:induction false} StepsCount(lo: int, hi: int)
    ensures |Steps(lo, hi)| == if lo >= hi then 0 else (hi - lo + 19) / 20
    decreases hi - lo
  {
    if lo < hi {
      StepsCount(lo + 20, hi);
    }
  }

  /** How setup builds one object of the moving-objects layer. */
  datatype MovingPlan =
    | SpikePlan(pivot: Vec, chainRadii: seq<int>)
    | SliderPlan(axis: Axis, start: Vec, end: Vec, groups: set<Group>, chain: seq<Vec>)

  /**
   * The anchors of a moving object: a wide one moves along x between the
   * midpoints of its left and right edges, any other along y between the
   * midpoints of its top and bottom edges.
   */
  function Anchors(o: MapObject): (r: (Axis, Vec, Vec))
    ensures r.0 == AxisX <==> o.width > o.height
    ensures r.0 == AxisX ==> r.1 == Vec(o.x, o.y + o.height / 2.0) && r.2 == Vec(o.x + o.width, o.y + o.height / 2.0)
    ensures r.0 == AxisY ==> r.1 == Vec(o.x + o.width / 2.0, o.y) && r.2 == Vec(o.x + o.width / 2.0, o.y + o.height)
  {
    if o.width > o.height then (AxisX, Vec(o.x, o.y + o.height / 2.0), Vec(o.x + o.width, o.y + o.height / 2.0))
    else (AxisY, Vec(o.x + o.width / 2.0, o.y), Vec(o.x + o.width / 2.0, o.y + o.height))
  }

  /** The track runs through the object's middle and spans its longer side (its height when square). */
  lemma AnchorsSpanObject(o: MapObject)
    ensures var (axis, s, e) := Anchors(o);
      (axis == AxisX ==> s.y == e.y == o.y + o.height / 2.0) &&
      (axis == AxisY ==> s.x == e.x == o.x + o.width / 2.0) &&
      (e.x - s.x) + (e.y - s.y) == if o.width > o.height then o.width else o.height
  {
  }

  /** The saw's chain: one link every 20 px from int(start) to int(end) along the axis, centred on the track. */
  function SawChain(axis: Axis, start: Vec, end: Vec, chainSize: Vec): (c: seq<Vec>)
    ensures axis == AxisX ==> |c| == |Steps(Trunc(start.x), Trunc(end.x))|
    ensures axis == AxisY ==> |c| == |Steps(Trunc(start.y), Trunc(end.y))|
  {
    if axis == AxisX then
      var xs := Steps(Trunc(start.x), Trunc(end.x));
      seq(|xs|, i requires 0 <= i < |xs| => Vec(xs[i] as real, start.y - chainSize.y / 2.0))
    else
      var ys := Steps(Trunc(start.y), Trunc(end.y));
      seq(|ys|, i requires 0 <= i < |ys| => Vec(start.x - chainSize.x / 2.0, ys[i] as real))
  }

  /**
   * The moving-objects layer: a "spike" is a spiked ball on the object's
   * centre with a chain ball every 20 px of radius; anything else with a
   * name moves between its anchors, one-way when its platform property is
   * set and harmful otherwise, and a saw adds its chain.
   */
  function MovingPlanOf(o: MapObject, radius: int, platform: bool, chainSize: Vec): (r: Result<MovingPlan>)
    ensures o.name == Some("spike") ==> r.Ok? && r.value.SpikePlan?
    ensures o.name.None? ==> r == Err(TypeError)
    ensures r.Ok? && r.value.SliderPlan? ==>
      (r.value.groups == if platform then {SemiCollision} else {Damage}) &&
      (r.value.axis, r.value.start, r.value.end) == Anchors(o) &&
      (r.value.chain != [] ==> o.name == Some("saw"))
  {
    if o.name == Some("spike") then
      Ok(SpikePlan(Vec(o.x + o.width / 2.0, o.y + o.height / 2.0), Steps(0, radius)))
    else if o.name.None? then Err(TypeError)
    else
      var (axis, s, e) := Anchors(o);
      var chain := if o.name.value == "saw" then SawChain(axis, s, e, chainSize) else [];
      Ok(SliderPlan(axis, s, e, if platform then {SemiCollision} else {Damage}, chain))
  }

  /** The chain of a spike of radius r has a ball at 0, 20, 40, ... below r. */
  lemma SpikeChainRadii(o: MapObject, radius: int, platform: bool, chainSize: Vec, k: int)
    requires o.name == Some("spike")
    ensures var plan := MovingPlanOf(o, radius, platform, chainSize).value;
      k in plan.chainRadii <==> 0 <= k < radius && k % 20 == 0
  {
    StepsIff(0, radius, k);
  }

  // -------------------------------------------------------------- enemies

  /** The enemies layer: a tooth hurts and patrols, a shell is solid; other names make nothing. */
  function EnemyGroups(name: Option<string>): (g: Option<set<Group>>)
    ensures g.Some? <==> name == Some("tooth") || name == Some("shell")
    ensures name == Some("tooth") ==> g == Some({Damage, Teeth})
    ensures name == Some("shell") ==> g == Some({Collision})
  {
    if name == Some("tooth") then Some({Damage, Teeth})
    else if name == Some("shell") then Some({Collision})
    else None
  }

  /** create_perl: pearls are fired at speed 150 and join the damage and pearl groups. */
  const PearlSpeed: real := 150.0
  const PearlGroups: set<Group> := {Damage, Pearls}

  // ---------------------------------------------------------------- items

  /** An item is centred half a tile right of and below its object's top-left corner. */
  function ItemCentre(o: MapObject): (r: Result<Vec>)
    ensures r.Ok? <==> o.name.Some?
    ensures r.Err? ==> r.error == TypeError
    ensures r.Ok? ==> r.value == Vec(o.x + TileSize as real / 2.0, o.y + TileSize as real / 2.0)
  {
    if o.name.None? then Err(TypeError) else Ok(Vec(o.x + 32.0, o.y + 32.0))
  }

  // ---------------------------------------------------------------- water

  /** A water sprite: its top-left, and whether it is the animated surface. */
  datatype WaterTile = WaterTile(pos: Vec, surface: bool)

  /** Row `row` of a water body, `cols` tiles wide. */
  function WaterRow(o: MapObject, row: nat, cols: nat): (r: seq<WaterTile>)
    ensures |r| == cols
    decreases cols
  {
    if cols == 0 then []
    else
      var pos := Vec(o.x + ((cols - 1) * TileSize) as real, o.y + (row * TileSize) as real);
      WaterRow(o, row, cols - 1) + [WaterTile(pos, row == 0)]
  }

  /** The first `rows` rows of a water body, row by row. */
  function WaterRows(o: MapObject, rows: nat, cols: nat): (r: seq<WaterTile>)
    decreases rows
  {
    if rows == 0 then [] else WaterRows(o, rows - 1, cols) + WaterRow(o, rows - 1, cols)
  }

  /** int(h / TILE_SIZE) rows and int(w / TILE_SIZE) columns; none when negative. */
  function WaterSize(o: MapObject): (nat, nat) {
    var rows := Trunc(o.height / TileSize as real);
    var cols := Trunc(o.width / TileSize as real);
    (if rows < 0 then 0 else rows, if cols < 0 then 0 else cols)
  }

  /** The nested loops over rows and columns that lay out a water body. */
  method BuildWater(o: MapObject) returns (tiles: seq<WaterTile>)
    ensures tiles == WaterRows(o, WaterSize(o).0, WaterSize(o).1)
  {
    var (rows, cols) := WaterSize(o);
    tiles := [];
    var row := 0;
    while row < rows
      invariant 0 <= row <= rows
      invariant tiles == WaterRows(o, row, cols)
    {
      var col := 0;
      while col < cols
        invariant 0 <= col <= cols
        invariant tiles == WaterRows(o, row, cols) + WaterRow(o, row, col)
      {
        var x := o.x + (col * TileSize) as real;
        var y := o.y + (row * TileSize) as real;
        tiles := tiles + [WaterTile(Vec(x, y), row == 0)];
        col := col + 1;
      }
      row := row + 1;
    }
  }

  /** A water body has rows x cols tiles. */
  lemma {:induction false} WaterCount(o: MapObject, rows: nat, cols: nat)
    ensures |WaterRows(o, rows, cols)| == rows * cols
    decreases rows
  {
    if rows > 0 {
      WaterCount(o, rows - 1, cols);
      assert (rows - 1) * cols + cols == rows * cols;
    }
  }

  /** Exactly the tiles of the top row are the animated surface. */
  lemma {:induction false} WaterSurfaceOnTop(o: MapObject, rows: nat, cols: nat)
    ensures forall t :: t in WaterRows(o, rows, cols) ==> (t.surface <==> t.pos.y == o.y)
    decreases rows
  {
    if rows > 0 {
      WaterSurfaceOnTop(o, rows - 1, cols);
      WaterRowSurface(o, rows - 1, cols);
    }
  }

  lemma {:induction false} WaterRowSurface(o: MapObject, row: nat, cols: nat)
    ensures forall t :: t in WaterRow(o, row, cols) ==> t.pos.y == o.y + (row * TileSize) as real && t.surface == (row == 0)
    decreases cols
  {
    if cols > 0 {
      WaterRowSurface(o, row, cols - 1);
    }
  }
}
