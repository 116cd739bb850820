/**
 * The two sprite groups that own a camera (utils/groups.py). AllSprites
 * follows the player through a level: it centres the target, clamps the
 * offset to the level's borders, drifts the sky's clouds and paints its
 * sprites in ascending z. WorldSprites follows the overworld icon without
 * clamping and paints in two passes: the layers behind the main one by z,
 * hiding paths to levels not yet unlocked, then the main layer by centre y.
 * A blit is recorded as the sprite painted and the screen position.
 */
module Cameras {
  import opened Wrappers
  import opened Geometry
  import opened Settings
  import opened Timers
  import opened PaintOrder

  datatype Blit<T> = Blit(sprite: T, pos: Vec)

  // ----- Borders and offset -----

  /** The offset limits: the largest offsets are left and top, the smallest right and bottom. */
  datatype Borders = Borders(left: real, right: real, top: real, bottom: real)

  /** The border table of a level `levelWidth` by `levelHeight` tiles. */
  function LevelBorders(levelWidth: int, levelHeight: int, topLimit: int): Borders {
    Borders(0.0, (WindowWidth - levelWidth * TileSize) as real,
            topLimit as real, (WindowHeight - levelHeight * TileSize) as real)
  }

  /** The offset that draws the target at the centre of the window. */
  function CentredOffset(target: Vec): (o: Vec)
    ensures target.Plus(o) == Vec(WindowWidth as real / 2.0, WindowHeight as real / 2.0)
  {
    Vec(-(target.x - WindowWidth as real / 2.0), -(target.y - WindowHeight as real / 2.0))
  }

  /** One axis of constrain_camera: first at most `high`, then at least `low`. */
  function ClampAxis(v: real, high: real, low: real): real {
    var capped := if v < high then v else high;
    if capped > low then capped else low
  }

  /** constrain_camera. */
  function Constrained(o: Vec, b: Borders): Vec {
    Vec(ClampAxis(o.x, b.left, b.right), ClampAxis(o.y, b.top, b.bottom))
  }

  /** When the level is at least a window across, the offset ends within the borders. */
  lemma ConstrainedWithinBorders(o: Vec, b: Borders)
    requires b.right <= b.left && b.bottom <= b.top
    ensures b.right <= Constrained(o, b).x <= b.left
    ensures b.bottom <= Constrained(o, b).y <= b.top
  {
  }

  /** An offset already within the borders is kept. */
  lemma ConstrainedKeepsInside(o: Vec, b: Borders)
    requires b.right <= o.x <= b.left && b.bottom <= o.y <= b.top
    ensures Constrained(o, b) == o
  {
  }

  /** Constraining twice is constraining once. */
  lemma ConstrainedIdempotent(o: Vec, b: Borders)
    ensures Constrained(Constrained(o, b), b) == Constrained(o, b)
  {
  }

  /** A level narrower than the window is pinned at its right border, the second comparison winning. */
  lemma NarrowLevelPinned(o: Vec, b: Borders)
    requires b.right > b.left
    ensures Constrained(o, b).x == b.right
  {
  }

  /**
   * The constrained camera never shows anything outside a level at least a
   * window wide and high above its top limit: the visible window starts at
   * -offset, so it lies within [0, level width] and above the level's
   * bottom, not above -topLimit.
   */
  lemma {:induction false} CameraShowsOnlyLevel(o: Vec, levelWidth: int, levelHeight: int, topLimit: int)
    requires levelWidth * TileSize >= WindowWidth && levelHeight * TileSize >= WindowHeight
    requires topLimit >= WindowHeight - levelHeight * TileSize
    ensures var c := Constrained(o, LevelBorders(levelWidth, levelHeight, topLimit));
      0.0 <= -c.x && -c.x + WindowWidth as real <= (levelWidth * TileSize) as real &&
      -(topLimit as real) <= -c.y && -c.y + WindowHeight as real <= (levelHeight * TileSize) as real
  {
    var b := LevelBorders(levelWidth, levelHeight, topLimit);
    ConstrainedWithinBorders(o, b);
  }

  // ----- Sky -----

  const LargeCloudSpeed: real := 50.0
  const CloudTimerDuration: int := 2500
  const InitialClouds: int := 20

  /** The large cloud drifts left at 50 px/s and jumps back to 0 once a whole width has passed. */
  function LargeCloudStep(x: real, width: int, dt: real): real {
    var moved := x + (-1.0) * LargeCloudSpeed * dt;
    if moved <= -(width as real) then 0.0 else moved
  }

  /** The large cloud's x stays within (-width, 0] for any non-negative dt. */
  lemma LargeCloudStaysInStrip(x: real, width: int, dt: real)
    requires width > 0 && -(width as real) < x <= 0.0 && dt >= 0.0
    ensures -(width as real) < LargeCloudStep(x, width, dt) <= 0.0
  {
  }

  /** A step that reaches -width wraps to exactly 0; any other step moves by 50 dt. */
  lemma LargeCloudWraps(x: real, width: int, dt: real)
    ensures x - 50.0 * dt <= -(width as real) ==> LargeCloudStep(x, width, dt) == 0.0
    ensures x - 50.0 * dt > -(width as real) ==> LargeCloudStep(x, width, dt) == x - 50.0 * dt
  {
  }

  /** The number of large-cloud copies painted side by side. */
  function LargeCloudTiles(levelPWidth: int, width: int): int
    requires width > 0
  {
    Trunc(levelPWidth as real / width as real) + 2
  }

  /** Starting anywhere in (-width, 0], the copies reach past the level's right edge. */
  lemma {:induction false} LargeCloudCoversLevel(levelPWidth: int, width: int, x: real)
    requires levelPWidth >= 0 && width > 0 && -(width as real) < x <= 0.0
    ensures x + (LargeCloudTiles(levelPWidth, width) * width) as real > levelPWidth as real
  {
    var q := levelPWidth as real / width as real;
    var w := width as real;
    assert q * w == levelPWidth as real;
    assert q >= 0.0;
    var t := Trunc(q);
    assert LargeCloudTiles(levelPWidth, width) == t + 2;
    assert q < t as real + 1.0;
    var d := t as real + 1.0 - q;
    assert d * w > 0.0;
    assert (t as real + 1.0) * w == q * w + d * w;
    var covered := ((t + 2) * width) as real;
    assert covered == (t as real + 1.0) * w + w;
    assert x + covered > levelPWidth as real;
  }

  /** A sprite of a level group: its image (by identity), rect and layer. */
  datatype Painted = Painted(image: int, rect: Rect, z: int)

  function ZOf(p: Painted): real { p.z as real }

  /** A cloud created at the integer position (x, y) drawn by randint. */
  predicate CloudIn(c: Painted, xLow: int, xHigh: int, top: int, horizon: int) {
    c.z == ZClouds &&
    exists x: int, y: int :: Drawn(c, x, y) && xLow <= x <= xHigh && top <= y <= horizon
  }

  predicate Drawn(c: Painted, x: int, y: int) {
    c.rect.x == x as real && c.rect.y == y as real
  }

  /** The cloud create_cloud adds: x in [pw + 500, pw + 600], y between the top limit and the horizon. */
  function SpawnedCloud(image: int, size: Vec, x: int, y: int): (c: Painted)
    ensures c.z == ZClouds && c.rect.TopLeft() == Vec(x as real, y as real)
  {
    Painted(image, Rect(x as real, y as real, size.x, size.y), ZClouds)
  }

  lemma SpawnedCloudInRange(image: int, size: Vec, levelPWidth: int, top: int, horizon: int, x: int, y: int)
    requires levelPWidth + 500 <= x <= levelPWidth + 600 && top <= y <= horizon
    ensures CloudIn(SpawnedCloud(image, size, x, y), levelPWidth + 500, levelPWidth + 600, top, horizon)
    ensures SpawnedCloud(image, size, x, y).rect.Left() > levelPWidth as real
  {
    assert Drawn(SpawnedCloud(image, size, x, y), x, y);
  }

  // ----- Background tiles -----

  /** The first row of background tiles: one above int(top_limit / TILE_SIZE) rows up. */
  function BgFirstRow(topLimit: int): int {
    -Trunc(topLimit as real / TileSize as real) - 1
  }

  /** The tiles of one column, from the first row down to the last row of the level. */
  function BgColumn(image: int, col: int, firstRow: int, levelHeight: int): (s: seq<Painted>)
    ensures |s| == if levelHeight > firstRow then levelHeight - firstRow else 0
  {
    var n := if levelHeight > firstRow then levelHeight - firstRow else 0;
    seq(n, r =>
      Painted(image, Rect((col * TileSize) as real, ((firstRow + r) * TileSize) as real,
                          TileSize as real, TileSize as real), -1))
  }

  /** All background tiles, column by column. */
  function BgTiles(image: int, cols: nat, firstRow: int, levelHeight: int): seq<Painted>
    decreases cols
  {
    if cols == 0 then [] else BgTiles(image, cols - 1, firstRow, levelHeight) + BgColumn(image, cols - 1, firstRow, levelHeight)
  }

  lemma {:induction false} BgTilesCount(image: int, cols: nat, firstRow: int, levelHeight: int)
    ensures |BgTiles(image, cols, firstRow, levelHeight)| ==
      cols * (if levelHeight > firstRow then levelHeight - firstRow else 0)
  {
    if cols > 0 {
      BgTilesCount(image, cols - 1, firstRow, levelHeight);
    }
  }

  /** Every background tile is on layer -1, behind every layer of the table. */
  lemma {:induction false} BgTilesBehind(image: int, cols: nat, firstRow: int, levelHeight: int)
    ensures forall p :: p in BgTiles(image, cols, firstRow, levelHeight) ==> p.z == -1 && p.z < ZBg
  {
    if cols > 0 {
      BgTilesBehind(image, cols - 1, firstRow, levelHeight);
    }
  }

  /** The first row starts at or above -top_limit, the highest point the camera can show. */
  lemma BgTilesReachTop(topLimit: int)
    ensures BgFirstRow(topLimit) * TileSize <= -topLimit
  {
    var q := topLimit as real / TileSize as real;
    var t := Trunc(q);
    assert q * 64.0 == topLimit as real;
    if q >= 0.0 {
      assert (t as real + 1.0) * 64.0 > q * 64.0;
    } else {
      assert t as real * 64.0 >= q * 64.0;
    }
  }

  /** The nested loops of the tiled background, column-major as the source iterates. */
  method BuildBgTiles(image: int, cols: nat, firstRow: int, levelHeight: int) returns (tiles: seq<Painted>)
    ensures tiles == BgTiles(image, cols, firstRow, levelHeight)
  {
    tiles := [];
    var col := 0;
    while col < cols
      invariant 0 <= col <= cols
      invariant tiles == BgTiles(image, col, firstRow, levelHeight)
    {
      var column := BgColumn(image, col, firstRow, levelHeight);
      var row := firstRow;
      var done: seq<Painted> := [];
      while row < levelHeight
        invariant row >= firstRow
        invariant levelHeight > firstRow ==> row <= levelHeight
        invariant levelHeight <= firstRow ==> row == firstRow
        invariant done == column[..row - firstRow]
      {
        done := done + [Painted(image, Rect((col * TileSize) as real, (row * TileSize) as real,
                                            TileSize as real, TileSize as real), -1)];
        row := row + 1;
      }
      assert done == column;
      tiles := tiles + done;
      col := col + 1;
    }
  }

  // ----- AllSprites painting -----

  /** The blits of `order`, each at its top-left plus the offset. */
  function PaintAt(order: seq<Painted>, offset: Vec): (blits: seq<Blit<Painted>>)
    ensures |blits| == |order|
  {
    seq(|order|, i requires 0 <= i < |order| => Blit(order[i], order[i].rect.TopLeft().Plus(offset)))
  }

  /** AllSprites' paint pass: every member once, z ascending, equal z in group order. */
  function LevelPaint(members: seq<Painted>, offset: Vec): seq<Blit<Painted>> {
    PaintAt(SortedBy(members, ZOf), offset)
  }

  function Sprites<T>(blits: seq<Blit<T>>): (s: seq<T>)
    ensures |s| == |blits|
  {
    seq(|blits|, i requires 0 <= i < |blits| => blits[i].sprite)
  }

  lemma LevelPaintOrder(members: seq<Painted>, offset: Vec)
    ensures var blits := LevelPaint(members, offset);
      Ascending(Sprites(blits), ZOf) &&
      multiset(Sprites(blits)) == multiset(members) &&
      (forall k: real :: WithKey(Sprites(blits), ZOf, k) == WithKey(members, ZOf, k)) &&
      forall i :: 0 <= i < |blits| ==> blits[i].pos == blits[i].sprite.rect.TopLeft().Plus(offset)
  {
    var order := SortedBy(members, ZOf);
    assert Sprites(LevelPaint(members, offset)) == order;
    SortedAscending(members, ZOf);
    SortedPermutes(members, ZOf);
    forall k: real
      ensures WithKey(order, ZOf, k) == WithKey(members, ZOf, k)
    {
      SortedStable(members, ZOf, k);
    }
  }

  /** AllSprites: the level's camera group. */
  class AllSprites {
    const levelPWidth: int
    const levelPHeight: int
    const borders: Borders
    const topLimit: int
    const horizon: int
    const drawSky: bool
    const largeCloudWidth: int
    const largeCloudTiles: int
    const cloudTimer: Timer
    var offset: Vec
    var largeCloudX: real
    var members: seq<Painted>

    predicate Valid()
      reads this, cloudTimer
    {
      drawSky ==>
        largeCloudWidth > 0 && -(largeCloudWidth as real) < largeCloudX <= 0.0 &&
        cloudTimer.duration == CloudTimerDuration && cloudTimer.repeat && cloudTimer.hasCallback
    }

    /**
     * AllSprites(level_width, level_height, clouds, bg_tile, top_limit,
     * horizon_line) at tick `now`. With a background tile the group is filled
     * with tiles; without one the sky is set up and the 20 initial clouds,
     * drawn by randint, are `initial`.
     */
    constructor (levelWidth: nat, levelHeight: nat, bgTile: Option<int>, topLimit: int,
                 horizon: int, largeCloudWidth: int, now: int, initial: seq<Painted>)
      requires bgTile.None? ==>
        (largeCloudWidth > 0 && |initial| == InitialClouds &&
         forall c :: c in initial ==> CloudIn(c, 0, levelWidth * TileSize, topLimit, horizon))
      ensures Valid() && fresh(cloudTimer)
      ensures levelPWidth == levelWidth * TileSize && levelPHeight == levelHeight * TileSize
      ensures borders == LevelBorders(levelWidth, levelHeight, topLimit)
      ensures offset == Zero && drawSky == bgTile.None?
      ensures drawSky ==>
        (largeCloudX == 0.0 &&
         largeCloudTiles == LargeCloudTiles(levelWidth * TileSize, largeCloudWidth) &&
         cloudTimer.State() == Activated(Initial(CloudTimerDuration, true, true), now) &&
         members == initial)
      ensures !drawSky ==>
        members == BgTiles(bgTile.value, levelWidth, BgFirstRow(topLimit), levelHeight)
    {
      levelPWidth := levelWidth * TileSize;
      levelPHeight := levelHeight * TileSize;
      borders := LevelBorders(levelWidth, levelHeight, topLimit);
      this.topLimit := topLimit;
      this.horizon := horizon;
      drawSky := bgTile.None?;
      this.largeCloudWidth := largeCloudWidth;
      offset := Zero;
      largeCloudX := 0.0;
      var timer := new Timer(CloudTimerDuration, true, true);
      cloudTimer := timer;
      if bgTile.None? {
        largeCloudTiles := LargeCloudTiles(levelWidth * TileSize, largeCloudWidth);
        members := initial;
      } else {
        largeCloudTiles := 0;
        var tiles := BuildBgTiles(bgTile.value, levelWidth, BgFirstRow(topLimit), levelHeight);
        members := tiles;
      }
      new;
      if bgTile.None? {
        cloudTimer.Activate(now);
      }
    }

    /** A sprite joins the group. */
    method Add(p: Painted)
      modifies this
      ensures members == old(members) + [p]
      ensures offset == old(offset) && largeCloudX == old(largeCloudX)
    {
      members := members + [p];
    }

    method ConstrainCamera()
      modifies this
      ensures offset == Constrained(old(offset), borders)
      ensures members == old(members) && largeCloudX == old(largeCloudX)
    {
      var x := if offset.x < borders.left then offset.x else borders.left;
      x := if x > borders.right then x else borders.right;
      var y := if offset.y < borders.top then offset.y else borders.top;
      y := if y > borders.bottom then y else borders.bottom;
      offset := Vec(x, y);
    }

    /**
     * draw(target_pos, dt) at tick `now`. With the sky, the cloud timer is
     * polled and, when its callback runs, create_cloud adds a cloud at the
     * randint draw (spawnX, spawnY) before the paint pass; the large cloud
     * then drifts.
     */
    method Draw(target: Vec, dt: real, now: int, spawnImage: int, spawnSize: Vec, spawnX: int, spawnY: int)
      returns (blits: seq<Blit<Painted>>)
      requires Valid() && dt >= 0.0
      requires drawSky ==> levelPWidth + 500 <= spawnX <= levelPWidth + 600 && topLimit <= spawnY <= horizon
      modifies this, cloudTimer
      ensures Valid()
      ensures offset == Constrained(CentredOffset(target), borders)
      ensures drawSky ==>
        var (t, fired) := Polled(old(cloudTimer.State()), now);
        cloudTimer.State() == t &&
        members == old(members) + (if fired then [SpawnedCloud(spawnImage, spawnSize, spawnX, spawnY)] else []) &&
        largeCloudX == LargeCloudStep(old(largeCloudX), largeCloudWidth, dt)
      ensures !drawSky ==>
        (members == old(members) && largeCloudX == old(largeCloudX) &&
         cloudTimer.State() == old(cloudTimer.State()))
      ensures blits == LevelPaint(members, offset)
    {
      offset := CentredOffset(target);
      ConstrainCamera();
      if drawSky {
        var fired := cloudTimer.Update(now);
        if fired {
          members := members + [SpawnedCloud(spawnImage, spawnSize, spawnX, spawnY)];
        }
        LargeCloudStaysInStrip(largeCloudX, largeCloudWidth, dt);
        largeCloudX := LargeCloudStep(largeCloudX, largeCloudWidth, dt);
      }
      var order := SortedBy(members, ZOf);
      blits := [];
      var i := 0;
      while i < |order|
        invariant 0 <= i <= |order|
        invariant blits == PaintAt(order[..i], offset)
      {
        blits := blits + [Blit(order[i], order[i].rect.TopLeft().Plus(offset))];
        i := i + 1;
      }
      assert order[..i] == order;
    }
  }

  // ----- WorldSprites painting -----

  /** A sprite of the overworld group; `level` is read only from path sprites. */
  datatype WorldSprite = WorldSprite(image: int, rect: Rect, z: int, level: int, icon: bool)

  function WorldZ(w: WorldSprite): real { w.z as real }
  function WorldCentreY(w: WorldSprite): real { w.rect.CenterY() }

  /** Painted in the background pass: behind the main layer, unless a path to a locked level. */
  predicate BackgroundShown(w: WorldSprite, unlocked: int) {
    w.z < ZMain && !(w.z == ZPath && w.level > unlocked)
  }

  const IconLift: Vec := Vec(0.0, -28.0)

  /** The background pass over the z-sorted group. */
  function BackgroundBlits(order: seq<WorldSprite>, unlocked: int, offset: Vec): seq<Blit<WorldSprite>>
    decreases |order|
  {
    if order == [] then []
    else
      var w := order[|order| - 1];
      BackgroundBlits(order[..|order| - 1], unlocked, offset) +
        (if BackgroundShown(w, unlocked) then [Blit(w, w.rect.TopLeft().Plus(offset))] else [])
  }

  /** The main pass over the centre-y-sorted group; icons are lifted by 28 px. */
  function MainBlits(order: seq<WorldSprite>, offset: Vec): seq<Blit<WorldSprite>>
    decreases |order|
  {
    if order == [] then []
    else
      var w := order[|order| - 1];
      MainBlits(order[..|order| - 1], offset) +
        (if w.z == ZMain then [Blit(w, w.rect.TopLeft().Plus(offset).Plus(if w.icon then IconLift else Zero))] else [])
  }

  /** WorldSprites.draw: the background pass, then the main pass. */
  function WorldPaint(members: seq<WorldSprite>, unlocked: int, offset: Vec): seq<Blit<WorldSprite>> {
    BackgroundBlits(SortedBy(members, WorldZ), unlocked, offset) +
      MainBlits(SortedBy(members, WorldCentreY), offset)
  }

  lemma {:induction false} BackgroundBlitsExact(order: seq<WorldSprite>, unlocked: int, offset: Vec)
    ensures forall b :: b in BackgroundBlits(order, unlocked, offset) ==>
      b.sprite in order && BackgroundShown(b.sprite, unlocked) && b.pos == b.sprite.rect.TopLeft().Plus(offset)
    ensures forall w :: w in order && BackgroundShown(w, unlocked) ==>
      Blit(w, w.rect.TopLeft().Plus(offset)) in BackgroundBlits(order, unlocked, offset)
    ensures Ascending(order, WorldZ) ==> Ascending(Sprites(BackgroundBlits(order, unlocked, offset)), WorldZ)
  {
    BackgroundBlitsSound(order, unlocked, offset);
    BackgroundBlitsComplete(order, unlocked, offset);
    if Ascending(order, WorldZ) {
      BackgroundBlitsAscending(order, unlocked, offset);
    }
  }

  lemma {:induction false} BackgroundBlitsSound(order: seq<WorldSprite>, unlocked: int, offset: Vec)
    ensures forall b :: b in BackgroundBlits(order, unlocked, offset) ==>
      b.sprite in order && BackgroundShown(b.sprite, unlocked) && b.pos == b.sprite.rect.TopLeft().Plus(offset)
    decreases |order|
  {
    if order != [] {
      var init := order[..|order| - 1];
      BackgroundBlitsSound(init, unlocked, offset);
      assert order == init + [order[|order| - 1]];
    }
  }

  lemma {:induction false} BackgroundBlitsComplete(order: seq<WorldSprite>, unlocked: int, offset: Vec)
    ensures forall w :: w in order && BackgroundShown(w, unlocked) ==>
      Blit(w, w.rect.TopLeft().Plus(offset)) in BackgroundBlits(order, unlocked, offset)
    decreases |order|
  {
    if order != [] {
      var init := order[..|order| - 1];
      BackgroundBlitsComplete(init, unlocked, offset);
      assert order == init + [order[|order| - 1]];
    }
  }

  lemma {:induction false} BackgroundBlitsAscending(order: seq<WorldSprite>, unlocked: int, offset: Vec)
    requires Ascending(order, WorldZ)
    ensures Ascending(Sprites(BackgroundBlits(order, unlocked, offset)), WorldZ)
    decreases |order|
  {
    if order != [] {
      var init := order[..|order| - 1];
      var w := order[|order| - 1];
      assert Ascending(init, WorldZ);
      BackgroundBlitsAscending(init, unlocked, offset);
      BackgroundBlitsSound(init, unlocked, offset);
      var rest := BackgroundBlits(init, unlocked, offset);
      forall i | 0 <= i < |rest|
        ensures WorldZ(rest[i].sprite) <= WorldZ(w)
      {
        assert rest[i] in rest;
        var k :| 0 <= k < |init| && init[k] == rest[i].sprite;
        assert order[k] == init[k];
      }
      assert Sprites(BackgroundBlits(order, unlocked, offset)) ==
        Sprites(rest) + (if BackgroundShown(w, unlocked) then [w] else []);
    }
  }

  lemma {:induction false} MainBlitsExact(order: seq<WorldSprite>, offset: Vec)
    ensures forall b :: b in MainBlits(order, offset) ==>
      b.sprite in order && b.sprite.z == ZMain &&
      b.pos == b.sprite.rect.TopLeft().Plus(offset).Plus(if b.sprite.icon then IconLift else Zero)
    ensures forall w :: w in order && w.z == ZMain ==>
      Blit(w, w.rect.TopLeft().Plus(offset).Plus(if w.icon then IconLift else Zero)) in MainBlits(order, offset)
    ensures Ascending(order, WorldCentreY) ==> Ascending(Sprites(MainBlits(order, offset)), WorldCentreY)
  {
    MainBlitsSound(order, offset);
    MainBlitsComplete(order, offset);
    if Ascending(order, WorldCentreY) {
      MainBlitsAscending(order, offset);
    }
  }

  lemma {:induction false} MainBlitsSound(order: seq<WorldSprite>, offset: Vec)
    ensures forall b :: b in MainBlits(order, offset) ==>
      b.sprite in order && b.sprite.z == ZMain &&
      b.pos == b.sprite.rect.TopLeft().Plus(offset).Plus(if b.sprite.icon then IconLift else Zero)
    decreases |order|
  {
    if order != [] {
      var init := order[..|order| - 1];
      MainBlitsSound(init, offset);
      assert order == init + [order[|order| - 1]];
    }
  }

  lemma {:induction false} MainBlitsComplete(order: seq<WorldSprite>, offset: Vec)
    ensures forall w :: w in order && w.z == ZMain ==>
      Blit(w, w.rect.TopLeft().Plus(offset).Plus(if w.icon then IconLift else Zero)) in MainBlits(order, offset)
    decreases |order|
  {
    if order != [] {
      var init := order[..|order| - 1];
      MainBlitsComplete(init, offset);
      assert order == init + [order[|order| - 1]];
    }
  }

  lemma {:induction false} MainBlitsAscending(order: seq<WorldSprite>, offset: Vec)
    requires Ascending(order, WorldCentreY)
    ensures Ascending(Sprites(MainBlits(order, offset)), WorldCentreY)
    decreases |order|
  {
    if order != [] {
      var init := order[..|order| - 1];
      var w := order[|order| - 1];
      assert Ascending(init, WorldCentreY);
      MainBlitsAscending(init, offset);
      MainBlitsSound(init, offset);
      var rest := MainBlits(init, offset);
      forall i | 0 <= i < |rest|
        ensures WorldCentreY(rest[i].sprite) <= WorldCentreY(w)
      {
        assert rest[i] in rest;
        var k :| 0 <= k < |init| && init[k] == rest[i].sprite;
        assert order[k] == init[k];
      }
      assert Sprites(MainBlits(order, offset)) == Sprites(rest) + (if w.z == ZMain then [w] else []);
    }
  }

  /**
   * The overworld paint: the background pass paints exactly the shown
   * sprites behind the main layer, z ascending; the main pass paints exactly
   * the main-layer sprites, centre y ascending; nothing above the main layer
   * and no path to a locked level is ever painted.
   */
  lemma WorldPaintRules(members: seq<WorldSprite>, unlocked: int, offset: Vec)
    ensures var bg := BackgroundBlits(SortedBy(members, WorldZ), unlocked, offset);
      var main := MainBlits(SortedBy(members, WorldCentreY), offset);
      WorldPaint(members, unlocked, offset) == bg + main &&
      Ascending(Sprites(bg), WorldZ) && Ascending(Sprites(main), WorldCentreY) &&
      (forall w :: w in members && BackgroundShown(w, unlocked) ==> Blit(w, w.rect.TopLeft().Plus(offset)) in bg) &&
      (forall w :: w in members && w.z == ZMain ==>
        Blit(w, w.rect.TopLeft().Plus(offset).Plus(if w.icon then IconLift else Zero)) in main) &&
      forall b :: b in bg + main ==>
        (b.sprite in members && b.sprite.z <= ZMain && !(b.sprite.z == ZPath && b.sprite.level > unlocked))
  {
    var byZ := SortedBy(members, WorldZ);
    var byY := SortedBy(members, WorldCentreY);
    SortedAscending(members, WorldZ);
    SortedAscending(members, WorldCentreY);
    SortedPermutes(members, WorldZ);
    SortedPermutes(members, WorldCentreY);
    BackgroundBlitsExact(byZ, unlocked, offset);
    MainBlitsExact(byY, offset);
    forall w | w in members
      ensures w in byZ && w in byY
    {
      assert w in multiset(members);
    }
    forall w | w in byZ || w in byY
      ensures w in members
    {
      assert w in multiset(byZ) || w in multiset(byY);
    }
  }

  /** WorldSprites: the overworld's camera group. */
  class WorldSprites {
    var offset: Vec
    var members: seq<WorldSprite>

    constructor ()
      ensures offset == Zero && members == []
    {
      offset := Zero;
      members := [];
    }

    method Add(w: WorldSprite)
      modifies this
      ensures members == old(members) + [w] && offset == old(offset)
    {
      members := members + [w];
    }

    /** draw(target_pos, dt) with the save data's unlocked level. */
    method Draw(target: Vec, unlocked: int) returns (blits: seq<Blit<WorldSprite>>)
      modifies this
      ensures offset == CentredOffset(target) && members == old(members)
      ensures blits == WorldPaint(members, unlocked, offset)
    {
      offset := CentredOffset(target);
      var byZ := SortedBy(members, WorldZ);
      var bg: seq<Blit<WorldSprite>> := [];
      var i := 0;
      while i < |byZ|
        invariant 0 <= i <= |byZ|
        invariant bg == BackgroundBlits(byZ[..i], unlocked, offset)
      {
        var w := byZ[i];
        assert byZ[..i + 1][..i] == byZ[..i];
        if w.z < ZMain {
          if w.z == ZPath && w.level > unlocked {
          } else {
            bg := bg + [Blit(w, w.rect.TopLeft().Plus(offset))];
          }
        }
        i := i + 1;
      }
      assert byZ[..i] == byZ;
      var byY := SortedBy(members, WorldCentreY);
      var main: seq<Blit<WorldSprite>> := [];
      i := 0;
      while i < |byY|
        invariant 0 <= i <= |byY|
        invariant main == MainBlits(byY[..i], offset)
      {
        var w := byY[i];
        assert byY[..i + 1][..i] == byY[..i];
        if w.z == ZMain {
          var lift := if w.icon then IconLift else Zero;
          main := main + [Blit(w, w.rect.TopLeft().Plus(offset).Plus(lift))];
        }
        i := i + 1;
      }
      assert byY[..i] == byY;
      blits := bg + main;
    }
  }
}
