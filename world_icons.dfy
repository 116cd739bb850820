/**
 * The overworld's nodes and the player's icon (sprites/overworld.py). A
 * node knows which directions lead on and the level each path needs; the
 * icon follows a list of waypoints, one axis at a time, consuming each
 * waypoint as it reaches or passes it.
 */
module WorldIcons {
  import opened Wrappers
  import opened Geometry
  import opened Settings

  // ----- Nodes -----

  predicate IsDigit(c: char) { '0' <= c <= '9' }

  function DigitValue(c: char): (n: int)
    requires IsDigit(c)
    ensures 0 <= n <= 9
  {
    c as int - '0' as int
  }

  /**
   * can_move(dir): the direction must be a key, and the level named by the
   * first character of its value must be unlocked. int() of that character
   * raises when it is not a digit, and indexing an empty value raises too.
   */
  function CanMove(dirs: map<string, string>, dir: string, unlocked: int): (r: Result<bool>)
    ensures r == Ok(true) <==>
      dir in dirs && |dirs[dir]| > 0 && IsDigit(dirs[dir][0]) && DigitValue(dirs[dir][0]) <= unlocked
    ensures r.Err? <==> dir in dirs && (|dirs[dir]| == 0 || !IsDigit(dirs[dir][0]))
    ensures dir !in dirs ==> r == Ok(false)
  {
    if dir !in dirs then Ok(false)
    else if |dirs[dir]| == 0 then Err(IndexError)
    else if !IsDigit(dirs[dir][0]) then Err(ValueError)
    else Ok(DigitValue(dirs[dir][0]) <= unlocked)
  }

  /** Unlocking more levels never closes a direction. */
  lemma CanMoveMonotone(dirs: map<string, string>, dir: string, unlocked: int, more: int)
    requires unlocked <= more && CanMove(dirs, dir, unlocked) == Ok(true)
    ensures CanMove(dirs, dir, more) == Ok(true)
  {
  }

  /** A node of the overworld map; its rect is centred on the middle of its tile. */
  datatype Node = Node(rect: Rect, level: int, dirs: map<string, string>, gridCol: int, gridRow: int)

  function NodeAt(pos: Vec, size: Vec, level: int, dirs: map<string, string>): (n: Node)
    ensures n.rect.Center() == pos.Plus(Vec(TileSize as real / 2.0, TileSize as real / 2.0))
    ensures n.rect.w == size.x && n.rect.h == size.y && n.level == level && n.dirs == dirs
  {
    var half := TileSize as real / 2.0;
    Node(Rect(pos.x, pos.y, size.x, size.y).WithCenter(Vec(pos.x + half, pos.y + half)), level, dirs,
         Trunc(pos.x / TileSize as real), Trunc(pos.y / TileSize as real))
  }

  /** A node placed at tile (col, row) reports that tile as its grid position, and its centre is that tile's middle. */
  lemma NodeOnGrid(col: int, row: int, size: Vec, level: int, dirs: map<string, string>)
    ensures var n := NodeAt(Vec((col * TileSize) as real, (row * TileSize) as real), size, level, dirs);
      n.gridCol == col && n.gridRow == row &&
      n.rect.Center() == Vec((col * TileSize + TileSize / 2) as real, (row * TileSize + TileSize / 2) as real)
  {
    var x := (col * TileSize) as real;
    var y := (row * TileSize) as real;
    assert x / TileSize as real == col as real;
    assert y / TileSize as real == row as real;
    TruncOfInt(col);
    TruncOfInt(row);
  }

  // ----- The icon's rules -----

  datatype IconState = Idle | RightState | LeftState | DownState | UpState

  const Right: Vec := Vec(1.0, 0.0)
  const Left: Vec := Vec(-1.0, 0.0)
  const Down: Vec := Vec(0.0, 1.0)
  const Up: Vec := Vec(0.0, -1.0)
  const IconSpeed: real := 400.0

  /** get_anim_state: the later checks win, but the four unit vectors are distinct. */
  function AnimState(direction: Vec): (s: IconState)
    ensures s == RightState <==> direction == Right
    ensures s == LeftState <==> direction == Left
    ensures s == DownState <==> direction == Down
    ensures s == UpState <==> direction == Up
  {
    var s := Idle;
    var s := if direction == Right then RightState else s;
    var s := if direction == Left then LeftState else s;
    var s := if direction == Down then DownState else s;
    if direction == Up then UpState else s
  }

  /** A path that is None or empty is falsy. */
  predicate HasWaypoints(path: Option<seq<Vec>>) {
    path.Some? && |path.value| > 0
  }

  /** find_dir: vertical when the next waypoint shares the centre's x, horizontal otherwise. */
  function FindDir(center: Vec, path: Option<seq<Vec>>): Vec {
    if HasWaypoints(path) then
      var next := path.value[0];
      if center.x == next.x then Vec(0.0, if next.y > center.y then 1.0 else -1.0)
      else Vec(if next.x > center.x then 1.0 else -1.0, 0.0)
    else Zero
  }

  predicate Unit(d: Vec) {
    d == Right || d == Left || d == Down || d == Up
  }

  /**
   * The direction is a unit step towards the next waypoint: vertical exactly
   * when the waypoint is straight above or below (up when it is the centre
   * itself), horizontal otherwise; with no waypoint the icon stands still.
   */
  lemma FindDirTowardsNext(center: Vec, path: Option<seq<Vec>>)
    ensures !HasWaypoints(path) <==> FindDir(center, path) == Zero
    ensures HasWaypoints(path) ==> Unit(FindDir(center, path))
    ensures HasWaypoints(path) ==>
      var next := path.value[0];
      var d := FindDir(center, path);
      (d.x == 0.0 <==> next.x == center.x) &&
      (next.x == center.x ==> (d == Down <==> next.y > center.y)) &&
      (next.x != center.x ==> (d == Right <==> next.x > center.x))
    ensures AnimState(FindDir(center, path)) != Idle <==> HasWaypoints(path)
  {
  }

  /** The icon's consistency: it moves exactly when it has a waypoint. */
  predicate Steady(direction: Vec, path: Option<seq<Vec>>) {
    (direction == Zero <==> !HasWaypoints(path)) && (direction == Zero || Unit(direction))
  }

  lemma {:induction false} FindDirSteady(center: Vec, path: Option<seq<Vec>>)
    ensures Steady(FindDir(center, path), path)
  {
    FindDirTowardsNext(center, path);
  }

  /** The icon's centre, direction and waypoints. */
  datatype Motion = Motion(center: Vec, direction: Vec, path: Option<seq<Vec>>)

  /** Whether the moving icon has reached or passed the next waypoint along the vertical axis. */
  predicate ReachedY(m: Motion)
    requires m.path.Some? && |m.path.value| > 0
  {
    (m.direction.y == 1.0 && m.center.y >= m.path.value[0].y) ||
    (m.direction.y == -1.0 && m.center.y <= m.path.value[0].y)
  }

  predicate ReachedX(m: Motion)
    requires m.path.Some? && |m.path.value| > 0
  {
    (m.direction.x == 1.0 && m.center.x >= m.path.value[0].x) ||
    (m.direction.x == -1.0 && m.center.x <= m.path.value[0].x)
  }

  /** The vertical half of point_collision: snap y, drop the waypoint, find the next direction. */
  function CollideY(m: Motion): (r: Result<Motion>)
    requires m.path.Some?
  {
    if m.direction.y != 1.0 && m.direction.y != -1.0 then Ok(m)
    else if |m.path.value| == 0 then Err(IndexError)
    else if ReachedY(m) then
      var c := m.center.(y := m.path.value[0].y);
      var rest := Some(m.path.value[1..]);
      Ok(Motion(c, FindDir(c, rest), rest))
    else Ok(m)
  }

  function CollideX(m: Motion): (r: Result<Motion>)
    requires m.path.Some?
  {
    if m.direction.x != 1.0 && m.direction.x != -1.0 then Ok(m)
    else if |m.path.value| == 0 then Err(IndexError)
    else if ReachedX(m) then
      var c := m.center.(x := m.path.value[0].x);
      var rest := Some(m.path.value[1..]);
      Ok(Motion(c, FindDir(c, rest), rest))
    else Ok(m)
  }

  /** point_collision: TypeError without a path, then the vertical check, then the horizontal one. */
  function PointCollided(m: Motion): Result<Motion> {
    if m.path.None? then Err(TypeError)
    else
      match CollideY(m)
      case Err(e) => Err(e)
      case Ok(m1) => CollideX(m1)
  }

  /** A half-step drops at most the first waypoint, and keeps the rest in order. */
  lemma CollideYDrops(m: Motion)
    requires m.path.Some? && CollideY(m).Ok?
    ensures var r := CollideY(m).value;
      r.path.Some? && (r.path.value == m.path.value || (|m.path.value| > 0 && r.path.value == m.path.value[1..]))
  {
  }

  lemma CollideXDrops(m: Motion)
    requires m.path.Some? && CollideX(m).Ok?
    ensures var r := CollideX(m).value;
      r.path.Some? && (r.path.value == m.path.value || (|m.path.value| > 0 && r.path.value == m.path.value[1..]))
  {
  }

  /**
   * After the vertical check removes a waypoint, find_dir points the icon
   * strictly towards the next one, so the horizontal check cannot fire in
   * the same call.
   */
  lemma NoSecondSnap(m: Motion)
    requires m.path.Some? && CollideY(m).Ok? && CollideY(m).value.path != m.path
    ensures CollideX(CollideY(m).value) == CollideY(m)
  {
  }

  /**
   * Called while the icon has a waypoint and a steady direction,
   * point_collision never indexes an empty path, removes at most one
   * waypoint from the front (the two checks never both fire), and leaves the
   * icon steady.
   */
  lemma {:induction false} PointCollisionSafe(m: Motion)
    requires HasWaypoints(m.path) && Steady(m.direction, m.path)
    ensures PointCollided(m).Ok?
    ensures var r := PointCollided(m).value;
      r.path.Some? && Steady(r.direction, r.path) &&
      (r.path.value == m.path.value || r.path.value == m.path.value[1..])
  {
    var m1 := CollideY(m).value;
    CollideYDrops(m);
    if m1.path != m.path {
      FindDirSteady(m1.center, m1.path);
      NoSecondSnap(m);
    } else {
      assert m1 == m;
      var r := CollideX(m1).value;
      CollideXDrops(m1);
      if r != m1 {
        FindDirSteady(r.center, r.path);
      }
    }
  }

  /** The waypoint that is removed has the crossed coordinate snapped onto it; the other coordinate is kept. */
  lemma PointCollisionSnaps(m: Motion)
    requires HasWaypoints(m.path) && PointCollided(m).Ok?
    ensures var r := PointCollided(m).value;
      (r.path == m.path ==> r.center == m.center) &&
      (r.path != m.path ==>
        (r.center == m.center.(y := m.path.value[0].y) || r.center == m.center.(x := m.path.value[0].x)))
  {
    var m1 := CollideY(m).value;
    if m1.path != m.path {
      NoSecondSnap(m);
    }
  }

  /** start_moving: the icon jumps to the first point and follows the others. */
  function StartedMoving(m: Motion, path: seq<Vec>): (r: Result<Motion>)
    ensures r.Err? <==> path == []
    ensures r.Ok? ==>
      (r.value.center == path[0] && r.value.path == Some(path[1..]) &&
       r.value.direction == FindDir(path[0], Some(path[1..])))
  {
    if path == [] then Err(IndexError)
    else Ok(Motion(path[0], FindDir(path[0], Some(path[1..])), Some(path[1..])))
  }

  /** update's movement: only with a waypoint, collide first and then travel at 400 px/s. */
  function Moved(m: Motion, dt: real): Result<Motion> {
    if HasWaypoints(m.path) then
      match PointCollided(m)
      case Err(e) => Err(e)
      case Ok(m1) => Ok(m1.(center := m1.center.Plus(m1.direction.Scale(IconSpeed * dt))))
    else Ok(m)
  }

  /** A steady icon always updates without error, stays steady, and stands still once out of waypoints. */
  lemma {:induction false} MovedSteady(m: Motion, dt: real)
    requires Steady(m.direction, m.path)
    ensures Moved(m, dt).Ok? && Steady(Moved(m, dt).value.direction, Moved(m, dt).value.path)
    ensures !HasWaypoints(m.path) ==> Moved(m, dt) == Ok(m)
    ensures HasWaypoints(m.path) ==>
      var r := Moved(m, dt).value;
      r.path == m.path || r.path == Some(m.path.value[1..])
  {
    if HasWaypoints(m.path) {
      PointCollisionSafe(m);
    }
  }

  /** PlayerIcon: the overworld icon, moving between nodes. */
  class PlayerIcon {
    var center: Vec
    const size: Vec
    var direction: Vec
    var path: Option<seq<Vec>>
    var state: IconState
    var frameIndex: real
    const icon: bool

    function Movement(): Motion
      reads this
    {
      Motion(center, direction, path)
    }

    function Rect(): Rect
      reads this
    {
      Geometry.Rect(center.x - size.x / 2.0, center.y - size.y / 2.0, size.x, size.y)
    }

    predicate Valid()
      reads this
    {
      Steady(direction, path)
    }

    constructor (pos: Vec, size: Vec, defaultState: IconState)
      ensures Valid() && Movement() == Motion(pos, Zero, None) && this.size == size
      ensures state == defaultState && frameIndex == 0.0 && icon
    {
      center := pos;
      this.size := size;
      direction := Zero;
      path := None;
      state := defaultState;
      frameIndex := 0.0;
      icon := true;
    }

    method GetAnimState()
      modifies this
      ensures state == AnimState(direction)
      ensures Movement() == old(Movement()) && frameIndex == old(frameIndex)
    {
      state := Idle;
      if direction == Right {
        state := RightState;
      }
      if direction == Left {
        state := LeftState;
      }
      if direction == Down {
        state := DownState;
      }
      if direction == Up {
        state := UpState;
      }
    }

    method FindDirection()
      modifies this
      ensures Movement() == old(Movement()).(direction := FindDir(center, path))
      ensures state == old(state) && frameIndex == old(frameIndex)
    {
      if path.Some? && |path.value| > 0 {
        if center.x == path.value[0].x {
          direction := Vec(0.0, if path.value[0].y > center.y then 1.0 else -1.0);
        } else {
          direction := Vec(if path.value[0].x > center.x then 1.0 else -1.0, 0.0);
        }
      } else {
        direction := Zero;
      }
    }

    method StartMoving(points: seq<Vec>) returns (err: Option<Error>)
      requires Valid()
      modifies this
      ensures Valid()
      ensures StartedMoving(old(Movement()), points).Err? ==>
        err == Some(StartedMoving(old(Movement()), points).error) && Movement() == old(Movement())
      ensures StartedMoving(old(Movement()), points).Ok? ==>
        err == None && Movement() == StartedMoving(old(Movement()), points).value
      ensures state == old(state) && frameIndex == old(frameIndex)
    {
      if |points| == 0 {
        return Some(IndexError);
      }
      center := points[0];
      path := Some(points[1..]);
      FindDirection();
      FindDirSteady(center, path);
      err := None;
    }

    method PointCollision() returns (err: Option<Error>)
      modifies this
      ensures PointCollided(old(Movement())).Err? ==> err == Some(PointCollided(old(Movement())).error)
      ensures PointCollided(old(Movement())).Ok? ==> err == None && Movement() == PointCollided(old(Movement())).value
      ensures state == old(state) && frameIndex == old(frameIndex)
    {
      if path.None? {
        return Some(TypeError);
      }
      if direction.y == 1.0 || direction.y == -1.0 {
        if |path.value| == 0 {
          return Some(IndexError);
        }
        if (direction.y == 1.0 && center.y >= path.value[0].y) ||
           (direction.y == -1.0 && center.y <= path.value[0].y) {
          center := center.(y := path.value[0].y);
          path := Some(path.value[1..]);
          FindDirection();
        }
      }
      if direction.x == 1.0 || direction.x == -1.0 {
        if |path.value| == 0 {
          return Some(IndexError);
        }
        if (direction.x == 1.0 && center.x >= path.value[0].x) ||
           (direction.x == -1.0 && center.x <= path.value[0].x) {
          center := center.(x := path.value[0].x);
          path := Some(path.value[1..]);
          FindDirection();
        }
      }
      err := None;
    }

    /** update(dt): move along the path, then choose the animation state and advance it. */
    method Update(dt: real)
      requires Valid()
      modifies this
      ensures Valid()
      ensures Moved(old(Movement()), dt).Ok? && Movement() == Moved(old(Movement()), dt).value
      ensures state == AnimState(direction)
      ensures frameIndex == old(frameIndex) + AnimSpeed as real * dt
    {
      MovedSteady(Movement(), dt);
      if path.Some? && |path.value| > 0 {
        var err := PointCollision();
        center := center.Plus(direction.Scale(IconSpeed * dt));
      }
      GetAnimState();
      frameIndex := frameIndex + AnimSpeed as real * dt;
    }
  }
}
