/**
 * The game object of main.py: it owns the progress state and the HUD,
 * starts in level 5, switches between the level and the overworld when a
 * stage asks for it, and ends the game once health runs out.
 *
 * Loading maps and assets, the window and the music are outside the model;
 * a stage is identified by its kind and, for a level, the level's number.
 * The stage's own per-frame run is Levels.Level.Run or
 * WorldMap.Overworld.Run; here a frame receives the switch_stage calls that
 * run made, in order, and Game.ShowCalls applies to the HUD the calls that
 * the run's setters recorded.
 */
module GameLoop {
  import opened Wrappers
  import opened Settings
  import opened Geometry
  import opened Progress
  import opened Hud
  import opened Timers
  import Levels

  /** The levels that have a map: tmx_maps has the keys 0 to 5. */
  const LevelMaps: set<int> := {0, 1, 2, 3, 4, 5}
  const FirstLevel: int := 5

  datatype Stage = AtLevel(level: int) | AtOverworld

  /** What switching stages reads and changes. */
  datatype World = World(stage: Stage, health: int, unlockedLevel: int, currentLevel: int)

  /** `target == "level"` with a GameState member: a plain Enum member never equals a str. */
  predicate EqualsLevelString(target: GameState) {
    false
  }

  /**
   * switch_stage as written. The method takes `unlock` as a required
   * argument, so a call with the target alone raises TypeError; and since
   * the target never equals the string "level", every call that gets past
   * the arguments goes to the overworld branch.
   */
  function SwitchedAsWritten(w: World, req: StageRequest): (r: Result<World>)
    ensures req.unlock.None? <==> r == Err(TypeError)
    ensures r.Ok? ==> r.value.stage == AtOverworld
  {
    if req.unlock.None? then Err(TypeError)
    else if EqualsLevelString(req.target) then
      if w.currentLevel in LevelMaps then Ok(w.(stage := AtLevel(w.currentLevel))) else Err(KeyError)
    else if req.unlock.value > 0 then Ok(w.(stage := AtOverworld, unlockedLevel := req.unlock.value))
    else Ok(w.(stage := AtOverworld, health := w.health - 1))
  }

  /**
   * switch_stage as evidently intended: the target is compared with the
   * GameState member and `unlock` defaults to None, as the callback's
   * declared type says. Entering a level loads the map of the current
   * level, which raises KeyError for a level without a map; returning to
   * the overworld unlocks the given level when it is positive and costs a
   * health point otherwise (None there is still a TypeError, as `None > 0`
   * is).
   */
  function Switched(w: World, req: StageRequest): Result<World> {
    if req.target == LevelState then
      if w.currentLevel in LevelMaps then Ok(w.(stage := AtLevel(w.currentLevel))) else Err(KeyError)
    else if req.unlock.None? then Err(TypeError)
    else if req.unlock.value > 0 then Ok(w.(stage := AtOverworld, unlockedLevel := req.unlock.value))
    else Ok(w.(stage := AtOverworld, health := w.health - 1))
  }

  /** The switch_stage calls of one frame, in order; the first exception ends the frame. */
  function SwitchedAll(w: World, reqs: seq<StageRequest>): Result<World>
    decreases |reqs|
  {
    if reqs == [] then Ok(w)
    else
      match Switched(w, reqs[0])
      case Err(e) => Err(e)
      case Ok(w1) => SwitchedAll(w1, reqs[1..])
  }

  /** A switch that costs a health point: back to the overworld with an unlock that is not positive. */
  predicate LosesHealth(req: StageRequest) {
    req.target != LevelState && req.unlock.Some? && req.unlock.value <= 0
  }

  /** The game after the switches of one frame that succeed before the first exception. */
  function Reached(w: World, reqs: seq<StageRequest>): World
    decreases |reqs|
  {
    if reqs == [] then w
    else
      match Switched(w, reqs[0])
      case Err(_) => w
      case Ok(w1) => Reached(w1, reqs[1..])
  }

  /** The heart redraws that the health setter records during those switches, in order. */
  function SwitchCalls(w: World, reqs: seq<StageRequest>): seq<UiCall>
    decreases |reqs|
  {
    if reqs == [] then []
    else
      match Switched(w, reqs[0])
      case Err(_) => []
      case Ok(w1) => (if LosesHealth(reqs[0]) then [CreateHearts(w1.health)] else []) + SwitchCalls(w1, reqs[1..])
  }

  /**
   * The hearts on screen after the switches: the row for the health they
   * leave when some switch redrew them, else the hearts before.
   */
  function HeartsAfter(w: World, reqs: seq<StageRequest>, hearts: seq<Heart>, width: real, frames: int, draws: seq<int>): seq<Heart>
    requires HeartCount(w.health) <= |draws|
    requires forall i :: 0 <= i < |draws| ==> HeartRestMin <= draws[i] <= HeartRestMax
  {
    if SwitchCalls(w, reqs) == [] then hearts
    else
      SwitchCallsFollowHealth(w, reqs);
      HeartRow(HeartCount(Reached(w, reqs).health), width, draws)
  }

  /** The hearts left by a frame's switches are valid when the hearts before were. */
  lemma HeartsAfterValid(w: World, reqs: seq<StageRequest>, hearts: seq<Heart>, width: real, frames: int, draws: seq<int>)
    requires frames > 0 && HeartCount(w.health) <= |draws|
    requires forall i :: 0 <= i < |draws| ==> HeartRestMin <= draws[i] <= HeartRestMax
    requires forall i :: 0 <= i < |hearts| ==> HeartValid(hearts[i], frames)
    ensures forall i :: 0 <= i < |HeartsAfter(w, reqs, hearts, width, frames, draws)| ==>
      HeartValid(HeartsAfter(w, reqs, hearts, width, frames, draws)[i], frames)
  {
    if SwitchCalls(w, reqs) != [] {
      SwitchCallsFollowHealth(w, reqs);
      HeartRowValid(HeartCount(Reached(w, reqs).health), width, draws, frames);
    }
  }

  /**
   * A frame's switches redraw the hearts once per health point they cost,
   * and only the hearts, the last time with the health they leave; without
   * an exception they end where SwitchedAll does.
   */
  lemma {:induction false} SwitchCallsFollowHealth(w: World, reqs: seq<StageRequest>)
    ensures |SwitchCalls(w, reqs)| == w.health - Reached(w, reqs).health
    ensures forall i :: 0 <= i < |SwitchCalls(w, reqs)| ==> SwitchCalls(w, reqs)[i].CreateHearts?
    ensures SwitchCalls(w, reqs) != [] ==> LastHearts(SwitchCalls(w, reqs)) == Some(Reached(w, reqs).health)
    ensures Reached(w, reqs).currentLevel == w.currentLevel
    ensures SwitchedAll(w, reqs).Ok? ==> SwitchedAll(w, reqs).value == Reached(w, reqs)
    decreases |reqs|
  {
    if reqs != [] {
      match Switched(w, reqs[0])
      case Err(_) =>
      case Ok(w1) =>
        SwitchCallsFollowHealth(w1, reqs[1..]);
        var c: seq<UiCall> := if LosesHealth(reqs[0]) then [CreateHearts(w1.health)] else [];
        var rest := SwitchCalls(w1, reqs[1..]);
        assert SwitchCalls(w, reqs) == c + rest;
        assert w1.health == w.health - |c|;
        LastHeartsAppend(c, rest);
        if rest == [] && c != [] {
          assert c[..0] == [];
          assert LastHearts(c) == Some(w1.health);
        }
    }
  }

  /** A switch that raises: nothing is reached, recorded or redrawn by the frame's switches. */
  lemma SwitchStepErr(w: World, reqs: seq<StageRequest>, hearts: seq<Heart>, width: real, frames: int, draws: seq<int>)
    requires reqs != [] && Switched(w, reqs[0]).Err?
    requires frames > 0 && HeartCount(w.health) <= |draws|
    requires forall i :: 0 <= i < |draws| ==> HeartRestMin <= draws[i] <= HeartRestMax
    ensures Reached(w, reqs) == w && SwitchCalls(w, reqs) == []
    ensures HeartsAfter(w, reqs, hearts, width, frames, draws) == hearts
  {
  }

  /** A switch that succeeds: the frame's switches go on from the switched game. */
  lemma SwitchStepOk(w: World, reqs: seq<StageRequest>, hearts: seq<Heart>, width: real, frames: int, draws: seq<int>)
    requires reqs != [] && Switched(w, reqs[0]).Ok?
    requires frames > 0 && HeartCount(w.health) <= |draws|
    requires forall i :: 0 <= i < |draws| ==> HeartRestMin <= draws[i] <= HeartRestMax
    ensures var w1 := Switched(w, reqs[0]).value;
      HeartCount(w1.health) <= |draws| &&
      Reached(w, reqs) == Reached(w1, reqs[1..]) &&
      SwitchCalls(w, reqs) == (if LosesHealth(reqs[0]) then [CreateHearts(w1.health)] else []) + SwitchCalls(w1, reqs[1..]) &&
      HeartsAfter(w, reqs, hearts, width, frames, draws) ==
        HeartsAfter(w1, reqs[1..], if LosesHealth(reqs[0]) then HeartRow(HeartCount(w1.health), width, draws) else hearts,
          width, frames, draws)
  {
    SwitchCallsFollowHealth(Switched(w, reqs[0]).value, reqs[1..]);
  }

  /**
   * The overworld's confirm, a call with the target alone, raises TypeError
   * as written; even with an unlock argument a LEVEL request lands on the
   * overworld again. A level is never entered from the overworld.
   */
  lemma ConfirmNeverEntersLevelAsWritten(w: World, unlock: Option<int>)
    ensures SwitchedAsWritten(w, StageRequest(LevelState, None)) == Err(TypeError)
    ensures SwitchedAsWritten(w, StageRequest(LevelState, unlock)).Ok? ==>
      SwitchedAsWritten(w, StageRequest(LevelState, unlock)).value.stage == AtOverworld
  {
  }

  /** Corrected, the confirm enters the current level and changes nothing else. */
  lemma SwitchEntersLevel(w: World, unlock: Option<int>)
    ensures w.currentLevel in LevelMaps ==>
      Switched(w, StageRequest(LevelState, unlock)) == Ok(w.(stage := AtLevel(w.currentLevel)))
    ensures w.currentLevel !in LevelMaps ==> Switched(w, StageRequest(LevelState, unlock)) == Err(KeyError)
  {
  }

  /** The correction changes nothing for the requests the levels make. */
  lemma AsWrittenAgreesOnOverworld(w: World, unlock: Option<int>)
    ensures SwitchedAsWritten(w, StageRequest(OverworldState, unlock)) == Switched(w, StageRequest(OverworldState, unlock))
  {
  }

  /**
   * Returning to the overworld: a positive unlock becomes the unlocked
   * level, anything else costs exactly one health point; the current level
   * never changes.
   */
  lemma SwitchToOverworld(w: World, unlock: int)
    ensures var r := Switched(w, StageRequest(OverworldState, Some(unlock)));
      r.Ok? && r.value.stage == AtOverworld && r.value.currentLevel == w.currentLevel &&
      (unlock > 0 ==> r.value.unlockedLevel == unlock && r.value.health == w.health) &&
      (unlock <= 0 ==> r.value.unlockedLevel == w.unlockedLevel && r.value.health == w.health - 1)
  {
  }

  /**
   * The outcome of a level's exits in one frame: falling out costs a health
   * point, reaching the flag unlocks the level's unlock (or costs a point
   * when it is not positive), and after either the game is on the overworld.
   */
  lemma {:induction false} LevelExitsOutcome(w: World, hb: Rect, levelHeight: real, finish: Rect, unlock: int)
    ensures var fell := hb.Bottom() > levelHeight;
      var won := Collide(hb, finish);
      var r := SwitchedAll(w, Levels.Exits(hb, levelHeight, finish, unlock));
      r.Ok? &&
      r.value.stage == (if fell || won then AtOverworld else w.stage) &&
      r.value.health == w.health - (if fell then 1 else 0) - (if won && unlock <= 0 then 1 else 0) &&
      r.value.unlockedLevel == (if won && unlock > 0 then unlock else w.unlockedLevel) &&
      r.value.currentLevel == w.currentLevel
  {
    var fell := hb.Bottom() > levelHeight;
    var won := Collide(hb, finish);
    var fall := StageRequest(OverworldState, Some(-1));
    var flag := StageRequest(OverworldState, Some(unlock));
    var w1 := if fell then Switched(w, fall).value else w;
    if fell {
      assert SwitchedAll(w, [fall]) == SwitchedAll(w1, []);
    }
    if won {
      assert SwitchedAll(w1, [flag]) == SwitchedAll(Switched(w1, flag).value, []);
    }
    if fell && won {
      assert Levels.Exits(hb, levelHeight, finish, unlock) == [fall, flag];
      assert [fall, flag][1..] == [flag];
    } else if fell {
      assert Levels.Exits(hb, levelHeight, finish, unlock) == [fall];
    } else if won {
      assert Levels.Exits(hb, levelHeight, finish, unlock) == [flag];
    } else {
      assert Levels.Exits(hb, levelHeight, finish, unlock) == [];
    }
  }

  /** check_game_over: the game ends when health is not positive. */
  predicate GameOver(health: int) {
    health <= 0
  }

  class Game {
    const data: Data
    const ui: Ui
    var stage: Stage
    /** False once check_game_over has ended the game. */
    var running: bool

    /**
     * The HUD shows one heart per (positive) health point, and the last
     * redraw the progress state asked for carries the current health.
     */
    ghost predicate Valid()
      reads this, data, ui, ui.coinTimer
    {
      ui.Valid() &&
      LastHearts(data.uiCalls) == Some(data.health) &&
      |ui.hearts| == HeartCount(data.health)
    }

    function View(): World
      reads this, data
    {
      World(stage, data.health, data.unlockedLevel, data.currentLevel)
    }

    constructor (ui: Ui, data: Data)
      requires ui.Valid() && LastHearts(data.uiCalls) == Some(data.health)
      requires |ui.hearts| == HeartCount(data.health)
      ensures Valid() && this.ui == ui && this.data == data
      ensures stage == AtLevel(FirstLevel) && running
    {
      this.ui := ui;
      this.data := data;
      stage := AtLevel(FirstLevel);
      running := true;
    }

    /**
     * Game(): the HUD, then the progress state, whose construction draws
     * five hearts, then level 5. `draws` are the hearts' rest durations.
     */
    static method Create(heartFrameWidths: seq<real>, draws: seq<int>) returns (r: Result<Game>)
      requires |draws| >= 5
      requires forall i :: 0 <= i < |draws| ==> HeartRestMin <= draws[i] <= HeartRestMax
      ensures r.Err? <==> heartFrameWidths == []
      ensures r.Err? ==> r.error == IndexError
      ensures r.Ok? ==> fresh(r.value) && fresh(r.value.data) && fresh(r.value.ui) && r.value.Valid()
      ensures r.Ok? ==>
        (r.value.stage == AtLevel(FirstLevel) && r.value.running &&
         r.value.data.health == 5 && r.value.data.currentLevel == FirstLevel && |r.value.ui.hearts| == 5)
    {
      var u := Ui.Create(heartFrameWidths);
      if u.Err? {
        return Err(u.error);
      }
      var ui := u.value;
      var data := new Data();
      ui.CreateHearts(data.health, draws);
      var g := new Game(ui, data);
      return Ok(g);
    }

    /**
     * The HUD calls that the stage's run recorded this frame, the last
     * `calls` of the progress state, applied in order. The setters call
     * into the HUD at once, so afterwards the HUD shows the row of the last
     * heart redraw and the amount of the last coin display, shown from
     * `now`; the hearts then follow the health again.
     */
    method ShowCalls(calls: seq<UiCall>, now: int, draws: seq<int>)
      requires ui.Valid() && LastHearts(data.uiCalls) == Some(data.health)
      requires |calls| <= |data.uiCalls| && data.uiCalls[|data.uiCalls| - |calls|..] == calls
      requires LastHearts(calls).None? ==> |ui.hearts| == HeartCount(data.health)
      requires HeartCount(data.health) <= |draws|
      requires forall i :: 0 <= i < |calls| && calls[i].CreateHearts? ==> HeartCount(calls[i].amount) <= |draws|
      requires forall i :: 0 <= i < |draws| ==> HeartRestMin <= draws[i] <= HeartRestMax
      modifies ui, ui.coinTimer
      ensures Valid()
      ensures LastHearts(calls).Some? ==> LastHearts(calls) == Some(data.health)
      ensures ui.hearts ==
        if LastHearts(calls).Some? then HeartRow(HeartCount(data.health), ui.heartWidth, draws) else old(ui.hearts)
      ensures ui.coinAmount == if LastCoins(calls).Some? then LastCoins(calls).value else old(ui.coinAmount)
      ensures ui.coinTimer.State() ==
        if LastCoins(calls).Some? then Activated(old(ui.coinTimer.State()), now) else old(ui.coinTimer.State())
    {
      ghost var earlier := data.uiCalls[..|data.uiCalls| - |calls|];
      assert data.uiCalls == earlier + calls;
      LastHeartsAppend(earlier, calls);
      ui.ApplyAll(calls, now, draws);
    }

    /**
     * switch_stage(target, unlock), corrected; a lost health point goes
     * through the health setter and the hearts are redrawn.
     */
    method SwitchStage(req: StageRequest, draws: seq<int>) returns (err: Option<Error>)
      requires Valid()
      requires HeartCount(data.health) <= |draws|
      requires forall i :: 0 <= i < |draws| ==> HeartRestMin <= draws[i] <= HeartRestMax
      modifies this, data, ui
      ensures Valid() && running == old(running)
      ensures var r := Switched(old(View()), req);
        (r.Err? ==> err == Some(r.error) && View() == old(View())) &&
        (r.Ok? ==> err == None && View() == r.value)
      ensures HeartCount(data.health) <= |draws|
      ensures data.coins == old(data.coins) && ui.coinAmount == old(ui.coinAmount)
      ensures data.unlockedOverworld == old(data.unlockedOverworld) && data.currentOverworld == old(data.currentOverworld)
      ensures if Switched(old(View()), req).Ok? && LosesHealth(req) then
          data.uiCalls == old(data.uiCalls) + [CreateHearts(data.health)] &&
          ui.hearts == HeartRow(HeartCount(data.health), ui.heartWidth, draws)
        else
          data.uiCalls == old(data.uiCalls) && ui.hearts == old(ui.hearts)
    {
      var r := Switched(View(), req);
      if r.Err? {
        return Some(r.error);
      }
      err := None;
      if req.target == LevelState {
        stage := AtLevel(data.currentLevel);
      } else {
        if req.unlock.value > 0 {
          data.unlockedLevel := req.unlock.value;
        } else {
          data.SetHealth(data.health - 1);
          HeartsFollowHealth(old(data.uiCalls), old(data.health), data.health);
          ui.CreateHearts(data.health, draws);
        }
        stage := AtOverworld;
      }
    }

    method CheckGameOver()
      modifies this
      ensures running == (old(running) && !GameOver(data.health))
      ensures stage == old(stage)
    {
      if GameOver(data.health) {
        running := false;
      }
    }

    /** The switch_stage calls of one frame, in order, until the first exception. */
    method SwitchAll(requests: seq<StageRequest>, draws: seq<int>) returns (err: Option<Error>)
      requires Valid()
      requires HeartCount(data.health) <= |draws|
      requires forall i :: 0 <= i < |draws| ==> HeartRestMin <= draws[i] <= HeartRestMax
      modifies this, data, ui
      ensures Valid() && running == old(running)
      ensures (SwitchedAll(old(View()), requests).Err? <==> err.Some?) &&
        (err.Some? ==> SwitchedAll(old(View()), requests) == Err(err.value)) &&
        (err.None? ==> View() == SwitchedAll(old(View()), requests).value)
      ensures View() == Reached(old(View()), requests)
      ensures data.uiCalls == old(data.uiCalls) + SwitchCalls(old(View()), requests)
      ensures ui.hearts == HeartsAfter(old(View()), requests, old(ui.hearts), ui.heartWidth, ui.heartFrames, draws)
      ensures data.coins == old(data.coins) && ui.coinAmount == old(ui.coinAmount)
      ensures data.unlockedOverworld == old(data.unlockedOverworld) && data.currentOverworld == old(data.currentOverworld)
      decreases |requests|
    {
      if requests == [] {
        return None;
      }
      ghost var w0, hearts0, calls0 := View(), ui.hearts, data.uiCalls;
      err := SwitchStage(requests[0], draws);
      if err.Some? {
        SwitchStepErr(w0, requests, hearts0, ui.heartWidth, ui.heartFrames, draws);
        return;
      }
      SwitchStepOk(w0, requests, hearts0, ui.heartWidth, ui.heartFrames, draws);
      ghost var w1, hearts1, calls1 := View(), ui.hearts, data.uiCalls;
      assert w1 == Switched(w0, requests[0]).value;
      ghost var c: seq<UiCall> := if LosesHealth(requests[0]) then [CreateHearts(w1.health)] else [];
      assert calls1 == calls0 + c;
      assert hearts1 == if LosesHealth(requests[0]) then HeartRow(HeartCount(w1.health), ui.heartWidth, draws) else hearts0;
      assert SwitchedAll(w0, requests) == SwitchedAll(w1, requests[1..]);
      assert HeartsAfter(w0, requests, hearts0, ui.heartWidth, ui.heartFrames, draws) ==
        HeartsAfter(w1, requests[1..], hearts1, ui.heartWidth, ui.heartFrames, draws);
      assert calls0 + SwitchCalls(w0, requests) == calls1 + SwitchCalls(w1, requests[1..]);
      err := SwitchAll(requests[1..], draws);
    }

    /**
     * One pass of run(): the game-over check, then the stage's switch_stage
     * calls in order, then the HUD's update. A game that is over does
     * nothing more; an exception in a switch ends the frame.
     */
    method Frame(requests: seq<StageRequest>, dt: real, now: int, draws: seq<int>) returns (err: Option<Error>)
      requires Valid() && running && dt >= 0.0
      requires HeartCount(data.health) <= |draws|
      requires forall i :: 0 <= i < |draws| ==> HeartRestMin <= draws[i] <= HeartRestMax
      modifies this, data, ui, ui.coinTimer
      ensures Valid()
      ensures GameOver(old(data.health)) ==> !running && err == None && View() == old(View())
      ensures !GameOver(old(data.health)) ==>
        (running && (SwitchedAll(old(View()), requests).Err? <==> err.Some?) &&
         (err.Some? ==> SwitchedAll(old(View()), requests) == Err(err.value)) &&
         (err.None? ==> View() == SwitchedAll(old(View()), requests).value))
      ensures data.coins == old(data.coins) && ui.coinAmount == old(ui.coinAmount)
      ensures data.unlockedOverworld == old(data.unlockedOverworld) && data.currentOverworld == old(data.currentOverworld)
      ensures GameOver(old(data.health)) ==>
        data.uiCalls == old(data.uiCalls) && ui.hearts == old(ui.hearts) &&
        ui.coinTimer.State() == old(ui.coinTimer.State())
      ensures !GameOver(old(data.health)) ==>
        View() == Reached(old(View()), requests) &&
        data.uiCalls == old(data.uiCalls) + SwitchCalls(old(View()), requests)
      ensures !GameOver(old(data.health)) && err.Some? ==>
        ui.hearts == HeartsAfter(old(View()), requests, old(ui.hearts), ui.heartWidth, ui.heartFrames, draws) &&
        ui.coinTimer.State() == old(ui.coinTimer.State())
      ensures !GameOver(old(data.health)) && err.None? ==>
        var switched := HeartsAfter(old(View()), requests, old(ui.hearts), ui.heartWidth, ui.heartFrames, draws);
        ui.coinTimer.State() == Polled(old(ui.coinTimer.State()), now).0 &&
        |ui.hearts| == |switched| &&
        forall i :: 0 <= i < |ui.hearts| ==>
          HeartValid(switched[i], ui.heartFrames) && ui.hearts[i] == Stepped(switched[i], ui.heartFrames, dt, now)
    {
      err := None;
      CheckGameOver();
      if !running {
        return;
      }
      err := SwitchAll(requests, draws);
      if err.Some? {
        return;
      }
      ui.Update(dt, now);
    }
  }
}
