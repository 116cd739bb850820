/**
 * The heads-up display (game/ui.py): a row of hearts, one per health point,
 * each of which plays its animation once and then rests for a random time;
 * and the coin counter, shown for one second after every change. The
 * progress state drives it through the calls it records (Progress.UiCall).
 */
module Hud {
  import opened Wrappers
  import opened Geometry
  import opened Settings
  import opened Timers
  import opened Progress

  const HeartPadding: int := 5
  /** The top-left corner of the first heart. */
  const HeartsLeft: int := 10
  const HeartsTop: int := 10
  /** The coin counter stays up this long (ms) after each change. */
  const CoinShowTime: int := 1000
  /** Each heart's rest between two plays is drawn once from this range (ms). */
  const HeartRestMin: int := 500
  const HeartRestMax: int := 2000

  /**
   * One heart: its position, the animation's frame index, the frame it
   * shows, whether it is playing, and its rest timer.
   */
  datatype Heart = Heart(pos: Vec, frameIndex: real, image: int, animating: bool, rest: TimerState)

  /**
   * Heart(pos, frames): at rest, frame 0, not playing, with a rest timer
   * whose duration is the randint draw from [500, 2000].
   */
  function NewHeart(pos: Vec, draw: int): (h: Heart)
    requires HeartRestMin <= draw <= HeartRestMax
    ensures h.pos == pos && h.frameIndex == 0.0 && h.image == 0 && !h.animating
    ensures h.rest == Initial(draw, false, false)
  {
    var d := InitialDuration(HeartRestMax, true, Some(HeartRestMin), draw);
    Heart(pos, 0.0, 0, false, Initial(d.value, false, false))
  }

  /**
   * What every heart keeps: the frame index lies within the frames and is 0
   * while the heart rests, the frame shown exists, and the rest timer is a
   * one-shot timer without callback whose duration was drawn from the range.
   */
  predicate HeartValid(h: Heart, frames: int) {
    frames > 0 &&
    0.0 <= h.frameIndex < frames as real && 0 <= h.image < frames &&
    (!h.animating ==> h.frameIndex == 0.0) &&
    !h.rest.repeat && !h.rest.hasCallback &&
    HeartRestMin <= h.rest.duration <= HeartRestMax
  }

  /**
   * Heart.animate: advance the frame index; while it is within the frames
   * show that frame, otherwise stop playing, go back to frame index 0
   * (keeping the last frame on screen) and start the rest timer.
   */
  function Animated(h: Heart, frames: int, dt: real, now: int): (r: Heart)
    requires frames > 0 && h.frameIndex >= 0.0 && dt >= 0.0
    ensures r.pos == h.pos && r.rest.duration == h.rest.duration
  {
    var fi := h.frameIndex + AnimSpeed as real * dt;
    if fi < frames as real then h.(frameIndex := fi, image := Trunc(fi))
    else h.(animating := false, frameIndex := 0.0, rest := Activated(h.rest, now))
  }

  /**
   * Heart.update: poll the rest timer; a playing heart animates, a resting
   * heart whose timer is no longer active starts playing (from the next
   * frame on). Every update keeps the heart valid.
   */
  function Stepped(h: Heart, frames: int, dt: real, now: int): (r: Heart)
    requires HeartValid(h, frames) && dt >= 0.0
    ensures HeartValid(r, frames)
    ensures r.pos == h.pos && r.rest.duration == h.rest.duration
  {
    var polled := h.(rest := Polled(h.rest, now).0);
    if polled.animating then Animated(polled, frames, dt, now)
    else if !polled.rest.active then polled.(animating := true)
    else polled
  }

  /** While playing within the frames, the heart shows frame int(frame_index). */
  lemma HeartPlaysInOrder(h: Heart, frames: int, dt: real, now: int)
    requires HeartValid(h, frames) && dt >= 0.0 && h.animating
    requires h.frameIndex + AnimSpeed as real * dt < frames as real
    ensures var r := Stepped(h, frames, dt, now);
      r.animating && r.frameIndex == h.frameIndex + AnimSpeed as real * dt &&
      r.image == Trunc(r.frameIndex) && r.image >= Trunc(h.frameIndex)
  {
    TruncMonotone(h.frameIndex, h.frameIndex + AnimSpeed as real * dt);
  }

  /**
   * Past the last frame the heart stops, rewinds its frame index, leaves
   * the last frame on screen and starts resting at the current tick.
   */
  lemma HeartRestsAfterLastFrame(h: Heart, frames: int, dt: real, now: int)
    requires HeartValid(h, frames) && dt >= 0.0 && h.animating
    requires h.frameIndex + AnimSpeed as real * dt >= frames as real
    ensures var r := Stepped(h, frames, dt, now);
      !r.animating && r.frameIndex == 0.0 && r.image == h.image &&
      r.rest.active && r.rest.startTime == now
  {
  }

  /** A resting heart whose rest has not yet elapsed does not change at all. */
  lemma HeartWaitsWhileResting(h: Heart, frames: int, dt: real, now: int)
    requires HeartValid(h, frames) && dt >= 0.0 && !h.animating
    requires h.rest.active && now - h.rest.startTime < h.rest.duration
    ensures Stepped(h, frames, dt, now) == h
  {
  }

  /**
   * Once the rest has elapsed the heart starts playing again, from frame
   * index 0, still showing the frame it stopped on.
   */
  lemma HeartResumesAfterRest(h: Heart, frames: int, dt: real, now: int)
    requires HeartValid(h, frames) && dt >= 0.0 && !h.animating
    requires now - h.rest.startTime >= h.rest.duration
    ensures var r := Stepped(h, frames, dt, now);
      r.animating && r.frameIndex == 0.0 && r.image == h.image && !r.rest.active
  {
  }

  /** The hearts of create_hearts(amount): one per unit, left to right. */
  function HeartRow(n: nat, width: real, draws: seq<int>): (r: seq<Heart>)
    requires n <= |draws|
    requires forall i :: 0 <= i < |draws| ==> HeartRestMin <= draws[i] <= HeartRestMax
    ensures |r| == n
    decreases n
  {
    if n == 0 then []
    else
      var i := n - 1;
      HeartRow(i, width, draws) +
        [NewHeart(Vec(HeartsLeft as real + i as real * (width + HeartPadding as real), HeartsTop as real), draws[i])]
  }

  /**
   * The i-th heart sits i heart widths plus paddings right of the first,
   * all on one row, freshly built with the i-th draw as its rest.
   */
  lemma {:induction false} HeartRowLayout(n: nat, width: real, draws: seq<int>)
    requires n <= |draws|
    requires forall i :: 0 <= i < |draws| ==> HeartRestMin <= draws[i] <= HeartRestMax
    ensures forall i :: 0 <= i < n ==>
      HeartRow(n, width, draws)[i] ==
        NewHeart(Vec(HeartsLeft as real + i as real * (width + HeartPadding as real), HeartsTop as real), draws[i])
    decreases n
  {
    if n > 0 {
      HeartRowLayout(n - 1, width, draws);
    }
  }

  /** Every freshly built heart is valid for any non-empty frame list. */
  lemma {:induction false} HeartRowValid(n: nat, width: real, draws: seq<int>, frames: int)
    requires n <= |draws| && frames > 0
    requires forall i :: 0 <= i < |draws| ==> HeartRestMin <= draws[i] <= HeartRestMax
    ensures forall i :: 0 <= i < n ==> HeartValid(HeartRow(n, width, draws)[i], frames)
  {
    HeartRowLayout(n, width, draws);
  }

  /** The number of hearts create_hearts(amount) builds: range(amount) is empty for amount <= 0. */
  function HeartCount(amount: int): (n: nat)
    ensures amount >= 0 ==> n == amount
    ensures amount < 0 ==> n == 0
  {
    if amount > 0 then amount else 0
  }

  // ----- The calls of the progress state -----

  /** The amount of the last CreateHearts call, if any. */
  function LastHearts(calls: seq<UiCall>): Option<int>
    decreases |calls|
  {
    if calls == [] then None
    else if calls[|calls| - 1].CreateHearts? then Some(calls[|calls| - 1].amount)
    else LastHearts(calls[..|calls| - 1])
  }

  /** The amount of the last ShowCoins call, if any. */
  function LastCoins(calls: seq<UiCall>): Option<int>
    decreases |calls|
  {
    if calls == [] then None
    else if calls[|calls| - 1].ShowCoins? then Some(calls[|calls| - 1].amount)
    else LastCoins(calls[..|calls| - 1])
  }

  lemma {:induction false} LastHeartsAppend(a: seq<UiCall>, b: seq<UiCall>)
    ensures LastHearts(a + b) == if LastHearts(b).Some? then LastHearts(b) else LastHearts(a)
    decreases |b|
  {
    if b == [] {
      assert a + b == a;
    } else {
      assert (a + b)[..|a + b| - 1] == a + b[..|b| - 1];
      LastHeartsAppend(a, b[..|b| - 1]);
    }
  }

  /** The coins setter redraws the hearts only when it converts coins, last with the final health. */
  lemma {:induction false} CoinCallsLastHearts(v: int, h: int)
    ensures LastHearts(CoinCalls(v, h)) == if v >= 100 then Some(h + HealthGained(v)) else None
    decreases v
  {
    if v >= 100 {
      var tail := [CreateHearts(h + HealthGained(v - 100) + 1), ShowCoins(v)];
      LastHeartsAppend(CoinCalls(v - 100, h), tail);
      assert tail[..1] == [CreateHearts(h + HealthGained(v - 100) + 1)];
      assert LastHearts(tail[..1]) == Some(h + HealthGained(v - 100) + 1);
    } else {
      assert CoinCalls(v, h)[..0] == [];
    }
  }

  /**
   * The last heart redraw always carries the current health: the initial
   * state does, the health setter keeps it and so does the coins setter,
   * however many hundreds it converts.
   */
  lemma HeartsFollowHealth(calls: seq<UiCall>, health: int, value: int)
    ensures LastHearts([CreateHearts(5)]) == Some(5)
    ensures LastHearts(calls + [CreateHearts(value)]) == Some(value)
    ensures LastHearts(calls) == Some(health) ==>
      LastHearts(calls + CoinCalls(value, health)) == Some(health + HealthGained(value))
  {
    LastHeartsAppend(calls, [CreateHearts(value)]);
    CoinCallsLastHearts(value, health);
    LastHeartsAppend(calls, CoinCalls(value, health));
  }

  /** The coin counter is on screen from a change until the first poll one second later. */
  lemma CoinsShownForOneSecond(t: TimerState, changed: int, now: int)
    requires t.duration == CoinShowTime && !t.repeat
    ensures now - changed < CoinShowTime ==> Polled(Activated(t, changed), now).0.active
    ensures now - changed >= CoinShowTime ==> !Polled(Activated(t, changed), now).0.active
  {
  }

  /** The HUD object (UI). */
  class Ui {
    /** The width of the first heart frame. */
    const heartWidth: real
    const heartFrames: nat
    const coinTimer: Timer
    var hearts: seq<Heart>
    var coinAmount: int

    ghost predicate Valid()
      reads this, coinTimer
    {
      heartFrames > 0 &&
      coinTimer.duration == CoinShowTime && !coinTimer.repeat && !coinTimer.hasCallback &&
      forall i :: 0 <= i < |hearts| ==> HeartValid(hearts[i], heartFrames)
    }

    /** The text the coin counter shows, when it is shown (display_text). */
    function CoinText(): Option<int>
      reads this, coinTimer
    {
      if coinTimer.active then Some(coinAmount) else None
    }

    constructor (heartWidth: real, heartFrames: nat)
      requires heartFrames > 0
      ensures Valid() && fresh(coinTimer)
      ensures this.heartWidth == heartWidth && this.heartFrames == heartFrames
      ensures hearts == [] && coinAmount == 0
      ensures coinTimer.State() == Initial(CoinShowTime, false, false)
    {
      this.heartWidth := heartWidth;
      this.heartFrames := heartFrames;
      coinTimer := new Timer(CoinShowTime, false, false);
      hearts := [];
      coinAmount := 0;
    }

    /**
     * UI(fonts, frames): the heart width is read from the first heart frame,
     * so an empty frame list raises IndexError.
     */
    static method Create(heartFrameWidths: seq<real>) returns (r: Result<Ui>)
      ensures r.Err? <==> heartFrameWidths == []
      ensures r.Err? ==> r.error == IndexError
      ensures r.Ok? ==> fresh(r.value) && fresh(r.value.coinTimer) && r.value.Valid()
      ensures r.Ok? ==>
        (r.value.heartWidth == heartFrameWidths[0] && r.value.heartFrames == |heartFrameWidths| &&
         r.value.hearts == [] && r.value.coinAmount == 0 && r.value.CoinText() == None)
    {
      if heartFrameWidths == [] {
        return Err(IndexError);
      }
      var ui := new Ui(heartFrameWidths[0], |heartFrameWidths|);
      return Ok(ui);
    }

    /**
     * create_hearts(amount): every heart is removed, then max(amount, 0)
     * new ones are laid out in a row; `draws` are the rest durations that
     * the new hearts draw, each within the heart rest range.
     */
    method CreateHearts(amount: int, draws: seq<int>)
      requires Valid()
      requires HeartCount(amount) <= |draws|
      requires forall i :: 0 <= i < |draws| ==> HeartRestMin <= draws[i] <= HeartRestMax
      modifies this
      ensures Valid()
      ensures hearts == HeartRow(HeartCount(amount), heartWidth, draws)
      ensures |hearts| == HeartCount(amount)
      ensures coinAmount == old(coinAmount)
    {
      hearts := [];
      var i := 0;
      while i < amount
        invariant 0 <= i <= HeartCount(amount)
        invariant hearts == HeartRow(i, heartWidth, draws)
        invariant coinAmount == old(coinAmount)
      {
        var pos := Vec(HeartsLeft as real + i as real * (heartWidth + HeartPadding as real), HeartsTop as real);
        assert HeartRow(i + 1, heartWidth, draws) == HeartRow(i, heartWidth, draws) + [NewHeart(pos, draws[i])];
        hearts := hearts + [NewHeart(pos, draws[i])];
        i := i + 1;
      }
      HeartRowValid(HeartCount(amount), heartWidth, draws, heartFrames);
    }

    /** show_coins(amount): remember the amount and show the counter from tick `now`. */
    method ShowCoins(amount: int, now: int)
      requires Valid()
      modifies this, coinTimer
      ensures Valid()
      ensures coinAmount == amount && hearts == old(hearts)
      ensures coinTimer.State() == Activated(old(coinTimer.State()), now)
      ensures CoinText() == Some(amount)
    {
      coinAmount := amount;
      coinTimer.Activate(now);
    }

    /** One call of the progress state into the HUD. */
    method Apply(call: UiCall, now: int, draws: seq<int>)
      requires Valid()
      requires call.CreateHearts? ==> HeartCount(call.amount) <= |draws|
      requires forall i :: 0 <= i < |draws| ==> HeartRestMin <= draws[i] <= HeartRestMax
      modifies this, coinTimer
      ensures Valid()
      ensures call.CreateHearts? ==>
        (hearts == HeartRow(HeartCount(call.amount), heartWidth, draws) && coinAmount == old(coinAmount) &&
         coinTimer.State() == old(coinTimer.State()))
      ensures call.ShowCoins? ==>
        (hearts == old(hearts) && CoinText() == Some(call.amount) &&
         coinTimer.State() == Activated(old(coinTimer.State()), now))
    {
      match call {
        case CreateHearts(amount) =>
          CreateHearts(amount, draws);
        case ShowCoins(amount) =>
          ShowCoins(amount, now);
      }
    }

    /**
     * A run of calls applied in order: the hearts become the row of the
     * last redraw and the counter shows the last coin amount from `now`.
     */
    method ApplyAll(calls: seq<UiCall>, now: int, draws: seq<int>)
      requires Valid()
      requires forall i :: 0 <= i < |calls| && calls[i].CreateHearts? ==> HeartCount(calls[i].amount) <= |draws|
      requires forall i :: 0 <= i < |draws| ==> HeartRestMin <= draws[i] <= HeartRestMax
      modifies this, coinTimer
      ensures Valid()
      ensures LastHearts(calls).Some? ==>
        HeartCount(LastHearts(calls).value) <= |draws| &&
        hearts == HeartRow(HeartCount(LastHearts(calls).value), heartWidth, draws)
      ensures LastHearts(calls).None? ==> hearts == old(hearts)
      ensures coinAmount == if LastCoins(calls).Some? then LastCoins(calls).value else old(coinAmount)
      ensures coinTimer.State() == if LastCoins(calls).Some? then Activated(old(coinTimer.State()), now) else old(coinTimer.State())
    {
      var i := 0;
      while i < |calls|
        invariant 0 <= i <= |calls|
        invariant Valid()
        invariant LastHearts(calls[..i]).Some? ==>
          HeartCount(LastHearts(calls[..i]).value) <= |draws| &&
          hearts == HeartRow(HeartCount(LastHearts(calls[..i]).value), heartWidth, draws)
        invariant LastHearts(calls[..i]).None? ==> hearts == old(hearts)
        invariant coinAmount == if LastCoins(calls[..i]).Some? then LastCoins(calls[..i]).value else old(coinAmount)
        invariant coinTimer.State() ==
          if LastCoins(calls[..i]).Some? then Activated(old(coinTimer.State()), now) else old(coinTimer.State())
      {
        assert calls[..i + 1][..i] == calls[..i];
        Apply(calls[i], now, draws);
        i := i + 1;
      }
      assert calls[..i] == calls;
    }

    /**
     * update(dt): poll the coin timer, then update every heart; drawing the
     * hearts and the counter is left to the display.
     */
    method Update(dt: real, now: int)
      requires Valid() && dt >= 0.0
      modifies this, coinTimer
      ensures Valid()
      ensures coinTimer.State() == Polled(old(coinTimer.State()), now).0
      ensures |hearts| == |old(hearts)|
      ensures forall i :: 0 <= i < |hearts| ==> hearts[i] == Stepped(old(hearts)[i], heartFrames, dt, now)
      ensures coinAmount == old(coinAmount)
    {
      var _ := coinTimer.Update(now);
      var updated := [];
      var i := 0;
      while i < |hearts|
        invariant 0 <= i <= |hearts|
        invariant |updated| == i
        invariant forall k :: 0 <= k < i ==> updated[k] == Stepped(hearts[k], heartFrames, dt, now)
      {
        updated := updated + [Stepped(hearts[i], heartFrames, dt, now)];
        i := i + 1;
      }
      hearts := updated;
    }
  }
}
