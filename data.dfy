/**
 * The progress state shared by every stage (game/data.py): coins, health and
 * the level progression. Its health and coins setters refresh the HUD; the
 * model records each call it makes into the HUD in `uiCalls`, in order, and
 * module Hud models what those calls do.
 */
module Progress {

  /** A call that the progress state makes into the HUD. */
  datatype UiCall = CreateHearts(amount: int) | ShowCoins(amount: int)

  /** The coins left once the setter has converted every 100 into health. */
  function CoinsLeft(v: int): int
    decreases v
  {
    if v >= 100 then CoinsLeft(v - 100) else v
  }

  /** The health the coins setter adds: one per recursion level. */
  function HealthGained(v: int): nat
    decreases v
  {
    if v >= 100 then 1 + HealthGained(v - 100) else 0
  }

  /**
   * The HUD calls made by setting coins to v when health is h, in order:
   * the innermost recursion level reports first, each level then refreshes
   * the hearts with the incremented health and reports its own value.
   */
  function CoinCalls(v: int, h: int): seq<UiCall>
    decreases v
  {
    if v >= 100 then
      CoinCalls(v - 100, h) + [CreateHearts(h + HealthGained(v - 100) + 1), ShowCoins(v)]
    else
      [ShowCoins(v)]
  }

  /** Setting v >= 0 coins leaves v mod 100 coins and adds v div 100 health. */
  lemma {:induction false} CoinsConvert(v: int)
    requires v >= 0
    ensures CoinsLeft(v) == v % 100
    ensures HealthGained(v) == v / 100
    decreases v
  {
    if v >= 100 {
      CoinsConvert(v - 100);
    }
  }

  /** Fewer than 100 coins, negative amounts included, are stored as given. */
  lemma SmallCoinsKept(v: int)
    requires v < 100
    ensures CoinsLeft(v) == v && HealthGained(v) == 0
    ensures CoinCalls(v, 0) == [ShowCoins(v)]
  {
  }

  /**
   * The coins setter shows coins once per recursion level and refreshes the
   * hearts once per converted hundred; the last call carries the original,
   * unreduced value, and the last heart refresh the final health.
   */
  lemma {:induction false} CoinCallsShape(v: int, h: int)
    ensures |CoinCalls(v, h)| == 2 * HealthGained(v) + 1
    ensures CoinCalls(v, h)[|CoinCalls(v, h)| - 1] == ShowCoins(v)
    ensures v >= 100 ==>
      CoinCalls(v, h)[|CoinCalls(v, h)| - 2] == CreateHearts(h + HealthGained(v))
    ensures CoinCalls(v, h)[0] == ShowCoins(CoinsLeft(v))
    decreases v
  {
    if v >= 100 {
      CoinCallsShape(v - 100, h);
    }
  }

  /** 95 coins plus 8 more: 3 coins are left and health goes up by one. */
  lemma From95To103(h: int)
    ensures CoinsLeft(95 + 8) == 3 && HealthGained(95 + 8) == 1
    ensures CoinCalls(103, h) == [ShowCoins(3), CreateHearts(h + 1), ShowCoins(103)]
  {
    CoinsConvert(103);
    assert CoinCalls(3, h) == [ShowCoins(3)];
  }

  class Data {
    var coins: int
    var health: int
    var unlockedLevel: int
    var currentLevel: int
    var unlockedOverworld: int
    var currentOverworld: int
    /** Every call made into the HUD, oldest first. */
    var uiCalls: seq<UiCall>

    /** Data(ui): 0 coins, 5 health (shown as 5 hearts), levels 5 and overworld 0. */
    constructor ()
      ensures coins == 0 && health == 5
      ensures unlockedLevel == 5 && currentLevel == 5
      ensures unlockedOverworld == 0 && currentOverworld == 0
      ensures uiCalls == [CreateHearts(5)]
    {
      coins := 0;
      health := 5;
      uiCalls := [CreateHearts(5)];
      unlockedLevel := 5;
      currentLevel := 5;
      unlockedOverworld := 0;
      currentOverworld := 0;
    }

    twostate predicate LevelsUnchanged()
      reads this
    {
      unlockedLevel == old(unlockedLevel) && currentLevel == old(currentLevel) &&
      unlockedOverworld == old(unlockedOverworld) && currentOverworld == old(currentOverworld)
    }

    /** The health setter: stores the value unclamped and redraws the hearts. */
    method SetHealth(value: int)
      modifies this
      ensures health == value && coins == old(coins)
      ensures uiCalls == old(uiCalls) + [CreateHearts(value)]
      ensures LevelsUnchanged()
    {
      health := value;
      uiCalls := uiCalls + [CreateHearts(value)];
    }

    /** The coins setter, which re-enters itself while 100 or more coins are held. */
    method SetCoins(value: int)
      modifies this
      ensures coins == CoinsLeft(value)
      ensures health == old(health) + HealthGained(value)
      ensures uiCalls == old(uiCalls) + CoinCalls(value, old(health))
      ensures LevelsUnchanged()
      decreases value
    {
      coins := value;
      if coins >= 100 {
        SetCoins(coins - 100);
        SetHealth(health + 1);
      }
      uiCalls := uiCalls + [ShowCoins(value)];
    }
  }
}
