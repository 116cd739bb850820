/**
 * The game's fixed configuration (utils/settings.py): window size, tile size,
 * animation speed and the paint-order layers.
 */
module Settings {
  import opened Wrappers

  const WindowWidth: int := 1280
  const WindowHeight: int := 720
  const TileSize: int := 64
  const AnimSpeed: int := 6

  // Paint-order layers, lowest painted first (ZLayers).
  const ZBg: int := 0
  const ZClouds: int := 1
  const ZBgTiles: int := 2
  const ZPath: int := 3
  const ZBgDetails: int := 4
  const ZMain: int := 5
  const ZWater: int := 6
  const ZFg: int := 7
  const ZUi: int := 8

  /** The two kinds of stage the game switches between. */
  datatype GameState = OverworldState | LevelState

  /**
   * A call of the switch_state callback a stage is given: the target stage
   * and the unlock argument, None when the caller passes only the target.
   */
  datatype StageRequest = StageRequest(target: GameState, unlock: Option<int>)
}
