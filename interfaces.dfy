/**
 * The asset records of the board (app/lib/interfaces.ts).
 *
 * JavaScript numbers are modelled as `real` where the program takes them from
 * the outside world (sizes, positions, aspect ratios, playback times) and as
 * `int` for `zIndex`, which the store only ever computes from array lengths by
 * adding and subtracting one. Optional properties (`draggable?` and the like)
 * are `Option`s; `None` is JavaScript's `undefined`.
 */
module Interfaces {

  datatype Option<+T> = None | Some(value: T)

  /** The two kinds of media an asset can hold (AssetTypes in app/lib/enums). */
  datatype AssetType = Image | Video

  datatype AssetSize = AssetSize(width: real, height: real)

  datatype AssetPosition = AssetPosition(x: real, y: real)

  /** What a caller hands to `addAsset`: a URL and the kind of media behind it. */
  datatype BasicAsset = BasicAsset(url: string, assetType: AssetType)

  /**
   * A tile on the board. `aspectRatio` is declared as a plain number, but
   * `addAsset` creates assets without it, so the model keeps it optional too.
   */
  datatype Asset = Asset(
    url: string,
    assetType: AssetType,
    id: string,
    name: string,
    zIndex: int,
    size: AssetSize,
    position: AssetPosition,
    aspectRatio: Option<real>,
    draggable: Option<bool>,
    playing: Option<bool>,
    progress: Option<real>,
    duration: Option<real>,
    borderDisabled: Option<bool>,
    frameAspectRatioUnlocked: Option<bool>)
}
