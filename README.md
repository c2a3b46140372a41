# A verified model of the asset board's state

The board lets a user paste image and video URLs into a sidebar field and
arrange the resulting tiles on a canvas: drag, resize, bring to front, and
play videos. Its only real logic is the client-side asset store: a zustand
container with one array, `assets`, and the actions that add, remove, resize,
move and restack tiles. This project models that store in Dafny. It also
models the handler logic of two components that drive it: the URL field,
which decides whether a submission becomes a tile, and the video tile's
controls (volume and mute, pause while scrubbing, the play/pause/replay icon,
the drag guards).

Files, one module each:

- `interfaces.dfy` (`Interfaces`): the asset record, the basic asset a caller
  submits, and `Option`.
- `text.dfy` (`Text`): JavaScript's `trim` and `split('/')`, and the last
  path segment an asset is named after.
- `js_array.dfy` (`JsArray`): `map`, `filter` and `findIndex` on sequences.
- `assets_store.dfy` (`AssetsStore`): each action's new array as a function,
  the class `Store` whose methods apply them, and the z-order lemmas.
- `video_asset_controls.dfy` (`VideoControls`): the handlers as transitions
  on a snapshot of the state cells, and the class `VideoAssetControls`.
- `url_input.dfy` (`UrlInputComponent`): the submit decision chain and the
  class `UrlInput`.

Inputs the program takes from the outside world are parameters:

- the id `uuid()` returns (required not to occur in the store);
- the pathname `new URL(url)` parses, or `None` when that constructor throws;
- the answers of `isURL`, `isValidVideoUrl` and `getImageMeta`.

The store actions that the controls call but the store does not define
(`stopVideo`, `playVideo`, `enableDragging`, `disableDragging`) are modelled
as setting the `playing` or `draggable` flag. Each handler returns whether it
called one of them.

**The dense z-order is not an invariant of the store.** One might expect the
`zIndex` values to stay a permutation of 0..n-1 at all times. Every action
except `removeAssetByUrl` keeps it. `addAsset` puts the new tile at
`zIndex = length`, `setAssetZIndexToMaximal` renumbers, and `setAssetSize`
and `setAssetPosition` leave every `zIndex` as it was. `removeAssetByUrl`
does not renumber, so removing a tile leaves a gap. A later `addAsset` uses
`zIndex = length`, which can then repeat a value still in use. On such a
board, bring-to-front can leave the raised tile tied with another one. The
model follows the code. `AddKeepsDenseZ` and `RaiseKeepsDenseZ` prove the
two preservation results. `RemoveCanBreakDenseZ`, `AddAfterRemoveCanDuplicateZ`
and `RaiseAfterRemoveCanTie` prove that removal can break the order.

## Model

| member | source | states |
|---|---|---|
| `Text.Trim` | app/store/AssetsStore.tsx:40 | the result of `trim` neither starts nor ends with whitespace and is no longer than the input |
| `Text.TrimIsSlice` | app/store/AssetsStore.tsx:40 | the input is the result of `trim` with a run of whitespace in front and a run of whitespace behind, so only whitespace is cut off |
| `Text.TrimOfPadded` | app/store/AssetsStore.tsx:43 | whatever whitespace surrounds a trimmed core, `trim` returns exactly that core (a reference characterisation of trim) |
| `Text.TrimIdempotent` | app/components/UrlInput.tsx:18 | trimming an already trimmed string changes nothing |
| `Text.Split` | app/store/AssetsStore.tsx:23 | `split('/')` yields at least one piece |
| `Text.SplitPiecesHaveNoSlash` | app/store/AssetsStore.tsx:23 | no piece of `split('/')` contains a slash |
| `Text.JoinSplit` | app/store/AssetsStore.tsx:23 | joining the pieces of `split('/')` with slashes gives back the pathname |
| `Text.SplitJoin` | app/store/AssetsStore.tsx:23 | slash-free pieces joined with slashes split back into the same pieces |
| `Text.LastSegment` | app/store/AssetsStore.tsx:23-31 | the name taken from the pathname, `path[path.length - 1]`, never contains a slash |
| `Text.LastSegmentIsSuffix` | app/store/AssetsStore.tsx:31 | the last piece has no slash, ends the pathname, and is either the whole pathname or preceded by a slash |
| `Text.LastSegmentIsWhole` | app/store/AssetsStore.tsx:31 | the last piece is the whole pathname exactly when `split('/')` yields a single piece |
| `JsArray.Map` | app/store/AssetsStore.tsx:63-67 | `map` keeps the length and puts the callback's result for each element at the same position of a new array |
| `JsArray.Filter` | app/store/AssetsStore.tsx:40 | `filter` returns no more elements than it was given, each accepted by the callback |
| `JsArray.FilterMembers` | app/store/AssetsStore.tsx:40 | every element `filter` returns comes from the input, and every accepted input element is returned |
| `JsArray.FilterConcat` | app/store/AssetsStore.tsx:40 | filtering distributes over concatenation, so survivors keep their relative order |
| `JsArray.FilterKeepsDistinct` | app/store/AssetsStore.tsx:40 | a key that was distinct across the array stays distinct after filtering |
| `JsArray.FindIndex` | app/store/AssetsStore.tsx:42 | `find` returns the first element the callback accepts, or nothing when none does |
| `AssetsStore.IndexOfId` | app/store/AssetsStore.tsx:42 | the lookup by id finds the first asset with that id, and fails exactly when no asset has it |
| `AssetsStore.IndexOfUrl` | app/store/AssetsStore.tsx:43 | the lookup by URL finds the first asset with that URL, and fails exactly when the URL is absent |
| `AssetsStore.HasUrlIsUrlSetMember` | app/store/AssetsStore.tsx:21 | the `some(a => a.url === url)` test (`HasUrl`, also the duplicate check at app/components/UrlInput.tsx:21) holds exactly when the URL is among the board's URLs |
| `AssetsStore.CreatedAsset` | app/store/AssetsStore.tsx:28-35 | the appended object carries the basic asset's URL and type, the given id and z-index, the pathname's last segment as name (slash-free), size 0×0, position (0,0), and no optional field |
| `AssetsStore.AddedAssets` | app/store/AssetsStore.tsx:19-37 | a URL already present leaves the array unchanged; otherwise one asset is appended after the untouched old ones, with the given URL, type and id, the last pathname segment as name, `zIndex` = old length, size 0×0 and position (0,0), and none of the optional fields (aspect ratio, draggable, playing, progress, duration, border, frame lock) set; afterwards the URL is present |
| `AssetsStore.AddKeepsUrlsUnique` | app/store/AssetsStore.tsx:20-21 | adding never creates a second asset with the same URL |
| `AssetsStore.AddKeepsIdsUnique` | app/store/AssetsStore.tsx:30 | with a fresh id, ids stay unique |
| `AssetsStore.AddKeepsDenseZ` | app/store/AssetsStore.tsx:32 | if the z-indices were a permutation of 0..n-1, after adding they are a permutation of 0..n |
| `AssetsStore.AddedNameIsLastPathSegment` | app/store/AssetsStore.tsx:22-31 | the new asset's name is the slash-free tail of the pathname |
| `AssetsStore.RemovedAssets` | app/store/AssetsStore.tsx:39-40 | the array does not grow and no asset with the trimmed URL is left |
| `AssetsStore.RemovedMembers` | app/store/AssetsStore.tsx:39-40 | every asset left was there before, and every asset with another URL is kept |
| `AssetsStore.RemoveAbsentIsNoop` | app/store/AssetsStore.tsx:39-40 | removing a URL that is not present leaves the array unchanged |
| `AssetsStore.RemoveAllWithUrl` | app/store/AssetsStore.tsx:39-40 | removing the URL every asset carries empties the array |
| `AssetsStore.RemoveKeepsOrder` | app/store/AssetsStore.tsx:39-40 | removal distributes over concatenation, so the kept assets stay in their original order |
| `AssetsStore.RemoveKeepsDistinct` | app/store/AssetsStore.tsx:39-40 | removal keeps unique URLs, unique ids and distinct z-indices |
| `AssetsStore.WithSize` | app/store/AssetsStore.tsx:44-50 | length and order are kept, only `size` can change, it becomes the new size exactly for assets with the id, and an unknown id changes nothing |
| `AssetsStore.WithPosition` | app/store/AssetsStore.tsx:51-57 | length and order are kept, only `position` can change, it becomes the new position exactly for assets with the id, and an unknown id changes nothing |
| `AssetsStore.SizeAndPositionCommute` | app/components/AssetContainer.tsx:47-49 | resizing and moving commute, so the resize-stop handler's order does not matter |
| `AssetsStore.Raised` | app/store/AssetsStore.tsx:58-69 | length, order and every field but `zIndex` are kept; a URL not found by the trimmed lookup changes nothing |
| `AssetsStore.ZAfterRaise` | app/store/AssetsStore.tsx:64-66 | the z-index equal to the raised one goes to n-1, one above it drops by one, one below it stays; values in [0, n) stay in [0, n) |
| `AssetsStore.RaisedZIndices` | app/store/AssetsStore.tsx:63-68 | the target, and any asset sharing its z-index, gets n-1; assets above it drop by one; assets below it keep their z-index |
| `AssetsStore.RaiseKeepsDenseZ` | app/store/AssetsStore.tsx:63-68 | if the z-indices were a permutation of 0..n-1 they remain one |
| `AssetsStore.ZAfterRaiseInjective` | app/store/AssetsStore.tsx:64-65 | the renumbering maps distinct z-indices in [0,n) to distinct ones in [0,n) |
| `AssetsStore.RaiseBringsToFront` | app/store/AssetsStore.tsx:58-69 | on a dense z-order the raised asset ends strictly above every other asset |
| `AssetsStore.RemoveFirstOfPair` | app/store/AssetsStore.tsx:39-40 | removing a URL that only the first of two assets carries leaves exactly the second |
| `AssetsStore.RemoveBottomTile` | app/store/AssetsStore.tsx:39-40 | removing the bottom of two tiles leaves the top tile at z-index 1 |
| `AssetsStore.RemoveCanBreakDenseZ` | app/store/AssetsStore.tsx:39-40 | a dense board can lose density by a removal |
| `AssetsStore.AddAfterRemoveCanDuplicateZ` | app/store/AssetsStore.tsx:32 | after that removal, adding gives the new tile the z-index of an existing one |
| `AssetsStore.RaiseAfterRemoveCanTie` | app/store/AssetsStore.tsx:63-68 | on that board, bringing a tile to the front leaves it tied with another tile |
| `AssetsStore.UniqueUrlsCount` | app/store/AssetsStore.tsx:41 | with unique URLs, the number of assets is the number of distinct URLs |
| `AssetsStore.Store.constructor` | app/store/AssetsStore.tsx:18 | the store starts empty and valid |
| `AssetsStore.Store.AddAsset` | app/store/AssetsStore.tsx:19-38 | the new array is `AddedAssets` of the old one; unique URLs and ids are kept; `threw` exactly when the URL was new but did not parse |
| `AssetsStore.Store.RemoveAssetByUrl` | app/store/AssetsStore.tsx:39-40 | the new array is `RemovedAssets` of the old one; uniqueness is kept |
| `AssetsStore.Store.GetAssetsCount` | app/store/AssetsStore.tsx:41 | the count is the length of the array, and (URLs being unique) the number of distinct URLs on the board |
| `AssetsStore.Store.GetAssetById` | app/store/AssetsStore.tsx:42 | returns the first asset of the store with that id, and nothing exactly when no asset has it |
| `AssetsStore.Store.GetAssetByUrl` | app/store/AssetsStore.tsx:43 | returns the first asset of the store whose URL is the trimmed argument, and nothing exactly when there is none |
| `AssetsStore.Store.SetAssetSize` | app/store/AssetsStore.tsx:44-50 | the new array is `WithSize` of the old one |
| `AssetsStore.Store.SetAssetPosition` | app/store/AssetsStore.tsx:51-57 | the new array is `WithPosition` of the old one |
| `AssetsStore.Store.SetAssetZIndexToMaximal` | app/store/AssetsStore.tsx:58-69 | the new array is `Raised` of the old one, and a dense z-order stays dense |
| `VideoControls.PlayingIcon` | app/components/VideoAssetControls.tsx:122-126 | replay exactly when progress is non-zero and equals the duration; otherwise pause exactly when playing, and play exactly when not |
| `VideoControls.VolumeSliderValue` | app/components/VideoAssetControls.tsx:288 | the slider shows 0 exactly when muted or at volume 0, and the volume otherwise |
| `VideoControls.ChangeVolume` | app/components/VideoAssetControls.tsx:65-68 | volume becomes the value, muted exactly when it is 0, nothing else changes |
| `VideoControls.ChangeMuted` | app/components/VideoAssetControls.tsx:70-73 | `muted` flips; volume becomes 100 only when muted at volume 0; nothing else changes |
| `VideoControls.ChangeProgress` | app/components/VideoAssetControls.tsx:77-87 | a playing video is stopped and marked as having played, a paused one keeps its flags; progress moves only when the player is mounted |
| `VideoControls.CommitProgress` | app/components/VideoAssetControls.tsx:89-93 | clears `videoWasPlaying`; playback resumes only if it was playing before the scrub and is not now |
| `VideoControls.MouseEnter` | app/components/VideoAssetControls.tsx:170 | afterwards dragging is enabled; nothing else changes |
| `VideoControls.MouseLeave` | app/components/VideoAssetControls.tsx:171 | afterwards dragging is disabled; nothing else changes |
| `VideoControls.VolumeChangeIsShown` | app/components/VideoAssetControls.tsx:65-68 | after a volume change the slider shows exactly the chosen value |
| `VideoControls.ToggleMuteTwice` | app/components/VideoAssetControls.tsx:70-73 | toggling mute twice restores the state exactly when the volume is not 0, else ends at volume 100 |
| `VideoControls.UnmuteShowsVolume` | app/components/VideoAssetControls.tsx:70-73 | unmuting shows the volume on the slider again, or 100 if it was 0 |
| `VideoControls.ScrubThenCommit` | app/components/VideoAssetControls.tsx:77-93 | scrub then release leaves the video playing exactly when it was playing (or marked so) before, with `videoWasPlaying` cleared |
| `VideoControls.DragGuardsIdempotent` | app/components/VideoAssetControls.tsx:170-171 | repeated enter or leave events change nothing more; enter then leave ends not draggable |
| `VideoControls.VideoAssetControls.constructor` | app/components/VideoAsset.tsx:36-38 | a new tile is unmuted at volume 100, with progress `progress` or 0, and nothing marked as played |
| `VideoControls.IsVideoOver` | app/components/VideoAssetControls.tsx:53 | a video without a duration, or with duration 0, is never over; otherwise it is over exactly when the progress equals the duration |
| `VideoControls.VideoAssetControls.CurrentIcon` | app/components/VideoAssetControls.tsx:122-126 | the replay icon shows exactly when the video is over; otherwise pause exactly when playing, play exactly when not |
| `VideoControls.VideoAssetControls.SliderValue` | app/components/VideoAssetControls.tsx:288 | the slider is at 0 exactly when muted or at volume 0, and at the volume otherwise |
| `VideoControls.VideoAssetControls.HandleChangeVolume` | app/components/VideoAssetControls.tsx:65-68 | the new state is `ChangeVolume` of the old one |
| `VideoControls.VideoAssetControls.HandleChangeMuted` | app/components/VideoAssetControls.tsx:70-73 | the new state is `ChangeMuted` of the old one |
| `VideoControls.VideoAssetControls.HandleChangeProgress` | app/components/VideoAssetControls.tsx:77-87 | calls `stopVideo` exactly when playing; the new state is `ChangeProgress` of the old one |
| `VideoControls.VideoAssetControls.HandleChangeProgressCommitted` | app/components/VideoAssetControls.tsx:89-93 | calls `playVideo` exactly when it was playing before the scrub and is not now; the new state is `CommitProgress` of the old one |
| `VideoControls.VideoAssetControls.HandleTitleMouseEnter` | app/components/VideoAssetControls.tsx:170 | calls `enableDragging` exactly when not draggable |
| `VideoControls.VideoAssetControls.HandleTitleMouseLeave` | app/components/VideoAssetControls.tsx:171 | calls `disableDragging` exactly when draggable |
| `UrlInputComponent.SubmitVerdict` | app/components/UrlInput.tsx:17-31 | 'Invalid URL' exactly when the trimmed input fails validation; else 'Asset already uploaded' exactly when present; else 'Asset cannot be loaded' exactly when neither a video nor an image; else, and exactly then, the trimmed URL is accepted, typed image exactly when the image probe succeeded |
| `UrlInputComponent.SubmitSeesTrimmedInput` | app/components/UrlInput.tsx:18-29 | the verdict depends only on the trimmed input |
| `UrlInputComponent.AcceptedSubmitAddsOneTile` | app/components/UrlInput.tsx:28-31 | an accepted submission appends exactly one tile with the trimmed URL and keeps URLs unique |
| `UrlInputComponent.UrlInput.constructor` | app/components/UrlInput.tsx:14-15 | the field starts empty and without an error |
| `UrlInputComponent.UrlInput.OnInputChange` | app/components/UrlInput.tsx:38-41 | stores the new text and clears the error |
| `UrlInputComponent.UrlInput.OnSubmit` | app/components/UrlInput.tsx:17-36 | a rejection sets the error and changes neither the field nor the store; an acceptance calls `addAsset` once; if that succeeds the field and the error are cleared and the URL is on the board, and if it throws both stay as they were |

## Left out

- Rendering and styling: all JSX and MUI layout, in every component.
- Drag and resize gestures of `react-rnd`. Only the store calls they end in
  are modelled.
- Media playback and fullscreen: `ReactPlayer`, `seekTo`, `screenfull`. They
  are foreign calls. The close, play and fullscreen buttons of the video
  controls only call such code or undefined store actions.
- Timers: the debounced `setLocalProgressToState`, the progress interval and
  the control-hiding debounce.
- Floating-point and formatting: aspect-ratio sizing, `~~` truncation, and
  `moment` `mm:ss` formatting. Sizes, positions and playback times are exact
  `real`s. `zIndex` and the volume are `int`s. NaN is not modelled.
- The bodies of `isURL`, `isValidVideoUrl`, `getImageMeta`, `uuid()` and
  `new URL`. They are parameters.
- Store actions the components call but the store does not define
  (`removeAssetById`, `toggleVideoPlay`, `pauseAllVideos`,
  `setAssetAspectRatio`, `setAssetDuration`, `setAssetProgress` and the
  rest). The four the modelled handlers use become flag updates.
- Asynchrony: `onSubmit` awaits its two probes. The component's `assets`
  snapshot could be stale by then. The model reads the store when the submit
  begins and treats the handler as one step. `addAsset` re-checks the URL
  itself, so uniqueness does not depend on this.
- Callers pass an id to `setAssetZIndexToMaximal`, which looks the value up
  as a URL. The model keeps the store as written.
- `addAsset` spreads its whole argument into the new asset. The model's
  basic asset carries only `url` and `type`, which is all the URL field
  passes.
- Strings are sequences of Unicode characters, not of UTF-16 code units as
  in JavaScript. A lone surrogate cannot be represented. Trimming, splitting
  and `===` agree on well-formed strings.
- `AssetsStore.DenseZ` states "a permutation of 0..n-1" as "n distinct
  values, each in [0, n)". The two are equivalent by counting, but the
  equivalence is not proved here.
