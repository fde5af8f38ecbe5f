# VideoComposition: the composition builder, in Dafny

`VideoCompositor` takes a tree of input assets and composes it. The tree's leaves are image files, video files, in-memory images and already-loaded assets. Its inner nodes are merges (overlay) and concatenations (one after another). The builder turns the tree into `ExportData`, which holds three things: a timeline (an `AVComposition`), an optional video composition with its instructions, and an optional audio mix. `compose` hands that data to an export session and turns the session's final status into success or an error.

This project models that builder and proves what it produces.

- `wrappers.dfy`: module `Wrappers`, with `Option` (Swift's `T?`) and `Result` (Swift's `throws`).
- `avfoundation.dfy`: module `AVFoundation`, an abstract model of the AVFoundation objects the builder touches.
  - A track is a record of media type, start and duration. An asset (`AVAsset`) is an ordered sequence of tracks. Its duration is the latest end time of its tracks.
  - `AVMutableComposition` is a class over such a sequence. It has `AddMutableTrack`, which appends an empty track, and `InsertTimeRange`, which places the whole of another asset at an offset.
  - The module also holds the instruction types (`Instruction`, `LayerInstruction`, `VideoComposition`) and the export status.
- `compositor.dfy`: module `VideoCompositor`, the builder itself.
  - `CreateAsset` and `MapAssets` are functions: the recursive dispatch over the closed `InputAsset` type.
  - `CreateComposition` builds a leaf and `CreateMergeAsset` builds a merge. Both are methods that fill a fresh `AVMutableComposition` in loops, as the original does. They are proved to return exactly `BuildLeaf` and `BuildMerge`, the functions the dispatch uses: `LeafData` and `MergeData` on success, `InsertionFailed` when the library refuses an insertion.
  - Whether the library's `insertTimeRange` accepts an insertion or throws is the parameter `insertable`, threaded through the builder as `load` is.
  - The in-memory image leaf and concatenation abort with `fatalError()` in the original. Here they return `Failure(NotImplemented(kind))`.
  - `ExportResult` maps the export session's status to an error, and `Compose` puts the build and the export together.
- `properties.dfy`: module `CompositorProperties`, lemmas about the builder.
  - Each lemma compares the builder with a reference definition written without it. `Supported` says which trees hold only implemented kinds, and `InsertionsAccepted` whether the library accepts every insertion their build performs. `Extent` gives how long a tree lasts. `LeafTracks` gives the tracks it holds. `VideoTrackIndices` gives where its video tracks are.
  - The lemmas cover fail-fast child building, which trees build and why the others fail, merge duration and instruction layout, export status reporting, and the merge scenario from the repository's test.

Times are `CMTime` values. The model counts them as whole ticks of one common timescale (`nat`).

## Model

| member | source | states |
|---|---|---|
| `AVFoundation.AVMutableComposition.constructor` | VideoComposition/VideoCompositor.swift:86 | a new composition has no tracks |
| `AVFoundation.AVMutableComposition.AddMutableTrack` | VideoComposition/VideoCompositor.swift:89-92 | appends one empty track of the requested media type after the existing ones and changes nothing else |
| `AVFoundation.AVMutableComposition.InsertTimeRange` | VideoComposition/VideoCompositor.swift:98 | inserting [0, asset.duration) of an asset at an offset succeeds exactly when the asset has tracks, the receiving tracks have its media types and the library accepts it; on success every track of the asset is placed, in order and moved by the offset, the tracks before the receiving ones are kept, and on failure nothing changes |
| `AVFoundation.ShiftedTracks` | VideoComposition/VideoCompositor.swift:148 | inserting at an offset keeps each track's media type and duration, and the inserted media ends `offset` after the asset's own end; at offset 0 the tracks are reproduced exactly |
| `AVFoundation.MaxEndConcat` | VideoComposition/VideoCompositor.swift:152 | a timeline holding two runs of tracks ends at the later of the two runs' ends |
| `VideoCompositor.CreateComposition` | VideoComposition/VideoCompositor.swift:83-106 | a leaf build fails with `InsertionFailed` exactly when the source has tracks and the library refuses their insertion; otherwise it gives a timeline with one track per source track, of the same media type, in source order and at the source's times, with no video composition and no audio mix; a source without tracks gives an empty timeline and never fails, because the insertion is skipped |
| `VideoCompositor.CreateUrlAsset` | VideoComposition/VideoCompositor.swift:78-81 | a file is loaded and then built exactly as an asset leaf, failing exactly as that leaf does |
| `VideoCompositor.MergeChild` | VideoComposition/VideoCompositor.swift:124-150 | one child of a merge appends one instruction per video track, in track order, and one receiving track per track; the pass succeeds exactly when the child has no tracks or the library accepts its insertion, and then the receiving tracks hold the child's tracks at offset 0, after those already present; otherwise they stay empty |
| `VideoCompositor.CreateMergeAsset` | VideoComposition/VideoCompositor.swift:114-164 | a merge build fails with `InsertionFailed` exactly when the library refuses to insert some child that has tracks; otherwise it returns `MergeData`: every child's tracks on one timeline at offset 0, the background instruction spanning the merged duration first, then the per-video-track instructions; no audio mix |
| `VideoCompositor.VideoInstructionsConcat` | VideoComposition/VideoCompositor.swift:124-145 | the video instructions of children built one after another are each child's instructions in turn, so discovery order is child order, then track order |
| `VideoCompositor.CreateConcatAsset` | VideoComposition/VideoCompositor.swift:166-168 | concatenation never produces a result: it is always `NotImplemented(Concatenation)` |
| `VideoCompositor.CreateAsset` | VideoComposition/VideoCompositor.swift:61-76 | when the library accepts every insertion, the only way a build fails is `NotImplemented` |
| `VideoCompositor.MapAssets` | VideoComposition/VideoCompositor.swift:108-112 | when the library accepts every insertion, building the children fails only with `NotImplemented`; on success it yields as many built children as inputs |
| `VideoCompositor.ExportResult` | VideoComposition/VideoCompositor.swift:49-58 | `.completed` and nothing else gives success; `.failed` and nothing else gives `exportSessionFailed` with the session's error; `.cancelled` and nothing else gives `exportCanceled`; every other status, and only those, gives `exportIllegalStatus` carrying that status; the mapping never gives `createExportSessionFailed` |
| `CompositorProperties.MapAssetsBuildsInOrder` | VideoComposition/VideoCompositor.swift:108-112 | on success the k-th built child is the build of the k-th input, for every k |
| `CompositorProperties.MapAssetsFailsFast` | VideoComposition/VideoCompositor.swift:108-112 | building the children fails exactly when some child fails, and then with the error of the first failing child, every earlier child having been built |
| `CompositorProperties.FileLeavesShareOnePath` | VideoComposition/VideoCompositor.swift:63-66 | an image file and a video file at the same URL are built identically, as the asset loaded from that URL, with the same outcome |
| `CompositorProperties.LeafCopiesTracks` | VideoComposition/VideoCompositor.swift:69-70 | an asset leaf builds exactly when it has no tracks or the library accepts its insertion, and otherwise fails with `InsertionFailed`; its timeline holds the asset's tracks and lasts as long as the asset, or 0 when it has no tracks; it has no video composition and no audio mix |
| `CompositorProperties.CreateAssetSucceedsIff` | VideoComposition/VideoCompositor.swift:61-76 | a tree is built exactly when it contains no in-memory image and no concatenation, at any depth, and the library accepts every insertion of a leaf and of a merge child |
| `CompositorProperties.UnsupportedKindsFail` | VideoComposition/VideoCompositor.swift:67-74 | an in-memory image fails with `NotImplemented(InMemoryImage)`; a concatenation always fails, and when all its children can be built it fails with `NotImplemented(Concatenation)` |
| `CompositorProperties.CreateAssetDuration` | VideoComposition/VideoCompositor.swift:61-76 | a built tree lasts as long as its `Extent`: a leaf as long as its asset, a merge as long as its longest child, recursively |
| `CompositorProperties.CreateAssetTracks` | VideoComposition/VideoCompositor.swift:61-76 | a built tree holds exactly its leaves' tracks, depth first and left to right, each once |
| `CompositorProperties.SupportedTreesFailOnlyOnInsertion` | VideoComposition/VideoCompositor.swift:61-76 | a tree with no in-memory image and no concatenation fails only with `InsertionFailed`, the error of a refused insertion |
| `CompositorProperties.TracklessTreesAlwaysBuild` | VideoComposition/VideoCompositor.swift:97-99 | a supported tree whose leaves hold no tracks always builds, whatever the library does with insertions, because the guard skips every insertion |
| `CompositorProperties.MergeDurationIsLongestChild` | VideoComposition/VideoCompositor.swift:147-152 | the merged timeline's duration is the maximum of the children's durations, and 0 for no children |
| `CompositorProperties.MergeTrackCountIsSum` | VideoComposition/VideoCompositor.swift:124-133 | a merge adds one destination track per track of every child, video or not |
| `CompositorProperties.VideoTrackIndicesExact` | VideoComposition/VideoCompositor.swift:135 | the reference list of video positions holds exactly the positions of the video tracks, in increasing order |
| `CompositorProperties.VideoInstructionsFollowVideoTracks` | VideoComposition/VideoCompositor.swift:127-145 | the k-th per-track instruction belongs to the k-th video track; there is one per video track and none for other tracks |
| `CompositorProperties.MergeInstructions` | VideoComposition/VideoCompositor.swift:117-163 | a merge has 1 + (number of video tracks) instructions. The first is the background instruction: no layers, the background colour, time range [0, merged duration). Each later one has exactly one layer, for its video track, with time range [0, that track's duration). The audio mix is absent. |
| `CompositorProperties.MergeImageAndVideo` | VideoCompositionTests/VideoCompositionTests.swift:32 | when the library accepts both files, merging a 3-tick image with one video track and a 10-tick video with a video and an audio track gives 3 tracks lasting 10 ticks, a background instruction over [0, 10), then layers over [0, 3) and [0, 10) |
| `CompositorProperties.ComposeSucceedsIff` | VideoComposition/VideoCompositor.swift:32-59 | `compose` succeeds exactly when the tree is supported, the library accepts every insertion, and the export session ends with `.completed` |
| `CompositorProperties.ComposeStopsAtBuildFailure` | VideoComposition/VideoCompositor.swift:33 | a tree that cannot be built is reported as a build failure, and the export session plays no part in the outcome; a supported tree's failure is `InsertionFailed`, and when the library accepts every insertion the failure is `NotImplemented` |
| `CompositorProperties.ComposeReportsExportStatus` | VideoComposition/VideoCompositor.swift:35-58 | once a supported tree with accepted insertions is built, a session that cannot be created gives `createExportSessionFailed`; otherwise the session's final status gives the outcome as the status switch maps it |
| `VideoCompositor.Compose` | VideoComposition/VideoCompositor.swift:32-59 | a build failure is thrown as `BuildFailed` with the build's error, without consulting the session; a session that cannot be created gives `createExportSessionFailed`; a session that ends is mapped through `ExportResult`; `compose` succeeds exactly when the build succeeds and the session ends `.completed` |

## Left out

- Loading, `AVAsset(url:)`: the media engine's file loading is the parameter `load`, a total function from URL to asset. The original cannot fail here either: an unreadable file gives an asset without tracks.
- Track identity: which track IDs AVFoundation assigns, and `kCMPersistentTrackID_Invalid`, are not modelled. A track is identified by its position. A layer instruction holds the child's own track (`assetTrack: track`), so the model does not capture whether that track's ID names the intended track of the merged composition.
- Insertion pairing: how `insertTimeRange(_:of:at:)` pairs source tracks with destination tracks belongs to AVFoundation and cannot be seen. The model pairs the source's tracks, in order, with the last tracks of the composition, which are the ones the caller just added.
- Insertion failures: when the library's insertion throws is not visible. The model refuses an insertion when the source has no tracks or the receiving tracks' media types differ; the builder never attempts either. Any other refusal is the parameter `insertable`, a decision that depends only on the inserted asset, not on the timeline receiving it or on earlier insertions.
- CreateAsset: its own contract speaks only of the case where the library accepts every insertion. What a build does in general is stated by `CreateAssetSucceedsIff`, `SupportedTreesFailOnlyOnInsertion` and `TracklessTreesAlwaysBuild`.
- MapAssets: as for `CreateAsset`; `MapAssetsFailsFast` states which child's error it reports in general.
- InsertTimeRange: keeps the tracks before the receiving ones unchanged. AVFoundation does not document this; `MergeDurationIsLongestChild` and `CreateAssetTracks` rely on it.
- AddMutableTrack: always adds a track. `addMutableTrack` can return nil (VideoComposition/VideoCompositor.swift:89-92, :128-131), and the original only prints that result. A composition that refuses to add a track is not modelled.
- Inserted range: both call sites insert `[0, asset.duration)`, so `InsertTimeRange` always inserts the whole asset. No other range is modelled.
- Background instruction aliasing: the original appends the background instruction object first and later sets its time range through that same reference. The model replaces element 0 of the instruction list instead.
- Time: `CMTime` is rational with a timescale. The model uses whole ticks of one common timescale, and no timescale conversion is modelled.
- Render settings: `renderSize` (360×720) and `frameDuration` (1/30 s) are rendering parameters with no effect on the timeline's structure. The background colour is kept as its four components.
- The export session itself: the asynchronous `export()`, the output file type `.mov` and the passthrough preset are not modelled. What the session reports is the parameter `session` of `Compose`: it either could not be created, or it ended with a status and an optional error. The session's error is opaque.
- `fatalError()`: the process abort for in-memory images and for concatenation is modelled as a `NotImplemented` error result, and no concatenation semantics are invented.
- The `print` debugging lines are left out.
- The test file VideoCompositionTests/VideoCompositionTests.swift reads bundle resources and only prints. Only its input tree appears, as the scenario `MergeImageAndVideo`, with assumed durations.

Three points about what the code does, and the model with it:

- `createConcatAsset` (VideoComposition/VideoCompositor.swift:166-168) has no placement logic, so concatenation is `NotImplemented`; no sequential placement is invented.
- No build path reports an unavailable source: loading cannot fail, so there is no such error.
- Each layer instruction's time range is `[0, track duration)` (VideoComposition/VideoCompositor.swift:140), which starts at 0 even for a track that starts later.
