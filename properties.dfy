/**
 * Properties of the composition builder: which trees it builds, how long and how
 * large their timelines are, what a merge's instructions look like, and how
 * `compose` reports its outcome. Each is stated against a reference definition
 * written independently of the builder.
 */
module CompositorProperties {
  import opened Wrappers
  import opened AVFoundation
  import opened VideoCompositor

  // ---------------------------------------------------------------------------
  // Reference definitions

  /** Whether a tree holds only kinds the builder supports: no in-memory image and no concatenation anywhere. */
  predicate Supported(input: InputAsset) {
    match input
    case Image(_) => false
    case Concat(_) => false
    case Merge(assets) => forall k :: 0 <= k < |assets| ==> Supported(assets[k])
    case _ => true
  }

  /** How long the timeline of a tree lasts: a leaf as long as its asset, a merge as long as its longest child. */
  function Extent(input: InputAsset, load: Loader): nat {
    match input
    case ImageFile(url) => load(url).Duration()
    case VideoFile(url) => load(url).Duration()
    case Asset(asset) => asset.Duration()
    case Merge(assets) => MaxOf(seq(|assets|, k requires 0 <= k < |assets| => Extent(assets[k], load)))
    case _ => 0
  }

  /** The sum of a sequence of counts. */
  function SumOf(s: seq<nat>): nat {
    if s == [] then 0 else SumOf(s[..|s| - 1]) + s[|s| - 1]
  }

  /** Runs of tracks laid one after another. */
  function Concatenated(runs: seq<seq<Track>>): seq<Track> {
    if runs == [] then [] else Concatenated(runs[..|runs| - 1]) + runs[|runs| - 1]
  }

  /** The tracks of a tree's leaves, depth first and left to right: a leaf its asset's, a merge its children's in turn. */
  function LeafTracks(input: InputAsset, load: Loader): seq<Track> {
    match input
    case ImageFile(url) => load(url).tracks
    case VideoFile(url) => load(url).tracks
    case Asset(asset) => asset.tracks
    case Merge(assets) => Concatenated(seq(|assets|, k requires 0 <= k < |assets| => LeafTracks(assets[k], load)))
    case _ => []
  }

  /**
   * Whether the library accepts every insertion that building a tree performs:
   * each leaf's asset, and in a merge each child's built timeline, which holds
   * that child's leaf tracks.
   */
  predicate InsertionsAccepted(input: InputAsset, load: Loader, insertable: Insertable) {
    match input
    case ImageFile(url) => Inserts(load(url), insertable)
    case VideoFile(url) => Inserts(load(url), insertable)
    case Asset(asset) => Inserts(asset, insertable)
    case Merge(assets) =>
      forall k :: 0 <= k < |assets| ==>
        InsertionsAccepted(assets[k], load, insertable) && Inserts(AVAsset(LeafTracks(assets[k], load)), insertable)
    case _ => true
  }

  /** The positions of the video tracks, in increasing order. */
  function VideoTrackIndices(tracks: seq<Track>): seq<nat> {
    if tracks == [] then []
    else
      var n := |tracks| - 1;
      VideoTrackIndices(tracks[..n]) + if tracks[n].mediaType == Video then [n] else []
  }

  /** The durations of the built children of a merge, in order. */
  function ChildDurations(inputs: seq<ExportData>): seq<nat> {
    seq(|inputs|, k requires 0 <= k < |inputs| => inputs[k].composition.Duration())
  }

  /** The track counts of the built children of a merge, in order. */
  function ChildTrackCounts(inputs: seq<ExportData>): seq<nat> {
    seq(|inputs|, k requires 0 <= k < |inputs| => |inputs[k].composition.tracks|)
  }

  // ---------------------------------------------------------------------------
  // mapAssets

  /** On success, `mapAssets` yields one built child per input, in input order. */
  lemma {:induction false} MapAssetsBuildsInOrder(inputs: seq<InputAsset>, load: Loader, insertable: Insertable)
    ensures MapAssets(inputs, load, insertable).Success? ==>
      |MapAssets(inputs, load, insertable).value| == |inputs| &&
      forall k :: 0 <= k < |inputs| ==>
        CreateAsset(inputs[k], load, insertable) == Success(MapAssets(inputs, load, insertable).value[k])
    decreases |inputs|
  {
    if inputs != [] && MapAssets(inputs, load, insertable).Success? {
      MapAssetsBuildsInOrder(inputs[1..], load, insertable);
      var built := MapAssets(inputs, load, insertable).value;
      forall k | 0 <= k < |inputs| ensures CreateAsset(inputs[k], load, insertable) == Success(built[k]) {
        if k > 0 { assert inputs[k] == inputs[1..][k - 1]; }
      }
    }
  }

  /**
   * `mapAssets` fails exactly when some child fails, and then with the error of
   * the first child that fails: every child before it was built.
   */
  lemma {:induction false} MapAssetsFailsFast(inputs: seq<InputAsset>, load: Loader, insertable: Insertable)
    ensures MapAssets(inputs, load, insertable).Failure? <==>
      exists k :: 0 <= k < |inputs| && CreateAsset(inputs[k], load, insertable).Failure?
    ensures MapAssets(inputs, load, insertable).Failure? ==>
      exists k :: 0 <= k < |inputs| &&
        (forall j :: 0 <= j < k ==> CreateAsset(inputs[j], load, insertable).Success?) &&
        CreateAsset(inputs[k], load, insertable) == Failure(MapAssets(inputs, load, insertable).error)
    decreases |inputs|
  {
    if inputs != [] {
      MapAssetsFailsFast(inputs[1..], load, insertable);
      forall k | 0 < k < |inputs| ensures inputs[k] == inputs[1..][k - 1] { }
      if CreateAsset(inputs[0], load, insertable).Success? && MapAssets(inputs[1..], load, insertable).Failure? {
        var k :| 0 <= k < |inputs[1..]| &&
          (forall j :: 0 <= j < k ==> CreateAsset(inputs[1..][j], load, insertable).Success?) &&
          CreateAsset(inputs[1..][k], load, insertable) == Failure(MapAssets(inputs[1..], load, insertable).error);
        assert CreateAsset(inputs[k + 1], load, insertable) == Failure(MapAssets(inputs, load, insertable).error);
        assert forall j :: 0 <= j < k + 1 ==> CreateAsset(inputs[j], load, insertable).Success?;
      }
    }
  }

  // ---------------------------------------------------------------------------
  // Merge

  /** A merge lasts as long as its longest child: all children start at 0. */
  lemma {:induction false} MergeDurationIsLongestChild(inputs: seq<ExportData>)
    ensures MergeData(inputs).composition.Duration() == MaxOf(ChildDurations(inputs))
    decreases |inputs|
  {
    if inputs != [] {
      var n := |inputs| - 1;
      MergeDurationIsLongestChild(inputs[..n]);
      MaxEndConcat(Flatten(inputs[..n]), inputs[n].composition.tracks);
      assert ChildDurations(inputs)[..n] == ChildDurations(inputs[..n]);
    }
  }

  /** A merge holds one track per track of its children, and nothing else. */
  lemma {:induction false} MergeTrackCountIsSum(inputs: seq<ExportData>)
    ensures |MergeData(inputs).composition.tracks| == SumOf(ChildTrackCounts(inputs))
    decreases |inputs|
  {
    if inputs != [] {
      var n := |inputs| - 1;
      MergeTrackCountIsSum(inputs[..n]);
      assert ChildTrackCounts(inputs)[..n] == ChildTrackCounts(inputs[..n]);
    }
  }

  /** A merge lays its children's tracks one run after another, in child order. */
  lemma {:induction false} FlattenConcatenated(inputs: seq<ExportData>)
    ensures Flatten(inputs) == Concatenated(seq(|inputs|, k requires 0 <= k < |inputs| => inputs[k].composition.tracks))
    decreases |inputs|
  {
    if inputs != [] {
      var n := |inputs| - 1;
      FlattenConcatenated(inputs[..n]);
      var runs := seq(|inputs|, k requires 0 <= k < |inputs| => inputs[k].composition.tracks);
      assert runs[..n] == seq(n, k requires 0 <= k < n => inputs[..n][k].composition.tracks);
    }
  }

  /** `VideoTrackIndices` lists, in increasing order, exactly the positions of the video tracks. */
  lemma {:induction false} VideoTrackIndicesExact(tracks: seq<Track>)
    ensures var indices := VideoTrackIndices(tracks);
      (forall k :: 0 <= k < |indices| ==> indices[k] < |tracks|) &&
      (forall k, m :: 0 <= k < m < |indices| ==> indices[k] < indices[m]) &&
      (forall i :: 0 <= i < |tracks| ==> (tracks[i].mediaType == Video <==> i in indices))
    decreases |tracks|
  {
    if tracks != [] {
      var n := |tracks| - 1;
      VideoTrackIndicesExact(tracks[..n]);
      assert forall i :: 0 <= i < n ==> tracks[..n][i] == tracks[i];
    }
  }

  /** The k-th video instruction is the instruction for the k-th video track. */
  lemma {:induction false} VideoInstructionsFollowVideoTracks(tracks: seq<Track>)
    ensures |VideoInstructions(tracks)| == |VideoTrackIndices(tracks)|
    ensures forall k :: 0 <= k < |VideoInstructions(tracks)| ==>
      VideoTrackIndices(tracks)[k] < |tracks| &&
      VideoInstructions(tracks)[k] == InstructionFor(tracks[VideoTrackIndices(tracks)[k]])
    decreases |tracks|
  {
    if tracks != [] {
      var n := |tracks| - 1;
      VideoInstructionsFollowVideoTracks(tracks[..n]);
      assert forall i :: 0 <= i < n ==> tracks[..n][i] == tracks[i];
    }
  }

  /**
   * The instructions of a merge: first the background instruction, with no layer
   * and the background colour, over [0, merged duration); then, for the k-th video
   * track of the merged timeline, an instruction whose one layer is that track,
   * over [0, its duration). Non-video tracks get no instruction, so there are
   * 1 + (number of video tracks) instructions. A merge has no audio mix.
   */
  lemma MergeInstructions(inputs: seq<ExportData>)
    ensures MergeData(inputs).videoComposition.Some?
    ensures var data := MergeData(inputs);
      var tracks := data.composition.tracks;
      var instructions := data.videoComposition.value.instructions;
      var indices := VideoTrackIndices(tracks);
      |instructions| == 1 + |indices| &&
      instructions[0].timeRange == TimeRange(0, data.composition.Duration()) &&
      instructions[0].layerInstructions == [] &&
      instructions[0].backgroundColor == Some(BackgroundColor) &&
      (forall k :: 0 <= k < |indices| ==>
        indices[k] < |tracks| &&
        tracks[indices[k]].mediaType == Video &&
        instructions[k + 1].layerInstructions == [LayerInstruction(tracks[indices[k]])] &&
        instructions[k + 1].timeRange == TimeRange(0, tracks[indices[k]].duration))
    ensures MergeData(inputs).audioMix == None
  {
    var tracks := Flatten(inputs);
    var instructions := [BackgroundInstruction(MaxEnd(tracks))] + VideoInstructions(tracks);
    assert MergeData(inputs).videoComposition.value.instructions == instructions;
    var indices := VideoTrackIndices(tracks);
    VideoInstructionsFollowVideoTracks(tracks);
    VideoTrackIndicesExact(tracks);
    forall k | 0 <= k < |indices|
      ensures indices[k] < |tracks| && tracks[indices[k]].mediaType == Video
      ensures instructions[k + 1] == InstructionFor(tracks[indices[k]])
    {
      assert indices[k] in indices;
      assert instructions[k + 1] == VideoInstructions(tracks)[k];
    }
  }

  // ---------------------------------------------------------------------------
  // createAsset

  /** Image files and video files take one path: the file is loaded and built as an asset leaf. */
  lemma FileLeavesShareOnePath(url: Url, load: Loader, insertable: Insertable)
    ensures CreateAsset(ImageFile(url), load, insertable) == CreateAsset(VideoFile(url), load, insertable)
    ensures CreateAsset(VideoFile(url), load, insertable) == CreateAsset(Asset(load(url)), load, insertable)
  {
  }

  /**
   * An asset leaf is built exactly when it has no tracks, whatever the library
   * does, or the library accepts its insertion; otherwise it fails with
   * `InsertionFailed`. When built, its timeline has one track per source track,
   * of the same media type, in source order, at the source's times, so of the
   * source's duration, and 0 without tracks. A leaf has no video composition and
   * no audio mix.
   */
  lemma LeafCopiesTracks(asset: AVAsset, load: Loader, insertable: Insertable)
    ensures CreateAsset(Asset(asset), load, insertable).Success? <==> asset.tracks == [] || insertable(asset)
    ensures CreateAsset(Asset(asset), load, insertable).Failure? ==>
      CreateAsset(Asset(asset), load, insertable).error == InsertionFailed
    ensures CreateAsset(Asset(asset), load, insertable).Success? ==>
      var data := CreateAsset(Asset(asset), load, insertable).value;
      data.composition.tracks == asset.tracks &&
      data.composition.Duration() == asset.Duration() &&
      (asset.tracks == [] ==> data.composition.Duration() == 0) &&
      data.videoComposition == None && data.audioMix == None
  {
  }

  /** A built tree holds its leaves' tracks, depth first and left to right, each exactly once. */
  lemma {:induction false} CreateAssetTracks(input: InputAsset, load: Loader, insertable: Insertable)
    ensures CreateAsset(input, load, insertable).Success? ==>
      CreateAsset(input, load, insertable).value.composition.tracks == LeafTracks(input, load)
    decreases input
  {
    match input {
      case Merge(assets) =>
        if CreateAsset(input, load, insertable).Success? {
          var built := MapAssets(assets, load, insertable).value;
          MapAssetsBuildsInOrder(assets, load, insertable);
          forall k | 0 <= k < |assets| ensures built[k].composition.tracks == LeafTracks(assets[k], load) {
            CreateAssetTracks(assets[k], load, insertable);
          }
          assert seq(|built|, k requires 0 <= k < |built| => built[k].composition.tracks) ==
                 seq(|assets|, k requires 0 <= k < |assets| => LeafTracks(assets[k], load));
          FlattenConcatenated(built);
        }
      case _ =>
    }
  }

  /**
   * A tree is built exactly when it is supported and the library accepts every
   * insertion the build performs. An in-memory image never is; a concatenation
   * never is either.
   */
  lemma {:induction false} CreateAssetSucceedsIff(input: InputAsset, load: Loader, insertable: Insertable)
    ensures CreateAsset(input, load, insertable).Success? <==>
      Supported(input) && InsertionsAccepted(input, load, insertable)
    decreases input
  {
    match input {
      case Merge(assets) =>
        forall k | 0 <= k < |assets|
          ensures CreateAsset(assets[k], load, insertable).Success? <==>
            Supported(assets[k]) && InsertionsAccepted(assets[k], load, insertable)
          ensures CreateAsset(assets[k], load, insertable).Success? ==>
            CreateAsset(assets[k], load, insertable).value.composition == AVAsset(LeafTracks(assets[k], load))
        {
          CreateAssetSucceedsIff(assets[k], load, insertable);
          CreateAssetTracks(assets[k], load, insertable);
        }
        MapAssetsFailsFast(assets, load, insertable);
        MapAssetsBuildsInOrder(assets, load, insertable);
      case _ =>
    }
  }

  /** A supported tree that fails to build fails only because the library refused an insertion. */
  lemma {:induction false} SupportedTreesFailOnlyOnInsertion(input: InputAsset, load: Loader, insertable: Insertable)
    ensures Supported(input) && CreateAsset(input, load, insertable).Failure? ==>
      CreateAsset(input, load, insertable).error == InsertionFailed
    decreases input
  {
    match input {
      case Merge(assets) =>
        forall k | 0 <= k < |assets|
          ensures Supported(assets[k]) && CreateAsset(assets[k], load, insertable).Failure? ==>
            CreateAsset(assets[k], load, insertable).error == InsertionFailed
        {
          SupportedTreesFailOnlyOnInsertion(assets[k], load, insertable);
        }
        MapAssetsFailsFast(assets, load, insertable);
      case _ =>
    }
  }

  /** Concatenated runs are all empty when their concatenation is. */
  lemma {:induction false} ConcatenatedEmpty(runs: seq<seq<Track>>)
    ensures Concatenated(runs) == [] ==> forall k :: 0 <= k < |runs| ==> runs[k] == []
    decreases |runs|
  {
    if runs != [] {
      var n := |runs| - 1;
      ConcatenatedEmpty(runs[..n]);
      assert forall k :: 0 <= k < n ==> runs[..n][k] == runs[k];
    }
  }

  /**
   * A supported tree whose leaves hold no tracks at all is always built, however
   * the library treats insertions: no insertion is attempted.
   */
  lemma {:induction false} TracklessTreesAlwaysBuild(input: InputAsset, load: Loader, insertable: Insertable)
    ensures Supported(input) && LeafTracks(input, load) == [] ==> CreateAsset(input, load, insertable).Success?
    decreases input
  {
    CreateAssetSucceedsIff(input, load, insertable);
    match input {
      case Merge(assets) =>
        var runs := seq(|assets|, k requires 0 <= k < |assets| => LeafTracks(assets[k], load));
        ConcatenatedEmpty(runs);
        forall k | 0 <= k < |assets|
          ensures Supported(assets[k]) && LeafTracks(assets[k], load) == [] ==>
            CreateAsset(assets[k], load, insertable).Success?
        {
          TracklessTreesAlwaysBuild(assets[k], load, insertable);
          CreateAssetSucceedsIff(assets[k], load, insertable);
        }
        if Supported(input) && LeafTracks(input, load) == [] {
          forall k | 0 <= k < |assets|
            ensures InsertionsAccepted(assets[k], load, insertable) && Inserts(AVAsset(LeafTracks(assets[k], load)), insertable)
          {
            assert runs[k] == [];
            CreateAssetSucceedsIff(assets[k], load, insertable);
          }
        }
      case _ =>
    }
  }

  /**
   * An in-memory image fails as such. A concatenation always fails; when all its
   * children can be built, it fails as a concatenation.
   */
  lemma UnsupportedKindsFail(image: CGImage, assets: seq<InputAsset>, load: Loader, insertable: Insertable)
    ensures CreateAsset(Image(image), load, insertable) == Failure(NotImplemented(InMemoryImage))
    ensures CreateAsset(Concat(assets), load, insertable).Failure?
    ensures (forall k :: 0 <= k < |assets| ==> Supported(assets[k]) && InsertionsAccepted(assets[k], load, insertable)) ==>
      CreateAsset(Concat(assets), load, insertable) == Failure(NotImplemented(Concatenation))
  {
    if forall k :: 0 <= k < |assets| ==> Supported(assets[k]) && InsertionsAccepted(assets[k], load, insertable) {
      forall k | 0 <= k < |assets| ensures CreateAsset(assets[k], load, insertable).Success? {
        CreateAssetSucceedsIff(assets[k], load, insertable);
      }
      MapAssetsFailsFast(assets, load, insertable);
    }
  }

  /** A built tree lasts as long as its `Extent`: a merge of merges as long as its longest leaf. */
  lemma {:induction false} CreateAssetDuration(input: InputAsset, load: Loader, insertable: Insertable)
    ensures CreateAsset(input, load, insertable).Success? ==>
      CreateAsset(input, load, insertable).value.composition.Duration() == Extent(input, load)
    decreases input
  {
    match input {
      case Merge(assets) =>
        if CreateAsset(input, load, insertable).Success? {
          var built := MapAssets(assets, load, insertable).value;
          MapAssetsBuildsInOrder(assets, load, insertable);
          forall k | 0 <= k < |assets| ensures built[k].composition.Duration() == Extent(assets[k], load) {
            CreateAssetDuration(assets[k], load, insertable);
          }
          assert ChildDurations(built) == seq(|assets|, k requires 0 <= k < |assets| => Extent(assets[k], load));
          MergeDurationIsLongestChild(built);
        }
      case _ =>
    }
  }

  /** The children of the merge below are built as leaves, in order. */
  lemma MergeImageAndVideoChildren(imageUrl: Url, videoUrl: Url, load: Loader, insertable: Insertable)
    requires insertable(load(imageUrl)) && insertable(load(videoUrl))
    ensures var built := MapAssets([ImageFile(imageUrl), VideoFile(videoUrl)], load, insertable);
      built.Success? && built.value == [LeafData(load(imageUrl)), LeafData(load(videoUrl))]
  {
    var assets := [ImageFile(imageUrl), VideoFile(videoUrl)];
    var tail := [VideoFile(videoUrl)];
    assert assets[1..] == tail && tail[1..] == [];
    assert MapAssets(tail[1..], load, insertable) == Success([]);
    assert MapAssets(tail, load, insertable).Success? &&
      MapAssets(tail, load, insertable).value == [LeafData(load(videoUrl))];
  }

  /** The timeline of the merge below lasts 10 ticks. */
  lemma MergeImageAndVideoDuration(tracks: seq<Track>)
    requires tracks == [Track(Video, 0, 3), Track(Video, 0, 10), Track(Audio, 0, 10)]
    ensures MaxEnd(tracks) == 10
  {
    var ends := Ends(tracks);
    assert ends == [3, 10, 10];
    assert ends[..2] == [3, 10];
    assert ends[..2][..1] == [3];
    assert ends[..2][..1][..0] == [];
    assert MaxOf(ends[..2][..1]) == 3;
    assert MaxOf(ends[..2]) == 10;
  }

  /** The timeline of the merge below has a video instruction for each of its two video tracks. */
  lemma MergeImageAndVideoInstructions(tracks: seq<Track>)
    requires tracks == [Track(Video, 0, 3), Track(Video, 0, 10), Track(Audio, 0, 10)]
    ensures VideoInstructions(tracks) == [
      Instruction(TimeRange(0, 3), [LayerInstruction(Track(Video, 0, 3))], None),
      Instruction(TimeRange(0, 10), [LayerInstruction(Track(Video, 0, 10))], None)]
  {
    assert tracks[..2] == [Track(Video, 0, 3), Track(Video, 0, 10)];
    assert tracks[..2][..1] == [Track(Video, 0, 3)];
    assert tracks[..2][..1][..0] == [];
    assert VideoInstructions(tracks[..2][..1]) == [InstructionFor(tracks[0])];
    assert VideoInstructions(tracks[..2]) == [InstructionFor(tracks[0]), InstructionFor(tracks[1])];
  }

  /** The merge of two built children lays the first's tracks, then the second's. */
  lemma FlattenTwo(first: ExportData, second: ExportData)
    ensures Flatten([first, second]) == first.composition.tracks + second.composition.tracks
  {
    var built := [first, second];
    assert built[..1] == [first];
    assert built[..1][..0] == [];
    assert Flatten(built[..1]) == first.composition.tracks;
  }

  /**
   * The merge of an image file of 3 ticks with one video track and a video file
   * of 10 ticks with a video and an audio track: 3 tracks, 10 ticks long, a
   * background instruction over [0, 10), then layers over [0, 3) and [0, 10),
   * when the library accepts the insertions of both files and of the merge.
   */
  lemma MergeImageAndVideo(imageUrl: Url, videoUrl: Url, load: Loader, insertable: Insertable)
    requires load(imageUrl) == AVAsset([Track(Video, 0, 3)])
    requires load(videoUrl) == AVAsset([Track(Video, 0, 10), Track(Audio, 0, 10)])
    requires insertable(load(imageUrl)) && insertable(load(videoUrl))
    ensures CreateAsset(Merge([ImageFile(imageUrl), VideoFile(videoUrl)]), load, insertable) ==
      Success(ExportData(
        AVAsset([Track(Video, 0, 3), Track(Video, 0, 10), Track(Audio, 0, 10)]),
        Some(VideoComposition([
          Instruction(TimeRange(0, 10), [], Some(BackgroundColor)),
          Instruction(TimeRange(0, 3), [LayerInstruction(Track(Video, 0, 3))], None),
          Instruction(TimeRange(0, 10), [LayerInstruction(Track(Video, 0, 10))], None)])),
        None))
  {
    MergeImageAndVideoChildren(imageUrl, videoUrl, load, insertable);
    FlattenTwo(LeafData(load(imageUrl)), LeafData(load(videoUrl)));
    var tracks := load(imageUrl).tracks + load(videoUrl).tracks;
    MergeImageAndVideoDuration(tracks);
    MergeImageAndVideoInstructions(tracks);
    var built := [LeafData(load(imageUrl)), LeafData(load(videoUrl))];
    assert forall k :: 0 <= k < |built| ==> Inserts(built[k].composition, insertable);
    assert CreateAsset(Merge([ImageFile(imageUrl), VideoFile(videoUrl)]), load, insertable) == Success(MergeData(built));
    assert [BackgroundInstruction(10)] + VideoInstructions(tracks) == [
      Instruction(TimeRange(0, 10), [], Some(BackgroundColor)),
      Instruction(TimeRange(0, 3), [LayerInstruction(Track(Video, 0, 3))], None),
      Instruction(TimeRange(0, 10), [LayerInstruction(Track(Video, 0, 10))], None)];
  }

  // ---------------------------------------------------------------------------
  // compose

  /**
   * `compose` succeeds exactly when the tree is supported, the library accepts
   * every insertion, and the export session completes.
   */
  lemma ComposeSucceedsIff(input: InputAsset, exportUrl: Url, load: Loader, insertable: Insertable,
                           session: (ExportData, Url) -> ExportOutcome)
    ensures Compose(input, exportUrl, load, insertable, session).Success? <==>
      Supported(input) && InsertionsAccepted(input, load, insertable) &&
      CreateAsset(input, load, insertable).Success? &&
      session(CreateAsset(input, load, insertable).value, exportUrl).Ended? &&
      session(CreateAsset(input, load, insertable).value, exportUrl).status == Completed
  {
    CreateAssetSucceedsIff(input, load, insertable);
  }

  /**
   * A tree that cannot be built is reported as a build failure, and no export
   * session is consulted: any two sessions give the same outcome. A supported
   * tree fails only on a refused insertion; when the library accepts every
   * insertion, the failure is `NotImplemented`.
   */
  lemma ComposeStopsAtBuildFailure(input: InputAsset, exportUrl: Url, load: Loader, insertable: Insertable,
                                   session: (ExportData, Url) -> ExportOutcome,
                                   otherSession: (ExportData, Url) -> ExportOutcome)
    requires !(Supported(input) && InsertionsAccepted(input, load, insertable))
    ensures Compose(input, exportUrl, load, insertable, session).Failure?
    ensures Compose(input, exportUrl, load, insertable, session).error.BuildFailed?
    ensures Supported(input) ==> Compose(input, exportUrl, load, insertable, session).error.buildError == InsertionFailed
    ensures (forall asset :: insertable(asset)) ==>
      Compose(input, exportUrl, load, insertable, session).error.buildError.NotImplemented?
    ensures Compose(input, exportUrl, load, insertable, session) ==
            Compose(input, exportUrl, load, insertable, otherSession)
  {
    CreateAssetSucceedsIff(input, load, insertable);
    SupportedTreesFailOnlyOnInsertion(input, load, insertable);
  }

  /** Once built, the export session's final status decides the error `compose` throws. */
  lemma ComposeReportsExportStatus(input: InputAsset, exportUrl: Url, load: Loader, insertable: Insertable,
                                   session: (ExportData, Url) -> ExportOutcome)
    requires Supported(input) && InsertionsAccepted(input, load, insertable)
    ensures CreateAsset(input, load, insertable).Success?
    ensures var outcome := session(CreateAsset(input, load, insertable).value, exportUrl);
      Compose(input, exportUrl, load, insertable, session) ==
        match outcome
        case NoSession => Failure(ExportFailed(CreateExportSessionFailed))
        case Ended(Completed, _) => Success(())
        case Ended(Failed, error) => Failure(ExportFailed(ExportSessionFailed(error)))
        case Ended(Cancelled, _) => Failure(ExportFailed(ExportCanceled))
        case Ended(status, _) => Failure(ExportFailed(ExportIllegalStatus(status)))
  {
    CreateAssetSucceedsIff(input, load, insertable);
  }
}
