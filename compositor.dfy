/**
 * The composition builder of `VideoCompositor`: it turns a tree of input assets
 * into the data an export session needs — a timeline, an optional video
 * composition and an optional audio mix — and maps the export session's final
 * status to success or an error.
 *
 * `CreateAsset` and `MapAssets` are the recursive dispatch, as functions.
 * `CreateComposition` and `CreateMergeAsset` build an `AVMutableComposition`
 * step by step and are proved to produce `LeafData` and `MergeData`, which the
 * dispatch uses. The in-memory image leaf and concatenation abort in the
 * original program; here they return `NotImplemented`.
 */
module VideoCompositor {
  import opened Wrappers
  import opened AVFoundation

  type Url = string

  /** `CGImage`: an in-memory image, kept opaque. */
  datatype CGImage = CGImage(identity: nat)

  /** `InputAsset`: the expression tree a client asks to compose. */
  datatype InputAsset =
    | ImageFile(url: Url)
    | VideoFile(url: Url)
    | Image(image: CGImage)
    | Asset(asset: AVAsset)
    | Merge(assets: seq<InputAsset>)
    | Concat(assets: seq<InputAsset>)

  /** `AVAsset(url:)`: what the media engine loads from a file. It never fails; an unreadable file gives an asset without tracks. */
  type Loader = Url -> AVAsset

  /** `ExportData`: the built timeline, its video composition and its audio mix. */
  datatype ExportData = ExportData(composition: AVAsset, videoComposition: Option<VideoComposition>, audioMix: Option<AudioMix>)

  /** The kinds of input the builder cannot handle yet. */
  datatype Unsupported = InMemoryImage | Concatenation

  /** Why a build fails: an unsupported input, or a failed `insertTimeRange`. */
  datatype BuildError = NotImplemented(kind: Unsupported) | InsertionFailed

  /** The error the export session reported, kept opaque. */
  datatype SessionError = SessionError(domain: string, code: int)

  /** `VideoCompositor.Errors`. */
  datatype Errors =
    | CreateExportSessionFailed
    | ExportSessionFailed(cause: Option<SessionError>)
    | ExportCanceled
    | ExportIllegalStatus(status: ExportStatus)

  /** The background colour of a merge: orange at half opacity. */
  const BackgroundColor: Color := Rgba(1.0, 0.5, 0.0, 0.5)

  // ---------------------------------------------------------------------------
  // Leaves

  /** What a leaf build yields: a timeline holding a copy of every track of the asset, and no instructions. */
  function LeafData(asset: AVAsset): ExportData {
    ExportData(asset, None, None)
  }

  /**
   * Whether the insertion of a built source succeeds: a source without tracks is
   * never inserted, so it cannot fail; any other needs the library's acceptance.
   */
  predicate Inserts(asset: AVAsset, insertable: Insertable) {
    asset.tracks == [] || insertable(asset)
  }

  /** The outcome of a leaf build: `LeafData`, unless the library refuses the insertion. */
  function BuildLeaf(asset: AVAsset, insertable: Insertable): Result<ExportData, BuildError> {
    if Inserts(asset, insertable) then Success(LeafData(asset)) else Failure(InsertionFailed)
  }

  /** `createComposition(asset:)`. */
  method CreateComposition(asset: AVAsset, insertable: Insertable) returns (r: Result<ExportData, BuildError>)
    ensures r == BuildLeaf(asset, insertable)
  {
    var composition := new AVMutableComposition();
    var k := 0;
    while k < |asset.tracks|
      invariant 0 <= k <= |asset.tracks|
      invariant composition.tracks == EmptyTracksFor(asset.tracks[..k])
    {
      var _ := composition.AddMutableTrack(asset.tracks[k].mediaType);
      k := k + 1;
    }
    assert asset.tracks[..k] == asset.tracks;
    if |asset.tracks| > 0 {
      assert CanInsert(composition.tracks, asset.tracks);
      var inserted := composition.InsertTimeRange(asset, 0, insertable);
      if !inserted {
        return Failure(InsertionFailed);
      }
      ShiftedTracks(asset.tracks, 0);
    }
    assert composition.tracks == asset.tracks;
    r := Success(ExportData(AVAsset(composition.tracks), None, None));
  }

  /** `createUrlAsset(url:)`: loads the file and builds it as a leaf. */
  method CreateUrlAsset(url: Url, load: Loader, insertable: Insertable) returns (r: Result<ExportData, BuildError>)
    ensures r == BuildLeaf(load(url), insertable)
  {
    r := CreateComposition(load(url), insertable);
  }

  // ---------------------------------------------------------------------------
  // Merge

  /** The tracks of all the built children, child after child, each child's in its own order. */
  function Flatten(inputs: seq<ExportData>): seq<Track> {
    if inputs == [] then []
    else Flatten(inputs[..|inputs| - 1]) + inputs[|inputs| - 1].composition.tracks
  }

  /** The instruction a merge emits for one video track: that track as its only layer, over [0, track duration). */
  function InstructionFor(track: Track): Instruction {
    Instruction(TimeRange(0, track.duration), [LayerInstruction(track)], None)
  }

  /** The background instruction of a merge: no layers, the background colour, over [0, duration). */
  function BackgroundInstruction(duration: nat): Instruction {
    Instruction(TimeRange(0, duration), [], Some(BackgroundColor))
  }

  /** One instruction per video track, in track order; other tracks get none. */
  function VideoInstructions(tracks: seq<Track>): seq<Instruction> {
    if tracks == [] then []
    else
      var last := tracks[|tracks| - 1];
      VideoInstructions(tracks[..|tracks| - 1]) + if last.mediaType == Video then [InstructionFor(last)] else []
  }

  lemma VideoInstructionsSnoc(tracks: seq<Track>, track: Track)
    ensures VideoInstructions(tracks + [track]) ==
      VideoInstructions(tracks) + if track.mediaType == Video then [InstructionFor(track)] else []
  {
  }

  /** The video instructions of two runs of tracks, one after the other, are those of each run in turn. */
  lemma {:induction false} VideoInstructionsConcat(a: seq<Track>, b: seq<Track>)
    ensures VideoInstructions(a + b) == VideoInstructions(a) + VideoInstructions(b)
    decreases |b|
  {
    if b == [] {
      assert a + b == a;
    } else {
      var init := b[..|b| - 1];
      assert (a + b)[..|a + b| - 1] == a + init;
      VideoInstructionsConcat(a, init);
    }
  }

  /** One more source track handled by the loop of a merge. */
  lemma PrefixStep(tracks: seq<Track>, k: nat)
    requires k < |tracks|
    ensures EmptyTracksFor(tracks[..k + 1]) == EmptyTracksFor(tracks[..k]) + [EmptyTrack(tracks[k].mediaType)]
    ensures VideoInstructions(tracks[..k + 1]) ==
      VideoInstructions(tracks[..k]) + if tracks[k].mediaType == Video then [InstructionFor(tracks[k])] else []
  {
    assert tracks[..k + 1] == tracks[..k] + [tracks[k]];
    VideoInstructionsSnoc(tracks[..k], tracks[k]);
  }

  /** What a merge yields: all children's tracks on one timeline, the background instruction, then the video instructions. */
  function MergeData(inputs: seq<ExportData>): ExportData {
    var tracks := Flatten(inputs);
    ExportData(
      AVAsset(tracks),
      Some(VideoComposition([BackgroundInstruction(MaxEnd(tracks))] + VideoInstructions(tracks))),
      None)
  }

  /** The outcome of a merge build: `MergeData`, unless the library refuses to insert some child. */
  function BuildMerge(inputs: seq<ExportData>, insertable: Insertable): Result<ExportData, BuildError> {
    if forall k :: 0 <= k < |inputs| ==> Inserts(inputs[k].composition, insertable)
    then Success(MergeData(inputs))
    else Failure(InsertionFailed)
  }

  /**
   * One pass of the loop of `createMergeAsset`: adds an empty track per track of
   * the child, appends an instruction per video track, then inserts the child's
   * media at offset 0 unless it has no tracks.
   */
  method MergeChild(composition: AVMutableComposition, videoInstructions: seq<Instruction>, asset: AVAsset,
                    insertable: Insertable)
    returns (instructions: seq<Instruction>, ok: bool)
    modifies composition
    ensures ok == Inserts(asset, insertable)
    ensures instructions == videoInstructions + VideoInstructions(asset.tracks)
    ensures ok ==> composition.tracks == old(composition.tracks) + asset.tracks
    ensures !ok ==> composition.tracks == old(composition.tracks) + EmptyTracksFor(asset.tracks)
  {
    ghost var done := composition.tracks;
    instructions := videoInstructions;
    var k := 0;
    while k < |asset.tracks|
      invariant 0 <= k <= |asset.tracks|
      invariant composition.tracks == done + EmptyTracksFor(asset.tracks[..k])
      invariant instructions == videoInstructions + VideoInstructions(asset.tracks[..k])
    {
      var track := asset.tracks[k];
      var _ := composition.AddMutableTrack(track.mediaType);
      if track.mediaType == Video {
        instructions := instructions + [InstructionFor(track)];
      }
      PrefixStep(asset.tracks, k);
      k := k + 1;
    }
    assert asset.tracks[..k] == asset.tracks;
    ok := true;
    if |asset.tracks| > 0 {
      assert CanInsert(composition.tracks, asset.tracks);
      ok := composition.InsertTimeRange(asset, 0, insertable);
      if !ok {
        return;
      }
      ShiftedTracks(asset.tracks, 0);
    }
  }

  /** `createMergeAsset(inputs:)`. */
  method CreateMergeAsset(inputs: seq<ExportData>, insertable: Insertable) returns (r: Result<ExportData, BuildError>)
    ensures r == BuildMerge(inputs, insertable)
  {
    var composition := new AVMutableComposition();
    var videoInstructions: seq<Instruction> := [];
    // The range of the background instruction is set once every child is in.
    var backgroundInstruction := BackgroundInstruction(0);
    videoInstructions := videoInstructions + [backgroundInstruction];
    var i := 0;
    while i < |inputs|
      invariant 0 <= i <= |inputs|
      invariant composition.tracks == Flatten(inputs[..i])
      invariant videoInstructions == [backgroundInstruction] + VideoInstructions(Flatten(inputs[..i]))
      invariant forall j :: 0 <= j < i ==> Inserts(inputs[j].composition, insertable)
    {
      var ok;
      videoInstructions, ok := MergeChild(composition, videoInstructions, inputs[i].composition, insertable);
      if !ok {
        return Failure(InsertionFailed);
      }
      VideoInstructionsConcat(Flatten(inputs[..i]), inputs[i].composition.tracks);
      assert inputs[..i + 1][..i] == inputs[..i];
      i := i + 1;
    }
    assert inputs[..i] == inputs;
    ghost var background := BackgroundInstruction(MaxEnd(Flatten(inputs)));
    videoInstructions := videoInstructions[0 := backgroundInstruction.(timeRange := TimeRange(0, composition.Duration()))];
    assert videoInstructions == [background] + VideoInstructions(Flatten(inputs));
    r := Success(ExportData(AVAsset(composition.tracks), Some(VideoComposition(videoInstructions)), None));
  }

  // ---------------------------------------------------------------------------
  // Dispatch

  /** `createConcatAsset(assets:)`: has no implementation; the original aborts. */
  function CreateConcatAsset(assets: seq<ExportData>): (r: Result<ExportData, BuildError>)
    ensures r.Failure? && r.error == NotImplemented(Concatenation)
  {
    Failure(NotImplemented(Concatenation))
  }

  /**
   * `createAsset(input:)`: file leaves are loaded and built as leaves, an asset is
   * built as a leaf directly, merges and concatenations build their children first.
   */
  function CreateAsset(input: InputAsset, load: Loader, insertable: Insertable): (r: Result<ExportData, BuildError>)
    ensures (forall asset :: insertable(asset)) && r.Failure? ==> r.error.NotImplemented?
    decreases input
  {
    match input
    case ImageFile(url) => BuildLeaf(load(url), insertable)
    case VideoFile(url) => BuildLeaf(load(url), insertable)
    case Image(_) => Failure(NotImplemented(InMemoryImage))
    case Asset(asset) => BuildLeaf(asset, insertable)
    case Merge(assets) =>
      (match MapAssets(assets, load, insertable)
       case Failure(e) => Failure(e)
       case Success(built) => BuildMerge(built, insertable))
    case Concat(assets) =>
      (match MapAssets(assets, load, insertable)
       case Failure(e) => Failure(e)
       case Success(built) => CreateConcatAsset(built))
  }

  /** `mapAssets(inputs:)`: builds the children in order and stops at the first failure. */
  function MapAssets(inputs: seq<InputAsset>, load: Loader, insertable: Insertable): (r: Result<seq<ExportData>, BuildError>)
    ensures (forall asset :: insertable(asset)) && r.Failure? ==> r.error.NotImplemented?
    ensures r.Success? ==> |r.value| == |inputs|
    decreases inputs
  {
    if inputs == [] then Success([])
    else
      match CreateAsset(inputs[0], load, insertable)
      case Failure(e) => Failure(e)
      case Success(first) =>
        (match MapAssets(inputs[1..], load, insertable)
         case Failure(e) => Failure(e)
         case Success(rest) => Success([first] + rest))
  }

  // ---------------------------------------------------------------------------
  // Export

  /** The `switch` over the export session's final status in `compose`. */
  function ExportResult(status: ExportStatus, error: Option<SessionError>): (r: Result<(), Errors>)
    ensures r.Success? <==> status == Completed
    ensures r == Failure(ExportSessionFailed(error)) <==> status == Failed
    ensures r == Failure(ExportCanceled) <==> status == Cancelled
    ensures r == Failure(ExportIllegalStatus(status)) <==> !(status == Completed || status == Failed || status == Cancelled)
    ensures r != Failure(CreateExportSessionFailed)
  {
    match status
    case Completed => Success(())
    case Failed => Failure(ExportSessionFailed(error))
    case Cancelled => Failure(ExportCanceled)
    case _ => Failure(ExportIllegalStatus(status))
  }

  /** How the export session ends: it could not be created, or it ran to a final status, maybe with an error. */
  datatype ExportOutcome = NoSession | Ended(status: ExportStatus, error: Option<SessionError>)

  /** Why `compose` throws: the build failed, or the export did. */
  datatype ComposeError = BuildFailed(buildError: BuildError) | ExportFailed(exportError: Errors)

  /**
   * `compose(input:exportUrl:)`: builds the export data, then hands it to an
   * export session writing to `exportUrl`; what the session reports is the
   * parameter `session`.
   */
  function Compose(input: InputAsset, exportUrl: Url, load: Loader, insertable: Insertable,
                   session: (ExportData, Url) -> ExportOutcome): (r: Result<(), ComposeError>)
    ensures CreateAsset(input, load, insertable).Failure? ==>
      r == Failure(BuildFailed(CreateAsset(input, load, insertable).error))
    ensures CreateAsset(input, load, insertable).Success? ==>
      var outcome := session(CreateAsset(input, load, insertable).value, exportUrl);
      (outcome.NoSession? ==> r == Failure(ExportFailed(CreateExportSessionFailed))) &&
      (outcome.Ended? ==> r == match ExportResult(outcome.status, outcome.error)
                               case Success(_) => Success(())
                               case Failure(e) => Failure(ExportFailed(e)))
    ensures r.Success? <==>
      CreateAsset(input, load, insertable).Success? &&
      session(CreateAsset(input, load, insertable).value, exportUrl).Ended? &&
      session(CreateAsset(input, load, insertable).value, exportUrl).status == Completed
  {
    match CreateAsset(input, load, insertable)
    case Failure(e) => Failure(BuildFailed(e))
    case Success(data) =>
      match session(data, exportUrl)
      case NoSession => Failure(ExportFailed(CreateExportSessionFailed))
      case Ended(status, error) =>
        (match ExportResult(status, error)
         case Success(_) => Success(())
         case Failure(e) => Failure(ExportFailed(e)))
  }
}
