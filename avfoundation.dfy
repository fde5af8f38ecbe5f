/**
 * An abstract model of the AVFoundation objects the compositor reads and builds.
 *
 * A timed asset is an ordered sequence of track records (media type, start,
 * duration); its duration is the latest end time among its tracks. Times are
 * `CMTime` values, modelled as whole ticks of one common timescale.
 * `AVMutableComposition` is a class over such a sequence with the two
 * operations the compositor calls: adding an empty track and inserting the
 * media of another asset at an offset.
 */
module AVFoundation {
  import opened Wrappers

  /**
   * `AVMediaType`. `Video` and `Audio` are the only spellings of those two types:
   * `OtherMedia` carries the identifier of any other type, never "vide" or "soun".
   */
  datatype MediaType = Video | Audio | OtherMedia(identifier: string)

  /** A track of an asset and the time range [start, start + duration) it occupies. */
  datatype Track = Track(mediaType: MediaType, start: nat, duration: nat) {
    function End(): nat { start + duration }
  }

  /** The largest element of a sequence of times, 0 for none. */
  function MaxOf(s: seq<nat>): (m: nat)
    ensures forall k :: 0 <= k < |s| ==> s[k] <= m
    ensures s == [] ==> m == 0
    ensures s != [] ==> exists k :: 0 <= k < |s| && s[k] == m
  {
    if s == [] then 0
    else
      var m0 := MaxOf(s[..|s| - 1]);
      if m0 < s[|s| - 1] then s[|s| - 1] else m0
  }

  /** The end times of the tracks, in order. */
  function Ends(tracks: seq<Track>): (ends: seq<nat>)
    ensures |ends| == |tracks|
    ensures forall k :: 0 <= k < |tracks| ==> ends[k] == tracks[k].End()
  {
    seq(|tracks|, k requires 0 <= k < |tracks| => tracks[k].End())
  }

  /** The duration of a timeline: the latest end time of its tracks. */
  function MaxEnd(tracks: seq<Track>): nat {
    MaxOf(Ends(tracks))
  }

  lemma MaxOfConcat(a: seq<nat>, b: seq<nat>)
    ensures MaxOf(a + b) == if MaxOf(a) < MaxOf(b) then MaxOf(b) else MaxOf(a)
  {
    var m := MaxOf(a + b);
    forall k | 0 <= k < |a| ensures a[k] <= m { assert (a + b)[k] == a[k]; }
    forall k | 0 <= k < |b| ensures b[k] <= m { assert (a + b)[|a| + k] == b[k]; }
    if a + b != [] {
      var k :| 0 <= k < |a + b| && (a + b)[k] == m;
      if k < |a| { assert a[k] == m; } else { assert b[k - |a|] == m; }
    }
  }

  /** Placing two sets of tracks on one timeline ends it at the later of their ends. */
  lemma MaxEndConcat(a: seq<Track>, b: seq<Track>)
    ensures MaxEnd(a + b) == if MaxEnd(a) < MaxEnd(b) then MaxEnd(b) else MaxEnd(a)
  {
    assert Ends(a + b) == Ends(a) + Ends(b);
    MaxOfConcat(Ends(a), Ends(b));
  }

  /** A timed asset (`AVAsset`; an `AVComposition` once built): its tracks, in order. */
  datatype AVAsset = AVAsset(tracks: seq<Track>) {
    /** `AVAsset.duration`. */
    function Duration(): nat { MaxEnd(tracks) }
  }

  /** The tracks of an asset moved `offset` later on the time axis. */
  function Shifted(tracks: seq<Track>, offset: nat): seq<Track> {
    seq(|tracks|, k requires 0 <= k < |tracks| => tracks[k].(start := tracks[k].start + offset))
  }

  /** Inserting an asset at an offset keeps its tracks' media types and order and ends
      `offset` after the asset does; at offset 0 it reproduces the asset's tracks exactly. */
  lemma ShiftedTracks(tracks: seq<Track>, offset: nat)
    ensures |Shifted(tracks, offset)| == |tracks|
    ensures forall k :: 0 <= k < |tracks| ==>
      Shifted(tracks, offset)[k].mediaType == tracks[k].mediaType &&
      Shifted(tracks, offset)[k].duration == tracks[k].duration
    ensures MaxEnd(Shifted(tracks, offset)) == if tracks == [] then 0 else MaxEnd(tracks) + offset
    ensures offset == 0 ==> Shifted(tracks, offset) == tracks
  {
  }

  /**
   * Whether the library's `insertTimeRange` accepts inserting an asset, or throws.
   * The library decides this; the model takes the decision as a parameter.
   */
  type Insertable = AVAsset -> bool

  /** The empty track `addMutableTrack` creates: the media type, and no media yet. */
  function EmptyTrack(mediaType: MediaType): Track {
    Track(mediaType, 0, 0)
  }

  /** One empty track per given track, with the same media types in the same order. */
  function EmptyTracksFor(tracks: seq<Track>): seq<Track> {
    seq(|tracks|, k requires 0 <= k < |tracks| => EmptyTrack(tracks[k].mediaType))
  }

  /**
   * Whether `source` can be inserted into a timeline holding `tracks`: the source
   * has media, and the last |source| tracks of the timeline, which receive it, have
   * the source's media types in order.
   */
  predicate CanInsert(tracks: seq<Track>, source: seq<Track>) {
    0 < |source| <= |tracks| &&
    forall k :: 0 <= k < |source| ==> tracks[|tracks| - |source| + k].mediaType == source[k].mediaType
  }

  /** `AVMutableComposition`: a timeline under construction. */
  class AVMutableComposition {
    var tracks: seq<Track>

    constructor ()
      ensures tracks == []
    {
      tracks := [];
    }

    /** `duration`: the latest end time of the tracks. */
    function Duration(): nat
      reads this
    {
      MaxEnd(tracks)
    }

    /** `addMutableTrack(withMediaType:preferredTrackID:)`: appends an empty track and returns its position. */
    method AddMutableTrack(mediaType: MediaType) returns (trackIndex: nat)
      modifies this
      ensures tracks == old(tracks) + [EmptyTrack(mediaType)]
      ensures trackIndex == |old(tracks)| && tracks[trackIndex].mediaType == mediaType
    {
      trackIndex := |tracks|;
      tracks := tracks + [EmptyTrack(mediaType)];
    }

    /**
     * `insertTimeRange(_:of:at:)` with the range [0, asset.duration): places every
     * track of `asset`, moved to `at`, into the last |asset.tracks| tracks of the
     * timeline. Whether the library accepts the insertion or throws is the
     * parameter `insertable`; the insertion is also refused when the asset has no
     * tracks or the receiving tracks' media types do not match. A refused
     * insertion changes nothing.
     */
    method InsertTimeRange(asset: AVAsset, at: nat, insertable: Insertable) returns (inserted: bool)
      modifies this
      ensures inserted == (CanInsert(old(tracks), asset.tracks) && insertable(asset))
      ensures inserted ==> tracks == old(tracks)[..|old(tracks)| - |asset.tracks|] + Shifted(asset.tracks, at)
      ensures !inserted ==> tracks == old(tracks)
    {
      inserted := CanInsert(tracks, asset.tracks) && insertable(asset);
      if inserted {
        var first := |tracks| - |asset.tracks|;
        var k := 0;
        while k < |asset.tracks|
          invariant 0 <= k <= |asset.tracks|
          invariant |tracks| == |old(tracks)|
          invariant forall m :: 0 <= m < first ==> tracks[m] == old(tracks)[m]
          invariant forall m :: 0 <= m < k ==> tracks[first + m] == Shifted(asset.tracks, at)[m]
        {
          var source := asset.tracks[k];
          tracks := tracks[first + k := source.(start := source.start + at)];
          k := k + 1;
        }
        assert tracks == old(tracks)[..first] + Shifted(asset.tracks, at);
      }
    }
  }

  /** `CMTimeRange`. */
  datatype TimeRange = TimeRange(start: nat, duration: nat)

  /** `CGColor`, as its red, green, blue and alpha components. */
  datatype Color = Rgba(red: real, green: real, blue: real, alpha: real)

  /** `AVVideoCompositionLayerInstruction`: the track it renders. */
  datatype LayerInstruction = LayerInstruction(assetTrack: Track)

  /** `AVVideoCompositionInstruction`: a time range, its layers in order, and a background colour (`nil` by default). */
  datatype Instruction = Instruction(timeRange: TimeRange, layerInstructions: seq<LayerInstruction>, backgroundColor: Option<Color>)

  /** `AVVideoComposition`: the ordered list of instructions. */
  datatype VideoComposition = VideoComposition(instructions: seq<Instruction>)

  /** `AVAudioMix`: its parameters play no part here. */
  datatype AudioMix = AudioMix

  /** `AVAssetExportSession.Status`. */
  datatype ExportStatus = Unknown | Waiting | Exporting | Completed | Failed | Cancelled
}
