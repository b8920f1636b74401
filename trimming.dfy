/**
 * The trim: every channel replaced by its suffix from the start index.
 */
module Trimming {
  import opened Audio
  import opened Silence

  /** `Float32Array.prototype.subarray(start)` with one non-negative
      argument: the samples from `start` on, clamped to the channel's end. */
  function Subarray(channel: Channel, start: nat): (r: Channel)
    ensures |r| == if start <= |channel| then |channel| - start else 0
    ensures forall j :: 0 <= j < |r| ==> r[j] == channel[start + j]
  {
    if start <= |channel| then channel[start..] else []
  }

  /** Every channel, in order, replaced by its subarray from `start`; the
      channel data passed in is not changed. */
  function Trim(channelData: seq<Channel>, start: nat): (r: seq<Channel>)
    ensures |r| == |channelData|
    ensures forall c :: 0 <= c < |r| && start <= |channelData[c]| ==>
              |r[c]| == |channelData[c]| - start
    ensures forall c :: 0 <= c < |r| && start > |channelData[c]| ==> r[c] == []
    ensures forall c, j :: 0 <= c < |r| && 0 <= j < |r[c]| ==> r[c][j] == channelData[c][start + j]
  {
    seq(|channelData|, c requires 0 <= c < |channelData| => Subarray(channelData[c], start))
  }

  /** Trimming an aligned buffer at a frame inside it keeps the channel
      count and gives every channel the same, shorter length. */
  lemma TrimKeepsAlignment(channelData: seq<Channel>, start: nat)
    requires Aligned(channelData) && start <= FrameCount(channelData)
    ensures Aligned(Trim(channelData, start))
    ensures FrameCount(Trim(channelData, start)) == FrameCount(channelData) - start
  {
  }

  /** Trimming at frame 0 gives back the buffer itself. */
  lemma TrimAtZero(channelData: seq<Channel>)
    ensures Trim(channelData, 0) == channelData
  {
    var r := Trim(channelData, 0);
    forall c | 0 <= c < |channelData|
      ensures r[c] == channelData[c]
    {
      assert |r[c]| == |channelData[c]|;
    }
  }

  /** A buffer without a loud frame, and one without frames, comes back
      whole: nothing is trimmed, and the result is not emptied. */
  lemma AllSilentKeepsBuffer(channelData: seq<Channel>, threshold: real)
    requires Aligned(channelData)
    ensures !HasLoudFrame(channelData, threshold) ==>
              Trim(channelData, StartIndex(channelData, threshold)) == channelData
  {
    TrimAtZero(channelData);
  }

  /** The trimmed buffer drops exactly the leading silent frames: when some
      frame is loud, the first frame kept is loud and every dropped frame
      was silent. */
  lemma TrimStartsAtFirstLoudFrame(channelData: seq<Channel>, threshold: real)
    requires Aligned(channelData) && HasLoudFrame(channelData, threshold)
    ensures var s := StartIndex(channelData, threshold);
            var r := Trim(channelData, s);
            Aligned(r) && FrameCount(r) > 0 && !Silent(r, 0, threshold) &&
            forall j :: 0 <= j < s ==> Silent(channelData, j, threshold)
  {
    var s := StartIndex(channelData, threshold);
    var r := Trim(channelData, s);
    TrimKeepsAlignment(channelData, s);
    var c :| 0 <= c < |channelData| && Abs(channelData[c][s]) > threshold;
    assert r[c][0] == channelData[c][s];
  }

  /** Trimming the channel data is idempotent: in the trimmed channel data
      the start index is 0, so trimming it again gives it back unchanged.
      This is about the channel data only; a second run of the script would
      also go through `wav.encode` and `wav.decode`, whose round trip is not
      part of this model. */
  lemma TrimIdempotent(channelData: seq<Channel>, threshold: real)
    requires Aligned(channelData)
    ensures var r := Trim(channelData, StartIndex(channelData, threshold));
            Aligned(r) && StartIndex(r, threshold) == 0 && Trim(r, 0) == r
  {
    var s := StartIndex(channelData, threshold);
    var r := Trim(channelData, s);
    TrimKeepsAlignment(channelData, s);
    TrimAtZero(r);
    if HasLoudFrame(channelData, threshold) {
      TrimStartsAtFirstLoudFrame(channelData, threshold);
      StartIndexIsFirstLoudFrame(r, threshold, 0);
    } else {
      AllSilentKeepsBuffer(channelData, threshold);
    }
  }
}
