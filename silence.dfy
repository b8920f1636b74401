/**
 * The leading-silence detector: the frame at which trimming starts.
 */
module Silence {
  import opened Audio

  /** The first frame at or after `from` that is not silent, or the frame
      count when every frame from `from` on is silent. */
  function FirstLoudFrom(channelData: seq<Channel>, threshold: real, from: nat): (k: nat)
    requires Aligned(channelData) && from <= FrameCount(channelData)
    ensures from <= k <= FrameCount(channelData)
    ensures k < FrameCount(channelData) ==> !Silent(channelData, k, threshold)
    ensures forall j :: from <= j < k ==> Silent(channelData, j, threshold)
    decreases FrameCount(channelData) - from
  {
    if from == FrameCount(channelData) then from
    else if !Silent(channelData, from, threshold) then from
    else FirstLoudFrom(channelData, threshold, from + 1)
  }

  /** The value `startIndex` holds once the scan is over: the first frame
      that is not silent, and 0 when there is none (an all-silent buffer,
      or one without frames, is kept whole). */
  function StartIndex(channelData: seq<Channel>, threshold: real): (s: nat)
    requires Aligned(channelData)
    ensures s <= FrameCount(channelData)
    ensures FrameCount(channelData) > 0 ==> s < FrameCount(channelData)
    ensures HasLoudFrame(channelData, threshold) ==>
              !Silent(channelData, s, threshold) &&
              forall j :: 0 <= j < s ==> Silent(channelData, j, threshold)
    ensures !HasLoudFrame(channelData, threshold) ==> s == 0
  {
    var k := FirstLoudFrom(channelData, threshold, 0);
    if k < FrameCount(channelData) then k else 0
  }

  /** A frame is the start index exactly when it is the first loud frame. */
  lemma StartIndexIsFirstLoudFrame(channelData: seq<Channel>, threshold: real, k: nat)
    requires Aligned(channelData) && k < FrameCount(channelData)
    ensures (HasLoudFrame(channelData, threshold) && StartIndex(channelData, threshold) == k)
            <==> (!Silent(channelData, k, threshold) &&
                  forall j :: 0 <= j < k ==> Silent(channelData, j, threshold))
  {
    if !Silent(channelData, k, threshold) && forall j :: 0 <= j < k ==> Silent(channelData, j, threshold) {
      FirstLoudFromIs(channelData, threshold, 0, k);
    }
  }

  /** A loud frame preceded (from `from` on) only by silent frames is the
      one the search from `from` finds. */
  lemma {:induction false} FirstLoudFromIs(channelData: seq<Channel>, threshold: real, from: nat, k: nat)
    requires Aligned(channelData) && from <= k < FrameCount(channelData)
    requires !Silent(channelData, k, threshold)
    requires forall j :: from <= j < k ==> Silent(channelData, j, threshold)
    ensures FirstLoudFrom(channelData, threshold, from) == k
    decreases k - from
  {
    if from < k {
      FirstLoudFromIs(channelData, threshold, from + 1, k);
    }
  }

  /** The start index depends only on which frames are silent. */
  lemma {:induction false} FirstLoudFromAgrees(a: seq<Channel>, b: seq<Channel>, threshold: real, from: nat)
    requires Aligned(a) && Aligned(b) && FrameCount(a) == FrameCount(b) && from <= FrameCount(a)
    requires forall i :: 0 <= i < FrameCount(a) ==> (Silent(a, i, threshold) <==> Silent(b, i, threshold))
    ensures FirstLoudFrom(a, threshold, from) == FirstLoudFrom(b, threshold, from)
    decreases FrameCount(a) - from
  {
    if from < FrameCount(a) && Silent(a, from, threshold) {
      FirstLoudFromAgrees(a, b, threshold, from + 1);
    }
  }

  /** Whether a frame is silent is an AND over all channels, so listing the
      channels in another order (or the early exit of the channel scan)
      cannot change where trimming starts. */
  lemma StartIndexIgnoresChannelOrder(channelData: seq<Channel>, reordered: seq<Channel>, threshold: real)
    requires Aligned(channelData) && multiset(reordered) == multiset(channelData)
    ensures Aligned(reordered) && FrameCount(reordered) == FrameCount(channelData)
    ensures StartIndex(reordered, threshold) == StartIndex(channelData, threshold)
  {
    var n := FrameCount(channelData);
    assert |reordered| == |channelData| by {
      calc {
        |reordered|;
        |multiset(reordered)|;
        |multiset(channelData)|;
        |channelData|;
      }
    }
    forall c | 0 <= c < |reordered|
      ensures reordered[c] in channelData
    {
      assert reordered[c] in multiset(reordered);
    }
    forall c | 0 <= c < |channelData|
      ensures channelData[c] in reordered
    {
      assert channelData[c] in multiset(channelData);
    }
    assert reordered[0] in channelData;
    assert Aligned(reordered);
    forall i | 0 <= i < n
      ensures Silent(reordered, i, threshold) <==> Silent(channelData, i, threshold)
    {
      if Silent(channelData, i, threshold) {
        forall c | 0 <= c < |reordered|
          ensures Abs(reordered[c][i]) <= threshold
        {
          var d :| 0 <= d < |channelData| && channelData[d] == reordered[c];
        }
      }
      if Silent(reordered, i, threshold) {
        forall c | 0 <= c < |channelData|
          ensures Abs(channelData[c][i]) <= threshold
        {
          var d :| 0 <= d < |reordered| && reordered[d] == channelData[c];
        }
      }
    }
    FirstLoudFromAgrees(reordered, channelData, threshold, 0);
  }

  /** The scan of the script: frames in order, channels in order within a
      frame, leaving the channel loop at the first sample above the
      threshold and the frame loop at the first frame that is not silent. */
  method FindStartIndex(channelData: seq<Channel>, threshold: real) returns (startIndex: nat)
    requires Aligned(channelData)
    ensures startIndex == StartIndex(channelData, threshold)
    ensures HasLoudFrame(channelData, threshold) ==>
              !Silent(channelData, startIndex, threshold) &&
              forall j :: 0 <= j < startIndex ==> Silent(channelData, j, threshold)
    ensures !HasLoudFrame(channelData, threshold) ==> startIndex == 0
  {
    startIndex := 0;
    var i := 0;
    while i < |channelData[0]|
      invariant 0 <= i <= FrameCount(channelData)
      invariant startIndex == 0
      invariant forall j :: 0 <= j < i ==> Silent(channelData, j, threshold)
    {
      var isSilent := true;
      var channel := 0;
      while channel < |channelData|
        invariant 0 <= channel <= |channelData|
        invariant isSilent
        invariant forall c :: 0 <= c < channel ==> Abs(channelData[c][i]) <= threshold
      {
        if Abs(channelData[channel][i]) > threshold {
          isSilent := false;
          break;
        }
        channel := channel + 1;
      }
      if !isSilent {
        startIndex := i;
        StartIndexIsFirstLoudFrame(channelData, threshold, i);
        break;
      }
      i := i + 1;
    }
  }
}
