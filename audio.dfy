/**
 * Decoded audio as the trimming script sees it: a sample rate and one
 * sequence of amplitudes per channel (node-wav's `channelData`).
 */
module Audio {

  /** One decoded amplitude. The script only takes its absolute value and
      compares it strictly with a threshold, so an exact real stands in for
      the 32-bit float of the decoder. */
  type Sample = real

  type Channel = seq<Sample>

  /** What `wav.decode` yields and `wav.encode` consumes. */
  datatype Wav = Wav(sampleRate: int, channelData: seq<Channel>)

  /** `Math.abs` on a sample. */
  function Abs(x: Sample): (r: Sample)
    ensures r >= 0.0 && (r == x || r == -x)
  {
    if x < 0.0 then -x else x
  }

  /** Channel data the silence scan can read without leaving any channel:
      at least one channel, all of the length of the first one. */
  predicate Aligned(channelData: seq<Channel>) {
    |channelData| >= 1 &&
    forall c :: 0 <= c < |channelData| ==> |channelData[c]| == |channelData[0]|
  }

  /** The number of frames, read from the first channel as the scan does. */
  function FrameCount(channelData: seq<Channel>): nat
    requires |channelData| >= 1
  {
    |channelData[0]|
  }

  /** Frame `i` is silent when no channel's sample there has a magnitude
      strictly above the threshold, that is, when every channel's sample
      lies within `[-threshold, threshold]`. */
  predicate Silent(channelData: seq<Channel>, i: nat, threshold: real)
    requires Aligned(channelData) && i < FrameCount(channelData)
    ensures Silent(channelData, i, threshold) <==>
              forall c :: 0 <= c < |channelData| ==> -threshold <= channelData[c][i] <= threshold
  {
    forall c :: 0 <= c < |channelData| ==> Abs(channelData[c][i]) <= threshold
  }

  /** Some frame of the buffer is not silent. */
  predicate HasLoudFrame(channelData: seq<Channel>, threshold: real)
    requires Aligned(channelData)
  {
    exists i :: 0 <= i < FrameCount(channelData) && !Silent(channelData, i, threshold)
  }
}
