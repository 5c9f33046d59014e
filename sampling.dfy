/** `downsampleAudio`: keep every ratio-th sample of the first channel of a
    decoded recording, where the ratio is the recording's sample rate over
    the target rate (and need not be an integer). */
module Sampling {

  /** A decoded recording: its sample rate and the samples of its first
      channel. */
  datatype AudioBuffer = AudioBuffer(sampleRate: real, channelData: seq<real>)

  /** Number of samples kept: floor(length / ratio). */
  function KeptLength(length: nat, ratio: real): nat
    requires ratio > 0.0
  {
    (length as real / ratio).Floor
  }

  /** Index of the sample read for output position i: floor(i * ratio). */
  function ReadIndex(i: nat, ratio: real): int
  {
    (i as real * ratio).Floor
  }

  /** Every index read for an output position below the kept length lies
      inside the channel data. */
  lemma ReadIndexInBounds(length: nat, ratio: real, i: nat)
    requires ratio > 0.0 && i < KeptLength(length, ratio)
    ensures 0 <= ReadIndex(i, ratio) < length
  {
    var q := length as real / ratio;
    assert (i + 1) as real <= q;
    assert (i + 1) as real * ratio <= q * ratio;
    assert q * ratio == length as real;
    assert i as real * ratio < length as real;
    assert 0.0 <= i as real * ratio;
  }

  /** The downsampled channel, as a value. */
  function Downsampled(data: seq<real>, ratio: real): (r: seq<real>)
    requires ratio > 0.0
  {
    seq(KeptLength(|data|, ratio), i requires 0 <= i < KeptLength(|data|, ratio) =>
      ReadIndexInBounds(|data|, ratio, i); data[ReadIndex(i, ratio)])
  }

  /** Output position i of the downsampled channel holds the input sample at
      floor(i * ratio), and there are floor(length / ratio) positions. */
  lemma DownsampledAt(data: seq<real>, ratio: real, i: nat)
    requires ratio > 0.0 && i < KeptLength(|data|, ratio)
    ensures |Downsampled(data, ratio)| == KeptLength(|data|, ratio)
    ensures 0 <= ReadIndex(i, ratio) < |data|
    ensures Downsampled(data, ratio)[i] == data[ReadIndex(i, ratio)]
  {
    ReadIndexInBounds(|data|, ratio, i);
  }

  /** Downsampling by a ratio of one keeps the channel as it is. */
  lemma DownsampleByOne(data: seq<real>)
    ensures Downsampled(data, 1.0) == data
  {
    assert KeptLength(|data|, 1.0) == |data|;
    forall i | 0 <= i < |data| ensures Downsampled(data, 1.0)[i] == data[i] {
      assert ReadIndex(i, 1.0) == i;
    }
  }

  /** `downsampleAudio`: fills a new array of floor(length / ratio) samples,
      position i taking the sample at floor(i * ratio). */
  method DownsampleAudio(buffer: AudioBuffer, targetSampleRate: real) returns (result: array<real>)
    requires buffer.sampleRate > 0.0 && targetSampleRate > 0.0
    ensures fresh(result)
    ensures result[..] == Downsampled(buffer.channelData, buffer.sampleRate / targetSampleRate)
  {
    var channelData := buffer.channelData;
    var ratio := buffer.sampleRate / targetSampleRate;
    var newLength := (|channelData| as real / ratio).Floor;
    result := new real[newLength];
    for i := 0 to newLength
      invariant forall k :: 0 <= k < i ==> 0 <= ReadIndex(k, ratio) < |channelData|
      invariant forall k :: 0 <= k < i ==> result[k] == channelData[ReadIndex(k, ratio)]
    {
      ReadIndexInBounds(|channelData|, ratio, i);
      var index := (i as real * ratio).Floor;
      assert index == ReadIndex(i, ratio);
      result[i] := channelData[index];
    }
    forall k | 0 <= k < newLength
      ensures result[..][k] == Downsampled(channelData, ratio)[k]
    {
      DownsampledAt(channelData, ratio, k);
    }
  }
}
