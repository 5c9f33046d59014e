/** The receive side: each analysis frame is a snapshot of byte magnitudes
    per frequency bin; its dominant frequency is decoded as a character when
    it falls in the text band, and the character is appended to the
    listening session's buffer. */
module Receive {
  import opened Wrappers
  import opened Codec

  /** One magnitude of a byte frequency snapshot. */
  type Byte = b: int | 0 <= b < 256

  /** A peak below this magnitude is noise. */
  const NoiseFloor: int := 50
  /** Lowest printable character code accepted. */
  const FirstPrintable: int := 32
  /** Highest printable character code accepted. */
  const LastPrintable: int := 126
  /** End (exclusive) of the band a frequency must lie in to be decoded. */
  const TextBandEnd: int := BaseFreq + 256 * FreqStep

  /** Bin k holds the maximum of the first n bins of the snapshot, and every
      earlier bin is strictly smaller. */
  ghost predicate IsFirstMaxOfPrefix(s: seq<Byte>, n: int, k: int)
    requires 0 <= n <= |s|
  {
    0 <= k < n &&
    (forall j :: 0 <= j < n ==> s[j] <= s[k]) &&
    (forall j :: 0 <= j < k ==> s[j] < s[k])
  }

  /** Bin k holds the maximum of the snapshot, and every earlier bin is
      strictly smaller. */
  ghost predicate IsFirstMax(s: seq<Byte>, k: int)
  {
    IsFirstMaxOfPrefix(s, |s|, k)
  }

  /** The first bin holding the maximum of the first n bins. */
  function FirstMaxOfPrefix(s: seq<Byte>, n: int): (k: nat)
    requires 0 < n <= |s|
    ensures IsFirstMaxOfPrefix(s, n, k)
  {
    if n == 1 then 0
    else
      var k := FirstMaxOfPrefix(s, n - 1);
      if s[n - 1] > s[k] then n - 1 else k
  }

  /** The first bin holding the maximum of a non-empty snapshot. */
  function FirstMaxIndex(s: seq<Byte>): (k: nat)
    requires |s| > 0
    ensures IsFirstMax(s, k)
  {
    FirstMaxOfPrefix(s, |s|)
  }

  /** At most one bin is the first maximum. */
  lemma FirstMaxUnique(s: seq<Byte>, j: int, k: int)
    requires IsFirstMax(s, j) && IsFirstMax(s, k)
    ensures j == k
  {
    assert s[j] == s[k];
  }

  /** The centre frequency in Hz of bin k of a snapshot of n bins spanning
      0 to the Nyquist frequency: k * nyquist / n. */
  function BinFrequency(k: nat, n: nat, nyquist: real): real
    requires n > 0
  {
    (k as real * nyquist) / n as real
  }

  /** For k < n the frequency of bin k lies in [0, nyquist) and is 0 only
      for bin 0. */
  lemma BinFrequencyBounds(k: nat, n: nat, nyquist: real)
    requires k < n && nyquist > 0.0
    ensures 0.0 <= BinFrequency(k, n, nyquist) < nyquist
    ensures BinFrequency(k, n, nyquist) == 0.0 <==> k == 0
  {
    var f := k as real * nyquist / n as real;
    assert f * n as real == k as real * nyquist;
    assert k as real * nyquist < n as real * nyquist;
    if k > 0 {
      assert k as real * nyquist > 0.0;
    }
  }

  /** `getDominantFrequency` as a value: 0 when the snapshot's peak is below
      the noise floor (in particular for an empty or all-zero snapshot),
      otherwise the first peak bin scaled by nyquist / bin count. */
  function DominantFrequency(s: seq<Byte>, sampleRate: real): real
  {
    if |s| == 0 || s[FirstMaxIndex(s)] < NoiseFloor then 0.0
    else BinFrequency(FirstMaxIndex(s), |s|, sampleRate / 2.0)
  }

  /** The scan of `getDominantFrequency`: one pass keeping the largest
      magnitude seen (starting from 0) and the first bin holding it, moving
      only on a strictly larger magnitude. */
  method FindPeak(data: array<Byte>) returns (maxValue: int, maxIndex: nat)
    ensures data.Length == 0 ==> maxValue == 0 && maxIndex == 0
    ensures data.Length > 0 ==> IsFirstMax(data[..], maxIndex) && maxValue == data[maxIndex]
  {
    maxValue := 0;
    maxIndex := 0;
    for i := 0 to data.Length
      invariant maxIndex <= i
      invariant i > 0 ==> maxIndex < i && maxValue == data[maxIndex]
      invariant i == 0 ==> maxValue == 0
      invariant forall j :: 0 <= j < i ==> data[j] <= maxValue
      invariant forall j :: 0 <= j < maxIndex ==> data[j] < maxValue
    {
      if data[i] > maxValue {
        maxValue := data[i];
        maxIndex := i;
      }
    }
  }

  /** `getDominantFrequency`: 0 below the noise floor, otherwise the peak
      bin scaled to Hz. */
  method GetDominantFrequency(data: array<Byte>, sampleRate: real) returns (frequency: real)
    ensures (forall j :: 0 <= j < data.Length ==> data[j] < NoiseFloor) ==> frequency == 0.0
    ensures frequency == DominantFrequency(data[..], sampleRate)
  {
    var maxValue, maxIndex := FindPeak(data);
    if maxValue < NoiseFloor {
      if data.Length > 0 {
        FirstMaxUnique(data[..], maxIndex, FirstMaxIndex(data[..]));
        assert data[..][FirstMaxIndex(data[..])] < NoiseFloor;
      }
      return 0.0;
    }
    var nyquist := sampleRate / 2.0;
    frequency := BinFrequency(maxIndex, data.Length, nyquist);
    DominantFrequencyOfPeak(data[..], sampleRate, maxIndex);
  }

  /** For a positive sample rate, the dominant frequency is 0 exactly when
      the peak is below the noise floor or the first peak is bin 0 (DC). */
  lemma DominantFrequencyZeroIff(s: seq<Byte>, sampleRate: real)
    requires sampleRate > 0.0
    ensures DominantFrequency(s, sampleRate) == 0.0 <==>
              (forall j :: 0 <= j < |s| ==> s[j] < NoiseFloor) || FirstMaxIndex(s) == 0
  {
    if |s| > 0 {
      var k := FirstMaxIndex(s);
      BinFrequencyBounds(k, |s|, sampleRate / 2.0);
      if s[k] < NoiseFloor {
        assert forall j :: 0 <= j < |s| ==> s[j] < NoiseFloor;
      } else {
        assert DominantFrequency(s, sampleRate) == BinFrequency(k, |s|, sampleRate / 2.0);
      }
    }
  }

  /** When the first peak k reaches the noise floor, the dominant frequency
      is k * nyquist / bin count. */
  lemma DominantFrequencyOfPeak(s: seq<Byte>, sampleRate: real, k: int)
    requires IsFirstMax(s, k) && s[k] >= NoiseFloor
    ensures DominantFrequency(s, sampleRate) == BinFrequency(k, |s|, sampleRate / 2.0)
  {
    var m := FirstMaxIndex(s);
    FirstMaxUnique(s, k, m);
    assert m == k;
    assert !(|s| == 0 || s[m] < NoiseFloor);
  }

  /** For a positive sample rate the dominant frequency lies in
      [0, nyquist). */
  lemma DominantFrequencyRange(s: seq<Byte>, sampleRate: real)
    requires sampleRate > 0.0
    ensures 0.0 <= DominantFrequency(s, sampleRate) < sampleRate / 2.0
  {
    if |s| > 0 {
      BinFrequencyBounds(FirstMaxIndex(s), |s|, sampleRate / 2.0);
    }
  }

  /** The body of one `detectFrequencies` frame, as a value: the character
      decoded from the dominant frequency, if the frequency is positive, lies
      in [1000, 13800) Hz and decodes to a printable code in [32, 126]. */
  function DecodeFrame(dominant: real): Option<CharCode>
  {
    if dominant > 0.0 && dominant >= BaseFreq as real && dominant < TextBandEnd as real then
      var code := FrequencyToChar(dominant);
      if FirstPrintable <= code <= LastPrintable then Some(code) else None
    else None
  }

  /** What one frame appends to the buffer: nothing, or one character. */
  function Appended(dominant: real): (r: seq<CharCode>)
    ensures |r| <= 1
  {
    match DecodeFrame(dominant)
    case Some(c) => [c]
    case None => []
  }

  /** A frame decodes to c exactly when c is printable and the frequency lies
      within 25 Hz (half a step) of c's carrier. */
  lemma DecodeFrameIff(dominant: real, c: CharCode)
    ensures DecodeFrame(dominant) == Some(c) <==>
              FirstPrintable <= c <= LastPrintable &&
              CharToFrequency(c) as real - 25.0 <= dominant < CharToFrequency(c) as real + 25.0
  {
    if dominant >= BaseFreq as real && dominant < TextBandEnd as real {
      FrequencyToCharWindow(dominant, c);
    }
  }

  /** The carrier of every printable character decodes back to it. */
  lemma DecodeFrameOfCarrier(c: CharCode)
    requires FirstPrintable <= c <= LastPrintable
    ensures DecodeFrame(CharToFrequency(c) as real) == Some(c)
  {
    DecodeFrameIff(CharToFrequency(c) as real, c);
  }

  /** A quiet snapshot (every bin below the noise floor) appends nothing. */
  lemma QuietFrameAppendsNothing(s: seq<Byte>, sampleRate: real)
    requires forall j :: 0 <= j < |s| ==> s[j] < NoiseFloor
    ensures Appended(DominantFrequency(s, sampleRate)) == []
  {
    if |s| > 0 {
      assert s[FirstMaxIndex(s)] < NoiseFloor;
    }
  }

  /** The signature tones are not kept apart from the text band: 2000 and
      2500 Hz decode to the codes 20 and 30, which the printable gate
      rejects, but 3000 Hz decodes to 40, the character '(', which it
      accepts. */
  lemma SignatureTonesDecode()
    ensures FrequencyToChar(2000.0) == 20 && DecodeFrame(2000.0) == None
    ensures FrequencyToChar(2500.0) == 30 && DecodeFrame(2500.0) == None
    ensures FrequencyToChar(3000.0) == 40 && DecodeFrame(3000.0) == Some(40)
  {
    CharRoundTrip(20);
    CharRoundTrip(30);
    CharRoundTrip(40);
  }

  /** The listening session: whether it is listening, and the characters
      received since listening last started. */
  class Receiver {
    var isListening: bool
    var receivedData: seq<CharCode>

    /** Every buffered character is printable. */
    ghost predicate Valid()
      reads this
    {
      forall i :: 0 <= i < |receivedData| ==> FirstPrintable <= receivedData[i] <= LastPrintable
    }

    constructor ()
      ensures Valid() && !isListening && receivedData == []
    {
      isListening := false;
      receivedData := [];
    }

    /** `startListening`: when the microphone is granted, listening starts
        with an empty buffer and the first frame is run at once on the
        analyser's current snapshot, so the buffer then holds what that
        snapshot decodes to; when it is refused nothing changes. */
    method StartListening(microphoneGranted: bool, spectrum: array<Byte>, sampleRate: real)
      returns (started: bool)
      requires Valid()
      modifies this
      ensures Valid()
      ensures started == microphoneGranted
      ensures started ==>
                isListening && receivedData == Appended(DominantFrequency(spectrum[..], sampleRate))
      ensures !started ==> isListening == old(isListening) && receivedData == old(receivedData)
    {
      if !microphoneGranted {
        return false;
      }
      isListening := true;
      receivedData := [];
      var rescheduled := DetectFrequencies(spectrum, sampleRate);
      started := true;
    }

    /** `stopListening`: listening stops, and the buffer, when not empty,
        is handed out joined as the received text. The buffer itself is
        kept. */
    method StopListening() returns (displayed: Option<seq<CharCode>>)
      requires Valid()
      modifies this
      ensures Valid()
      ensures !isListening && receivedData == old(receivedData)
      ensures displayed == if receivedData != [] then Some(receivedData) else None
    {
      isListening := false;
      if |receivedData| > 0 {
        var text: seq<CharCode> := [];
        for i := 0 to |receivedData|
          invariant text == receivedData[..i]
        {
          text := text + [receivedData[i]];
        }
        assert receivedData[..|receivedData|] == receivedData;
        displayed := Some(text);
      } else {
        displayed := None;
      }
    }

    /** One `detectFrequencies` frame: when not listening nothing happens
        and no further frame is requested; otherwise the snapshot's dominant
        frequency is decoded, at most one character is appended, and the
        next frame is requested. */
    method DetectFrequencies(spectrum: array<Byte>, sampleRate: real) returns (rescheduled: bool)
      requires Valid()
      modifies this
      ensures Valid()
      ensures isListening == old(isListening) && rescheduled == isListening
      ensures !old(isListening) ==> receivedData == old(receivedData)
      ensures old(isListening) ==>
                receivedData == old(receivedData) + Appended(DominantFrequency(spectrum[..], sampleRate))
    {
      if !isListening {
        return false;
      }
      var dominantFreq := GetDominantFrequency(spectrum, sampleRate);
      if dominantFreq > 0.0 {
        if dominantFreq >= BaseFreq as real && dominantFreq < TextBandEnd as real {
          var code := FrequencyToChar(dominantFreq);
          if FirstPrintable <= code <= LastPrintable {
            receivedData := receivedData + [code];
          }
        }
      }
      rescheduled := true;
    }
  }
}
