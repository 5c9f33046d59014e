/** The symbol codec of the acoustic link: a character code or an audio
    sample is carried as one audible tone whose frequency is an affine
    function of the value, and a detected frequency is mapped back to the
    character code it is closest to. */
module Codec {

  /** A UTF-16 code unit, the value `charCodeAt` yields. */
  type CharCode = c: int | 0 <= c < 0x1_0000

  /** Frequency of character code 0, in Hz. */
  const BaseFreq: int := 1000
  /** Spacing between the frequencies of adjacent character codes, in Hz. */
  const FreqStep: int := 50
  /** Spacing between the frequencies of adjacent voice levels, in Hz. */
  const VoiceFreqStep: int := 20
  /** Largest quantised voice level. */
  const MaxLevel: int := 255

  /** `Math.round`: the nearest integer, a tie going to the larger one. */
  function Round(x: real): (n: int)
    ensures n as real - 0.5 <= x < n as real + 0.5
  {
    (x + 0.5).Floor
  }

  /** `String.fromCharCode` on an integer argument: the argument reduced
      modulo 2^16 (ToUint16). */
  function FromCharCode(n: int): (c: CharCode)
    ensures 0 <= n < 0x1_0000 ==> c == n
    ensures (c - n) % 0x1_0000 == 0
  {
    n % 0x1_0000
  }

  /** `charToFrequency`: the carrier frequency of one character. */
  function CharToFrequency(code: CharCode): (f: int)
    ensures BaseFreq <= f < BaseFreq + 0x1_0000 * FreqStep
  {
    BaseFreq + code * FreqStep
  }

  /** `frequencyToChar`: the character code nearest to a frequency. */
  function FrequencyToChar(freq: real): CharCode
  {
    FromCharCode(Round((freq - BaseFreq as real) / FreqStep as real))
  }

  /** The quantised level of an audio sample: (s + 1) / 2 scaled to 255 and
      rounded down. */
  function SampleLevel(sample: real): int
  {
    (((sample + 1.0) / 2.0) * 255.0).Floor
  }

  /** `sampleToFrequency`: the carrier frequency of one audio sample. */
  function SampleToFrequency(sample: real): int
  {
    BaseFreq + SampleLevel(sample) * VoiceFreqStep
  }

  /** Decoding the frequency of any character code gives that code back. */
  lemma CharRoundTrip(code: CharCode)
    ensures FrequencyToChar(CharToFrequency(code) as real) == code
  {
    var x := (CharToFrequency(code) as real - BaseFreq as real) / FreqStep as real;
    assert x == code as real;
  }

  /** Adjacent character codes sit exactly one step apart, so distinct codes
      have distinct frequencies. */
  lemma CharFrequencySpacing(c: CharCode, d: CharCode)
    ensures CharToFrequency(d) - CharToFrequency(c) == (d - c) * FreqStep
    ensures c != d ==> CharToFrequency(c) != CharToFrequency(d)
  {
  }

  /** Within the range where no reduction modulo 2^16 happens, a frequency
      decodes to a code exactly when it lies within half a step (25 Hz) of
      that code's frequency. */
  lemma FrequencyToCharWindow(freq: real, code: CharCode)
    requires BaseFreq as real - 25.0 <= freq < (BaseFreq + 0x1_0000 * FreqStep) as real - 25.0
    ensures FrequencyToChar(freq) == code <==>
              CharToFrequency(code) as real - 25.0 <= freq < CharToFrequency(code) as real + 25.0
  {
    var x := (freq - BaseFreq as real) / FreqStep as real;
    var n := Round(x);
    assert -0.5 <= x < 0x1_0000 as real - 0.5;
    assert 0 <= n < 0x1_0000;
    assert FrequencyToChar(freq) == n;
    assert freq == BaseFreq as real + x * FreqStep as real;
  }

  /** A sample in [-1, 1] quantises to a level in [0, 255]; the level is the
      largest integer not above (s + 1) / 2 * 255. */
  lemma SampleLevelBounds(sample: real)
    requires -1.0 <= sample <= 1.0
    ensures 0 <= SampleLevel(sample) <= MaxLevel
    ensures SampleLevel(sample) as real <= (sample + 1.0) / 2.0 * 255.0 < SampleLevel(sample) as real + 1.0
  {
  }

  /** A sample in [-1, 1] is carried in [1000, 6100] Hz on the 20 Hz grid;
      the extremes -1 and 1 give 1000 and 6100 Hz. */
  lemma SampleFrequencyBounds(sample: real)
    requires -1.0 <= sample <= 1.0
    ensures BaseFreq <= SampleToFrequency(sample) <= BaseFreq + MaxLevel * VoiceFreqStep
    ensures (SampleToFrequency(sample) - BaseFreq) % VoiceFreqStep == 0
    ensures SampleToFrequency(-1.0) == 1000 && SampleToFrequency(1.0) == 6100
  {
    SampleLevelBounds(sample);
  }

  /** A louder sample never gets a lower frequency. */
  lemma SampleFrequencyMonotonic(s: real, t: real)
    requires s <= t
    ensures SampleToFrequency(s) <= SampleToFrequency(t)
  {
    assert (s + 1.0) / 2.0 * 255.0 <= (t + 1.0) / 2.0 * 255.0;
  }
}
