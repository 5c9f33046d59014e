/** The transmit side: a transmission is the start signature, one tone per
    payload unit, then the end signature. Playing a tone is modelled as
    appending a (frequency, duration) command to the list the transmission
    returns. */
module Transmit {
  import opened Wrappers
  import opened Codec
  import opened JsText
  import opened Sampling

  /** One tone command: a frequency in Hz held for a duration in seconds. */
  datatype Tone = Tone(freq: int, duration: real)

  const StartSignature: seq<int> := [2000, 2500, 3000]
  const EndSignature: seq<int> := [3000, 2500, 2000]
  const SignatureToneDuration: real := 0.1
  const TextToneDuration: real := 0.05
  const VoiceToneDuration: real := 0.02
  /** At most this many samples of a recording are sent. */
  const MaxVoiceTones: nat := 100
  /** The rate a recording is downsampled to before it is sent. */
  const VoiceSampleRate: real := 8000.0

  /** Why a transmission did not start. */
  datatype Rejection = EmptyText | NoRecording

  /** The outcome of a transmit request: rejected before any tone, or the
      tones played, in order. */
  datatype Transmission = Rejected(reason: Rejection) | Sent(tones: seq<Tone>)

  function Min(a: int, b: int): int { if a <= b then a else b }

  /** The tones of a signature: each of its frequencies for 0.1 s. */
  function SignatureTones(frequencies: seq<int>): seq<Tone>
  {
    seq(|frequencies|, i requires 0 <= i < |frequencies| => Tone(frequencies[i], SignatureToneDuration))
  }

  /** One 0.05 s tone per character code, in order. */
  function TextTones(codes: seq<CharCode>): seq<Tone>
  {
    seq(|codes|, i requires 0 <= i < |codes| => Tone(CharToFrequency(codes[i]), TextToneDuration))
  }

  /** The tones sent for an already trimmed text. */
  function TextSchedule(text: seq<CharCode>): seq<Tone>
  {
    SignatureTones(StartSignature) + TextTones(LeadUnits(text)) + SignatureTones(EndSignature)
  }

  /** One 0.02 s tone for each of the first (at most 100) samples, in order. */
  function VoiceTones(samples: seq<real>): seq<Tone>
  {
    seq(Min(|samples|, MaxVoiceTones as int), i requires 0 <= i < Min(|samples|, MaxVoiceTones as int) =>
      Tone(SampleToFrequency(samples[i]), VoiceToneDuration))
  }

  /** The tones sent for a downsampled recording. */
  function VoiceSchedule(samples: seq<real>): seq<Tone>
  {
    SignatureTones(StartSignature) + VoiceTones(samples) + SignatureTones(EndSignature)
  }

  /** Total playing time of a list of tones, in seconds. */
  function Airtime(tones: seq<Tone>): real
  {
    if tones == [] then 0.0 else tones[0].duration + Airtime(tones[1..])
  }

  /** `playSignature`: one 0.1 s tone per frequency, in the given order. */
  method PlaySignature(frequencies: seq<int>) returns (tones: seq<Tone>)
    ensures |tones| == |frequencies|
    ensures forall i :: 0 <= i < |tones| ==> tones[i] == Tone(frequencies[i], SignatureToneDuration)
    ensures tones == SignatureTones(frequencies)
  {
    tones := [];
    for i := 0 to |frequencies|
      invariant |tones| == i
      invariant forall k :: 0 <= k < i ==> tones[k] == Tone(frequencies[k], SignatureToneDuration)
    {
      tones := tones + [Tone(frequencies[i], SignatureToneDuration)];
    }
  }

  /** Appending a character code appends its tone. */
  lemma TextTonesAppend(codes: seq<CharCode>, c: CharCode)
    ensures TextTones(codes + [c]) == TextTones(codes) + [Tone(CharToFrequency(c), TextToneDuration)]
  {
  }

  /** The character loop of `transmitText`: one tone per character the
      iteration yields, that is one per code point, at the frequency of its
      first code unit. */
  method PlayCharacters(text: seq<CharCode>) returns (tones: seq<Tone>)
    ensures tones == TextTones(LeadUnits(text))
  {
    tones := [];
    ghost var sent: seq<CharCode> := [];
    var i := 0;
    while i < |text|
      invariant 0 <= i <= |text|
      invariant LeadUnits(text) == sent + LeadUnits(text[i..])
      invariant tones == TextTones(sent)
      decreases |text| - i
    {
      var code := text[i];
      var freq := CharToFrequency(code);
      TextTonesAppend(sent, code);
      LeadUnitsStep(text, i, sent);
      tones := tones + [Tone(freq, TextToneDuration)];
      sent := sent + [code];
      i := NextCharIndex(text, i);
    }
    assert text[i..] == [];
  }

  /** `transmitText`: the input is trimmed; if nothing is left the request
      is rejected before any tone, otherwise the start signature, one tone
      per character of the trimmed text, and the end signature are played. */
  method TransmitText(input: seq<CharCode>) returns (r: Transmission)
    ensures r.Rejected? <==> Trim(input) == []
    ensures r.Rejected? ==> r.reason == EmptyText
    ensures Trim(input) != [] ==> r == Sent(TextSchedule(Trim(input)))
  {
    var text := Trim(input);
    if text == [] {
      return Rejected(EmptyText);
    }
    var opening := PlaySignature(StartSignature);
    var body := PlayCharacters(text);
    var closing := PlaySignature(EndSignature);
    r := Sent(opening + body + closing);
  }

  /** `transmitVoice`: with no recording the request is rejected before any
      tone; otherwise the recording is downsampled to 8000 Hz and the start
      signature, one tone per sample for the first (at most 100) samples, and
      the end signature are played. */
  method TransmitVoice(recording: Option<AudioBuffer>) returns (r: Transmission)
    requires recording.Some? ==> recording.value.sampleRate > 0.0
    ensures r.Rejected? <==> recording.None?
    ensures r.Rejected? ==> r.reason == NoRecording
    ensures recording.Some? ==>
              r == Sent(VoiceSchedule(Downsampled(recording.value.channelData,
                                                  recording.value.sampleRate / VoiceSampleRate)))
  {
    if recording.None? {
      return Rejected(NoRecording);
    }
    var samples := DownsampleAudio(recording.value, VoiceSampleRate);
    ghost var kept := samples[..];
    var tones := PlaySignature(StartSignature);
    var sampleCount := Min(samples.Length, MaxVoiceTones);
    for i := 0 to sampleCount
      invariant |tones| == |StartSignature| + i
      invariant tones[..|StartSignature|] == SignatureTones(StartSignature)
      invariant forall k :: 0 <= k < i ==>
                  tones[|StartSignature| + k] == Tone(SampleToFrequency(kept[k]), VoiceToneDuration)
    {
      var sample := samples[i];
      var freq := SampleToFrequency(sample);
      tones := tones + [Tone(freq, VoiceToneDuration)];
    }
    assert tones == SignatureTones(StartSignature) + VoiceTones(kept);
    var closing := PlaySignature(EndSignature);
    tones := tones + closing;
    r := Sent(tones);
  }

  /** The end signature is the start signature played backwards. */
  lemma EndSignatureReversesStart()
    ensures |EndSignature| == |StartSignature| == 3
    ensures forall i :: 0 <= i < 3 ==> EndSignature[i] == StartSignature[2 - i]
  {
  }

  /** A text transmission is three 0.1 s start tones, then one 0.05 s tone
      per character at that character's frequency, in order, then three
      0.1 s end tones. */
  lemma TextScheduleLayout(text: seq<CharCode>)
    ensures |TextSchedule(text)| == 6 + |LeadUnits(text)|
    ensures forall i :: 0 <= i < 3 ==>
              TextSchedule(text)[i] == Tone(StartSignature[i], SignatureToneDuration) &&
              TextSchedule(text)[3 + |LeadUnits(text)| + i] == Tone(EndSignature[i], SignatureToneDuration)
    ensures forall i :: 0 <= i < |LeadUnits(text)| ==>
              TextSchedule(text)[3 + i] == Tone(CharToFrequency(LeadUnits(text)[i]), TextToneDuration)
  {
  }

  /** For a text in which no surrogate pair starts there is exactly one
      tone per code unit, so the transmission has 6 + |text| tones. */
  lemma TextScheduleOfPlainText(text: seq<CharCode>)
    requires forall i :: 0 <= i < |text| ==> !PairAt(text, i)
    ensures |TextSchedule(text)| == 6 + |text|
    ensures forall i :: 0 <= i < |text| ==>
              TextSchedule(text)[3 + i] == Tone(CharToFrequency(text[i]), TextToneDuration)
  {
    LeadUnitsWithoutPairs(text);
  }

  /** Sending "AB" plays the start signature, 'A' (4250 Hz), 'B' (4300 Hz)
      and the end signature, in that order. */
  lemma TextScheduleOfAB()
    ensures TextSchedule([65, 66]) ==
              [Tone(2000, 0.1), Tone(2500, 0.1), Tone(3000, 0.1),
               Tone(4250, 0.05), Tone(4300, 0.05),
               Tone(3000, 0.1), Tone(2500, 0.1), Tone(2000, 0.1)]
  {
    var ab: seq<CharCode> := [65, 66];
    assert ab[1..][1..] == [];
    assert LeadUnits(ab) == [65, 66];
  }

  /** A voice transmission is the start signature, min(n, 100) tones of
      0.02 s at the frequencies of the first samples in index order, then the
      end signature; for samples in [-1, 1] all those tones lie in
      [1000, 6100] Hz. */
  lemma VoiceScheduleLayout(samples: seq<real>)
    ensures |VoiceSchedule(samples)| == 6 + Min(|samples|, MaxVoiceTones)
    ensures VoiceSchedule(samples)[..3] == SignatureTones(StartSignature)
    ensures VoiceSchedule(samples)[|VoiceSchedule(samples)| - 3..] == SignatureTones(EndSignature)
    ensures forall i :: 0 <= i < Min(|samples|, MaxVoiceTones) ==>
              VoiceSchedule(samples)[3 + i] == Tone(SampleToFrequency(samples[i]), VoiceToneDuration)
    ensures (forall i :: 0 <= i < |samples| ==> -1.0 <= samples[i] <= 1.0) ==>
              forall i :: 0 <= i < Min(|samples|, MaxVoiceTones) ==>
                1000 <= SampleToFrequency(samples[i]) <= 6100
  {
    var n := Min(|samples|, MaxVoiceTones);
    var v := VoiceSchedule(samples);
    assert v[..3] == SignatureTones(StartSignature);
    assert v[|v| - 3..] == SignatureTones(EndSignature);
    if forall i :: 0 <= i < |samples| ==> -1.0 <= samples[i] <= 1.0 {
      forall i | 0 <= i < n ensures 1000 <= SampleToFrequency(samples[i]) <= 6100 {
        SampleFrequencyBounds(samples[i]);
      }
    }
  }

  /** Playing time adds up over consecutive tone lists. */
  lemma {:induction false} AirtimeConcat(a: seq<Tone>, b: seq<Tone>)
    ensures Airtime(a + b) == Airtime(a) + Airtime(b)
    decreases |a|
  {
    if a != [] {
      assert (a + b)[0] == a[0];
      assert (a + b)[1..] == a[1..] + b;
      AirtimeConcat(a[1..], b);
      assert Airtime(a + b) == (a + b)[0].duration + Airtime((a + b)[1..]);
    } else {
      assert a + b == b;
    }
  }

  /** Tones that all last d seconds play for |tones| * d seconds. */
  lemma {:induction false} AirtimeUniform(tones: seq<Tone>, d: real)
    requires forall i :: 0 <= i < |tones| ==> tones[i].duration == d
    ensures Airtime(tones) == |tones| as real * d
    decreases |tones|
  {
    if tones != [] {
      AirtimeUniform(tones[1..], d);
    }
  }

  /** Symbols are sent at a fixed rate: a text of n characters takes
      0.6 + 0.05 * n seconds. */
  lemma TextAirtime(text: seq<CharCode>)
    ensures Airtime(TextSchedule(text)) == 0.6 + 0.05 * |LeadUnits(text)| as real
  {
    var units := LeadUnits(text);
    AirtimeConcat(SignatureTones(StartSignature) + TextTones(units), SignatureTones(EndSignature));
    AirtimeConcat(SignatureTones(StartSignature), TextTones(units));
    AirtimeUniform(SignatureTones(StartSignature), SignatureToneDuration);
    AirtimeUniform(SignatureTones(EndSignature), SignatureToneDuration);
    AirtimeUniform(TextTones(units), TextToneDuration);
  }

  /** A voice transmission of n samples takes 0.6 + 0.02 * min(n, 100)
      seconds. */
  lemma VoiceAirtime(samples: seq<real>)
    ensures Airtime(VoiceSchedule(samples)) == 0.6 + 0.02 * Min(|samples|, MaxVoiceTones) as real
  {
    AirtimeConcat(SignatureTones(StartSignature) + VoiceTones(samples), SignatureTones(EndSignature));
    AirtimeConcat(SignatureTones(StartSignature), VoiceTones(samples));
    AirtimeUniform(SignatureTones(StartSignature), SignatureToneDuration);
    AirtimeUniform(SignatureTones(EndSignature), SignatureToneDuration);
    AirtimeUniform(VoiceTones(samples), VoiceToneDuration);
  }
}
