# Acoustic FSK text link — Dafny model

The program sends short text messages through the air as audible tones.
Each character becomes one tone at a frequency of `1000 + code * 50` Hz.
A message is wrapped in a three-tone start signature (2000, 2500, 3000 Hz)
and a three-tone end signature (the same tones in reverse order).
A "voice" mode downsamples a recording to 8000 Hz and sends up to 100
samples as tones at `1000 + level * 20` Hz, where `level` is the sample
quantised to 0..255.

The receiver takes byte magnitude snapshots of the microphone spectrum, one
per animation frame. For each snapshot it picks the dominant bin, ignoring
peaks below magnitude 50. If the bin's frequency lies in the text band
[1000, 13800) Hz, it decodes the frequency to the nearest character code.
Printable codes (32..126) are buffered. When listening stops, the buffer is
shown as the received text.

This project models that logic in Dafny and proves properties of it.

- `Codec` (codec.dfy): the pure symbol codec. It covers `charToFrequency`,
  `frequencyToChar` (with `Math.round` and `String.fromCharCode` written
  out) and `sampleToFrequency`.
- `JsText` (jstext.dfy): `trim` with ECMAScript's whitespace set, and the
  code-point iteration of `for (char of text)`.
- `Sampling` (sampling.dfy): `downsampleAudio`, a loop filling a new array.
- `Transmit` (transmit.dfy): `playSignature`, `transmitText` and
  `transmitVoice`. Each is a method with loops that returns the list of
  `(frequency, duration)` tone commands the source would play. The
  specification functions `SignatureTones`, `TextTones`, `TextSchedule`,
  `VoiceTones` and `VoiceSchedule` give the same lists as values.
  `Airtime` sums their durations.
- `Receive` (receive.dfy): the argmax scan and `getDominantFrequency`,
  specified by `DominantFrequency`. It also holds the per-frame decode
  `DecodeFrame` / `Appended`, and the listening session as the class
  `Receiver`, whose fields are `isListening` and `receivedData`.
- `Loopback` (loopback.dfy): transmitter and receiver joined over an
  idealised channel. Each tone is heard as one frame, or as m frames, whose
  dominant frequency is exactly the tone's frequency. `ReceiveAll` is what a
  run of frames buffers.
- `Wrappers` (wrappers.dfy): an `Option` type.

Frequencies, durations and samples are exact `int`/`real` values.

A feature of the code worth knowing: the signatures share the text band.
2000 and 2500 Hz decode to codes 20 and 30, which are rejected. 3000 Hz
decodes to 40, the character `(`, which is accepted. So a printable message
sent over an ideal channel is received as `(` + message + `(`
(`Loopback.LoopbackText`). Telling signatures apart from data would need
signature tones outside the data band, or a receiver that looks for the
signature sequences; the code has neither, and the model follows the code.

The loopback results hold only under the channel idealisation. The receiver
reads one frame per animation frame, about 60 per second, so a 0.05 s tone
lasts about three frames. `detectFrequencies` keeps nothing between frames,
so each frame of a tone appends its character again
(`Loopback.ReceiveStretched`, `Loopback.LoopbackTextStretched`). A real
dominant frequency is also always a bin centre k * nyquist / n, not the
tone's exact frequency. It decodes to the tone's character only when it lies
within 25 Hz of the carrier (`Receive.DecodeFrameIff`).

## Model

| member | source | states |
|---|---|---|
| `Codec.Round` | app.js:118 | `Math.round` gives the integer n with n - 1/2 <= x < n + 1/2 (ties round up) |
| `Codec.FromCharCode` | app.js:119 | `String.fromCharCode` is the identity on 0..65535 and otherwise reduces modulo 2^16 |
| `Codec.CharToFrequency` | app.js:112-115 | a character's carrier lies in [1000, 1000 + 65536 * 50) Hz |
| `Codec.CharRoundTrip` | app.js:112-120 | decoding the carrier of any character code gives that code back |
| `Codec.CharFrequencySpacing` | app.js:14-15 | carriers of codes c and d differ by exactly 50 * (d - c) Hz, so distinct codes have distinct carriers |
| `Codec.FrequencyToCharWindow` | app.js:117-120 | in the unwrapped range, a frequency decodes to code c exactly when it lies within 25 Hz (below-inclusive) of c's carrier |
| `Codec.SampleLevelBounds` | app.js:263-264 | a sample in [-1, 1] has an integer level in [0, 255], the floor of (s + 1) / 2 * 255 |
| `Codec.SampleFrequencyBounds` | app.js:261-266 | a sample in [-1, 1] maps into [1000, 6100] Hz on the 20 Hz grid; -1 gives 1000 Hz and 1 gives 6100 Hz |
| `Codec.SampleFrequencyMonotonic` | app.js:261-266 | a larger sample never maps to a lower frequency |
| `JsText.TrimStart` | app.js:80 | removes exactly the leading whitespace: what is cut is whitespace, and the result is a suffix not starting with whitespace |
| `JsText.TrimEnd` | app.js:80 | removes exactly the trailing whitespace: what is cut is whitespace, and the result is a prefix not ending with whitespace |
| `JsText.TrimIsInnerSlice` | app.js:80 | the trimmed text is a contiguous slice of the input, with whitespace outside it and non-whitespace at both of its ends |
| `JsText.TrimEmptyIffBlank` | app.js:80-85 | the text trims to nothing exactly when every code unit is whitespace |
| `JsText.LeadUnits` | app.js:95-96 | iterating by code point yields at most one character per code unit, and none exactly for the empty text |
| `JsText.NextCharIndex` | app.js:95 | the next character starts strictly after index i and no later than the end of the text |
| `JsText.LeadUnitsFrom` | app.js:95-96 | the iteration from index i yields the character there, then continues at the next character |
| `JsText.LeadUnitsWithoutPairs` | app.js:95-96 | a text in which no surrogate pair starts (lone surrogates allowed) yields one character per code unit, in order |
| `JsText.LeadUnitsOfLoneSurrogate` | app.js:95-96 | a lone high surrogate followed by 'A' is two characters, each yielding its own code unit |
| `Sampling.ReadIndexInBounds` | app.js:249-255 | for i < floor(L / ratio), the read index floor(i * ratio) lies in [0, L) |
| `Sampling.DownsampledAt` | app.js:250-255 | the output has floor(L / ratio) samples, and output i is input floor(i * ratio) |
| `Sampling.DownsampleByOne` | app.js:249-256 | a ratio of 1 keeps the channel unchanged |
| `Sampling.DownsampleAudio` | app.js:246-259 | returns a new array equal to the downsampled channel |
| `Transmit.PlaySignature` | app.js:145-149 | one 0.1 s tone per signature frequency, in order, and nothing else |
| `Transmit.PlayCharacters` | app.js:95-99 | one 0.05 s tone per character of the text, at that character's carrier, in order |
| `Transmit.TransmitText` | app.js:79-110 | rejected, with no tones, exactly when the trimmed input is empty; otherwise the start signature, the character tones of the trimmed text, then the end signature |
| `Transmit.TransmitVoice` | app.js:201-244 | rejected, with no tones, exactly when there is no recording; otherwise the voice schedule of the recording downsampled to 8000 Hz |
| `Transmit.EndSignatureReversesStart` | app.js:19-20 | the end signature is the start signature reversed |
| `Transmit.TextScheduleLayout` | app.js:91-102 | a text schedule has 6 + (number of characters) tones: 3 start tones at 0.1 s, each character's carrier at 0.05 s in order, then 3 end tones at 0.1 s |
| `Transmit.TextScheduleOfPlainText` | app.js:95-99 | for a text in which no surrogate pair starts (lone surrogates allowed) the schedule has 6 + \|text\| tones, and tone 3 + i carries code unit i |
| `Transmit.TextScheduleOfAB` | app.js:91-102 | "AB" is sent as 2000, 2500, 3000, 4250, 4300, 3000, 2500, 2000 Hz with the matching durations |
| `Transmit.VoiceScheduleLayout` | app.js:218-235 | a voice schedule is the start signature, min(n, 100) tones of 0.02 s at the first samples' frequencies in index order, then the end signature; for samples in [-1, 1] those tones lie in [1000, 6100] Hz |
| `Transmit.TextAirtime` | app.js:95-99 | a text of n characters plays for 0.6 + 0.05 * n seconds |
| `Transmit.VoiceAirtime` | app.js:222-235 | a voice transmission of n samples plays for 0.6 + 0.02 * min(n, 100) seconds |
| `Receive.FirstMaxOfPrefix` | app.js:335-340 | returns the first index holding the maximum of the first n bins |
| `Receive.FirstMaxIndex` | app.js:335-340 | returns the first index holding the maximum of the snapshot: nothing is larger, and every earlier bin is smaller |
| `Receive.FirstMaxUnique` | app.js:336 | at most one index is the first maximum |
| `Receive.BinFrequencyBounds` | app.js:344-345 | bin k < n maps into [0, nyquist), and to 0 only for bin 0 |
| `Receive.FindPeak` | app.js:332-340 | the scan finds the first maximum and its magnitude; an empty snapshot gives (0, 0) |
| `Receive.GetDominantFrequency` | app.js:331-348 | returns 0 when every bin is below 50; otherwise returns `DominantFrequency` |
| `Receive.DominantFrequencyZeroIff` | app.js:342-347 | for a positive sample rate, the result is 0 exactly when every bin is below 50 or the first peak is bin 0 |
| `Receive.DominantFrequencyOfPeak` | app.js:342-347 | when the first peak k reaches 50, the result is k * nyquist / bin count |
| `Receive.DominantFrequencyRange` | app.js:344-347 | for a positive sample rate the result lies in [0, nyquist) |
| `Receive.Appended` | app.js:316-323 | one frame appends at most one character |
| `Receive.DecodeFrameIff` | app.js:316-323 | a frame yields character c exactly when c is in [32, 126] and the dominant frequency is within 25 Hz of c's carrier; otherwise it yields nothing |
| `Receive.DecodeFrameOfCarrier` | app.js:316-321 | the carrier of every printable character decodes to that character |
| `Receive.QuietFrameAppendsNothing` | app.js:316 | a snapshot with every bin below 50 appends nothing |
| `Receive.SignatureTonesDecode` | app.js:318-321 | 2000 and 2500 Hz decode to codes 20 and 30 and are rejected; 3000 Hz decodes to 40 ('(') and is accepted |
| `Receive.Receiver.constructor` | app.js:6 | a new session is not listening and has an empty buffer |
| `Receive.Receiver.StartListening` | app.js:269-289 | with microphone access it starts listening with an empty buffer and runs the first frame at once, so the buffer holds what the current snapshot decodes to; without access nothing changes |
| `Receive.Receiver.StopListening` | app.js:291-303 | listening stops and the buffer is kept; the buffer is returned as the displayed text when it is not empty |
| `Receive.Receiver.DetectFrequencies` | app.js:305-329 | when not listening nothing changes and no frame is requested; otherwise the buffer grows by the decoded character of the snapshot's dominant frequency, if any, and the next frame is requested; the buffer stays all printable |
| `Loopback.ReceiveAllBounds` | app.js:316-323 | a run of frames buffers at most one character per frame, and all of them are printable |
| `Loopback.ReceiveAllConcat` | app.js:305-329 | buffering two runs of frames one after the other buffers their concatenation |
| `Loopback.ReceiveTextTones` | app.js:316-321 | the character tones of a printable text are received as that text |
| `Loopback.ReceiveSignatures` | app.js:19-20 | each signature leaves exactly one '(' in the buffer |
| `Loopback.LoopbackText` | app.js:91-102 | a printable text sent over an ideal channel is received as '(' + text + '(' |
| `Loopback.LoopbackHi` | app.js:91-102 | "Hi" is received as "(Hi(" |
| `Loopback.ReceiveCopies` | app.js:305-329 | m frames at the same dominant frequency buffer m copies of what one frame buffers |
| `Loopback.ReceiveStretched` | app.js:305-329 | when every frame is heard m times, every received character is buffered m times |
| `Loopback.LoopbackTextStretched` | app.js:91-102 | a printable text whose tones are each heard for m frames is received as '(' + text + '(' with every character repeated m times |
| `Loopback.LoopbackHiThreeFrames` | app.js:91-102 | "Hi" heard for three frames per tone is received as "(((HHHiii(((" |

## Left out

- User interface: `setupEventListeners`, `setupCanvas`, `switchMode`, `visualizeFrequency`, `showStatus`, `displayReceivedText` and `playReceivedVoice` are presentation only. Status messages become the `Rejection` reason, and the displayed text becomes the value `StopListening` returns.
- Web Audio and media devices: `initAudioContext`, the oscillator and gain envelope of `playTone`, `recordVoice`/MediaRecorder, `getUserMedia` and `decodeAudioData` are browser APIs. Playing a tone appends a command. Microphone access is a boolean parameter of `StartListening`, which also takes the snapshot and sample rate for the first frame it runs (app.js:283). The decoded recording (sample rate, first channel) is a parameter of `TransmitVoice`. The analyser's snapshot and sample rate are parameters of `DetectFrequencies`.
- Timing and async scheduling: `setTimeout`, `await` and the `requestAnimationFrame` loop are not modelled. One frame is one call of `DetectFrequencies`, and its result says whether the next frame is requested.
- Errors thrown during playback or audio decoding: transmissions are modelled as always completing. The `catch` branches only show a status message.
- The `isTransmitting` and `currentMode` fields: they are set around a transmission or by the mode buttons and never read by the core.
- IEEE-754 doubles and `Float32Array` storage: all arithmetic is exact. NaN and infinite inputs to `frequencyToChar` and `sampleToFrequency` are not modelled.
- Sampling.DownsampleAudio: requires positive sample rates, which Web Audio guarantees for decoded buffers. The source's behaviour at a zero rate is not modelled: a non-empty channel gives an infinite length and the array allocation throws, while an empty one gives NaN and an empty array.
- Transmit.TransmitVoice: requires the recording's sample rate to be positive, for the same reason.
- Receive.DominantFrequencyZeroIff, Receive.DominantFrequencyRange: require a positive sample rate, which the audio context always has.
- `receivedData` is `undefined` before the first `startListening`. The model starts it as the empty buffer, which `stopListening` treats the same way.
- `stopListening` does not clear the buffer; it is emptied only by the next `startListening`. The model follows the code.
- The code has no voice-marker tone, no voice receive mode, no start/end detection and no voice-sample decoder, so none is modelled.
