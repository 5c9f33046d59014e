/** Transmitter and receiver together over an ideal channel, where every
    tone of a transmission is heard as exactly one analysis frame whose
    dominant frequency is the tone's frequency. */
module Loopback {
  import opened Codec
  import opened JsText
  import opened Transmit
  import opened Receive

  /** The frequencies of a list of tones, in order. */
  function ToneFrequencies(tones: seq<Tone>): seq<real>
  {
    seq(|tones|, i requires 0 <= i < |tones| => tones[i].freq as real)
  }

  /** What a listening session buffers from a run of frames with the given
      dominant frequencies, one `detectFrequencies` frame each. */
  function ReceiveAll(dominants: seq<real>): seq<CharCode>
  {
    if dominants == [] then [] else Appended(dominants[0]) + ReceiveAll(dominants[1..])
  }

  /** A run of frames buffers at most one character per frame, and only
      printable ones. */
  lemma {:induction false} ReceiveAllBounds(dominants: seq<real>)
    ensures |ReceiveAll(dominants)| <= |dominants|
    ensures forall i :: 0 <= i < |ReceiveAll(dominants)| ==>
              FirstPrintable <= ReceiveAll(dominants)[i] <= LastPrintable
    decreases |dominants|
  {
    if dominants != [] {
      ReceiveAllBounds(dominants[1..]);
      var head := Appended(dominants[0]);
      if head != [] {
        DecodeFrameIff(dominants[0], head[0]);
      }
    }
  }

  /** Buffering two runs of frames one after the other buffers the
      concatenation. */
  lemma {:induction false} ReceiveAllConcat(a: seq<real>, b: seq<real>)
    ensures ReceiveAll(a + b) == ReceiveAll(a) + ReceiveAll(b)
    decreases |a|
  {
    if a == [] {
      assert a + b == b;
    } else {
      assert (a + b)[0] == a[0];
      assert (a + b)[1..] == a[1..] + b;
      ReceiveAllConcat(a[1..], b);
    }
  }

  /** The carriers of printable characters are buffered as those
      characters. */
  lemma {:induction false} ReceiveTextTones(codes: seq<CharCode>)
    requires forall i :: 0 <= i < |codes| ==> FirstPrintable <= codes[i] <= LastPrintable
    ensures ReceiveAll(ToneFrequencies(TextTones(codes))) == codes
    decreases |codes|
  {
    var f := ToneFrequencies(TextTones(codes));
    if codes != [] {
      assert f[1..] == ToneFrequencies(TextTones(codes[1..]));
      DecodeFrameOfCarrier(codes[0]);
      ReceiveTextTones(codes[1..]);
    }
  }

  /** The start signature and the end signature each leave one '(' (code
      40) in the buffer, from their 3000 Hz tone. */
  lemma ReceiveSignatures()
    ensures ReceiveAll(ToneFrequencies(SignatureTones(StartSignature))) == [40]
    ensures ReceiveAll(ToneFrequencies(SignatureTones(EndSignature))) == [40]
  {
    SignatureTonesDecode();
    assert Appended(2000.0) == [] && Appended(2500.0) == [] && Appended(3000.0) == [40];
    var s := ToneFrequencies(SignatureTones(StartSignature));
    assert s == [2000.0, 2500.0, 3000.0];
    assert ReceiveAll([3000.0]) == [40] by {
      assert [3000.0][1..] == [];
    }
    assert ReceiveAll([2500.0, 3000.0]) == [40] by {
      assert [2500.0, 3000.0][1..] == [3000.0];
    }
    assert ReceiveAll(s) == [40] by {
      assert s[1..] == [2500.0, 3000.0];
    }
    var e := ToneFrequencies(SignatureTones(EndSignature));
    assert e == [3000.0, 2500.0, 2000.0];
    assert ReceiveAll([2000.0]) == [] by {
      assert [2000.0][1..] == [];
    }
    assert ReceiveAll([2500.0, 2000.0]) == [] by {
      assert [2500.0, 2000.0][1..] == [2000.0];
    }
    assert ReceiveAll(e) == [40] by {
      assert e[1..] == [2500.0, 2000.0];
    }
  }

  /** Sending a printable text over the ideal channel buffers the text
      itself, framed by the '(' that the 3000 Hz tone of each signature
      decodes to; the signatures are never recognised as such. */
  lemma LoopbackText(text: seq<CharCode>)
    requires forall i :: 0 <= i < |text| ==> FirstPrintable <= text[i] <= LastPrintable
    ensures ReceiveAll(ToneFrequencies(TextSchedule(text))) == [40] + text + [40]
  {
    forall i | 0 <= i < |text|
      ensures !PairAt(text, i)
    {
      assert !IsHighSurrogate(text[i]);
    }
    LeadUnitsWithoutPairs(text);
    var start := SignatureTones(StartSignature);
    var body := TextTones(text);
    var end := SignatureTones(EndSignature);
    assert ToneFrequencies(start + body + end) ==
           ToneFrequencies(start) + ToneFrequencies(body) + ToneFrequencies(end);
    ReceiveAllConcat(ToneFrequencies(start) + ToneFrequencies(body), ToneFrequencies(end));
    ReceiveAllConcat(ToneFrequencies(start), ToneFrequencies(body));
    ReceiveSignatures();
    ReceiveTextTones(text);
  }

  /** Transmitting "Hi" and receiving it over the ideal channel buffers
      "(Hi(". */
  lemma LoopbackHi()
    ensures ReceiveAll(ToneFrequencies(TextSchedule([72, 105]))) == [40, 72, 105, 40]
  {
    LoopbackText([72, 105]);
  }

  /** m copies of x. */
  function Copies<T>(x: T, m: nat): (r: seq<T>)
    ensures |r| == m
    ensures forall i :: 0 <= i < m ==> r[i] == x
  {
    if m == 0 then [] else [x] + Copies(x, m - 1)
  }

  /** Every element of s repeated m times in place: what a channel that
      hears each tone for m frames delivers. */
  function Stretch<T>(s: seq<T>, m: nat): (r: seq<T>)
    ensures |r| == m * |s|
    decreases |s|
  {
    if s == [] then [] else Copies(s[0], m) + Stretch(s[1..], m)
  }

  /** Stretching distributes over concatenation. */
  lemma {:induction false} StretchConcat<T>(a: seq<T>, b: seq<T>, m: nat)
    ensures Stretch(a + b, m) == Stretch(a, m) + Stretch(b, m)
    decreases |a|
  {
    if a == [] {
      assert a + b == b;
    } else {
      assert (a + b)[0] == a[0];
      assert (a + b)[1..] == a[1..] + b;
      StretchConcat(a[1..], b, m);
    }
  }

  /** m frames at the same dominant frequency buffer m copies of what one
      of them buffers, since `detectFrequencies` keeps no memory between
      frames. */
  lemma {:induction false} ReceiveCopies(x: real, m: nat)
    ensures ReceiveAll(Copies(x, m)) == Stretch(Appended(x), m)
    decreases m
  {
    if m > 0 {
      ReceiveCopies(x, m - 1);
      assert Copies(x, m)[0] == x;
      assert Copies(x, m)[1..] == Copies(x, m - 1);
      var a := Appended(x);
      if a != [] {
        assert a[1..] == [];
        assert Stretch(a, m) == Copies(a[0], m);
        assert Stretch(a, m - 1) == Copies(a[0], m - 1);
        assert Copies(a[0], m) == [a[0]] + Copies(a[0], m - 1);
      }
    }
  }

  /** Hearing every frame m times buffers every received character m
      times. */
  lemma {:induction false} ReceiveStretched(dominants: seq<real>, m: nat)
    ensures ReceiveAll(Stretch(dominants, m)) == Stretch(ReceiveAll(dominants), m)
    decreases |dominants|
  {
    if dominants != [] {
      var x := dominants[0];
      var rest := dominants[1..];
      ReceiveAllConcat(Copies(x, m), Stretch(rest, m));
      ReceiveCopies(x, m);
      ReceiveStretched(rest, m);
      StretchConcat(Appended(x), ReceiveAll(rest), m);
    }
  }

  /** Over a channel that hears each tone for m frames, a printable text is
      received with each character, and each '(' of the signatures,
      repeated m times. */
  lemma LoopbackTextStretched(text: seq<CharCode>, m: nat)
    requires forall i :: 0 <= i < |text| ==> FirstPrintable <= text[i] <= LastPrintable
    ensures ReceiveAll(Stretch(ToneFrequencies(TextSchedule(text)), m)) ==
            Stretch([40] + text + [40], m)
  {
    ReceiveStretched(ToneFrequencies(TextSchedule(text)), m);
    LoopbackText(text);
  }

  /** "(Hi(" with every character tripled. */
  lemma StretchHiThree()
    ensures Stretch<CharCode>([40, 72, 105, 40], 3) ==
            [40, 40, 40, 72, 72, 72, 105, 105, 105, 40, 40, 40]
  {
    var c40 := Copies(40 as CharCode, 3);
    var c72 := Copies(72 as CharCode, 3);
    var c105 := Copies(105 as CharCode, 3);
    assert c40 == [40, 40, 40];
    assert c72 == [72, 72, 72];
    assert c105 == [105, 105, 105];
    var s: seq<CharCode> := [40, 72, 105, 40];
    assert Stretch(s[3..], 3) == c40 by {
      assert s[3..][1..] == [];
    }
    assert Stretch(s[2..], 3) == c105 + c40 by {
      assert s[2..][1..] == s[3..];
    }
    assert Stretch(s[1..], 3) == c72 + c105 + c40 by {
      assert s[1..][1..] == s[2..];
    }
  }

  /** "Hi" heard for three frames per tone is received as "(((HHHiii(((". */
  lemma LoopbackHiThreeFrames()
    ensures ReceiveAll(Stretch(ToneFrequencies(TextSchedule([72, 105])), 3)) ==
            [40, 40, 40, 72, 72, 72, 105, 105, 105, 40, 40, 40]
  {
    LoopbackTextStretched([72, 105], 3);
    assert [40] + [72, 105] + [40] == [40, 72, 105, 40];
    StretchHiThree();
  }
}
