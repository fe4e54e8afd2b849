/**
 The transcriber wrapper of twilio_transcriber.py: the fixed configuration
 every transcriber is built with, the abstract view of the streaming
 recognizer as a log of the calls made on it, and the rule that turns a
 transcript update into console output.
 */
module TwilioTranscriber {
  import opened Wrappers

  /** Sample rate of the audio Twilio media streams deliver, in Hz. */
  const TwilioSampleRate: nat := 8000

  /** The audio encodings the recognizer accepts that matter here. */
  datatype AudioEncoding = PcmS16le | PcmMulaw

  /** The parameters a transcriber is constructed with. */
  datatype Config = Config(sampleRate: nat, encoding: AudioEncoding)

  /** The one configuration every transcriber receives: it takes no per-call input. */
  function TranscriberConfig(): (c: Config)
    ensures c.sampleRate == 8000 && c.encoding == PcmMulaw
  {
    Config(TwilioSampleRate, PcmMulaw)
  }

  /** One decoded audio frame: mu-law bytes as delivered, of any length. */
  type Frame = seq<bv8>

  /** A call made on the recognizer library. */
  datatype Call = ConnectCall | StreamCall(frame: Frame) | CloseCall

  /**
   A recognizer session. Its behaviour belongs to a foreign library, so the
   model only records, in a ghost log, which calls were made on it and in
   what order.
   */
  class Transcriber {
    const config: Config
    ghost var log: seq<Call>

    constructor ()
      ensures config == TranscriberConfig()
      ensures log == []
    {
      config := TranscriberConfig();
      log := [];
    }

    method Connect()
      modifies this
      ensures log == old(log) + [ConnectCall]
    {
      log := log + [ConnectCall];
    }

    method Stream(frame: Frame)
      modifies this
      ensures log == old(log) + [StreamCall(frame)]
    {
      log := log + [StreamCall(frame)];
    }

    method Close()
      modifies this
      ensures log == old(log) + [CloseCall]
    {
      log := log + [CloseCall];
    }
  }

  /** A transcript update: final ones end an utterance, partial ones do not. */
  datatype Transcript = FinalTranscript(text: string) | PartialTranscript(text: string)

  /**
   What the data callback prints for a transcript update: nothing for an
   empty text; otherwise the text, ended by a carriage return and a line
   feed when final, and by a carriage return alone when partial, so that the
   next update overwrites the console line.
   */
  function OnData(t: Transcript): (line: Option<string>)
    ensures line.None? <==> t.text == ""
    ensures line.Some? ==> |t.text| < |line.value| && line.value[..|t.text|] == t.text
    ensures line.Some? && t.FinalTranscript? ==> line.value[|t.text|..] == "\r\n"
    ensures line.Some? && t.PartialTranscript? ==> line.value[|t.text|..] == "\r"
  {
    if t.text == "" then None
    else if t.FinalTranscript? then Some(t.text + "\r\n")
    else Some(t.text + "\r")
  }

  /**
   Reads a printed line back: a line ending in carriage return and line feed
   came from a final transcript, one ending in a carriage return alone from a
   partial one.
   */
  function ParseLine(line: string): (t: Option<Transcript>)
  {
    if 2 < |line| && line[|line| - 2..] == "\r\n" then Some(FinalTranscript(line[..|line| - 2]))
    else if 1 < |line| && line[|line| - 1] == '\r' then Some(PartialTranscript(line[..|line| - 1]))
    else None
  }

  /** Printed output determines the transcript it came from. */
  lemma OnDataRoundTrip(t: Transcript)
    requires t.text != ""
    ensures OnData(t).Some? && ParseLine(OnData(t).value) == Some(t)
  {
    var line := OnData(t).value;
    if t.FinalTranscript? {
      assert line[|line| - 2..] == "\r\n";
      assert line[..|line| - 2] == t.text;
    } else {
      assert line[|line| - 1] == '\r';
      assert line[|line| - 2..] != "\r\n";
      assert line[..|line| - 1] == t.text;
    }
  }

  /** Two transcripts print the same line only when they are the same update. */
  lemma OnDataInjective(a: Transcript, b: Transcript)
    requires OnData(a).Some? && OnData(a) == OnData(b)
    ensures a == b
  {
    OnDataRoundTrip(a);
    OnDataRoundTrip(b);
  }
}
