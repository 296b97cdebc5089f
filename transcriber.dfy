/** `transcribe_audio`: probe the sample rate, send one synchronous request to
    the speech-recognition service, and turn whatever comes back into a
    single string. Failures are not raised: they come back as text that starts
    with one of two markers, which is how the caller tells them apart from a
    transcript. The service call is an input (`recognize`), as is the probe. */
module Transcriber {
  import opened Wrappers
  import opened Text
  import opened SampleRate

  /** The recognition model the request names. */
  const Model := "paraformer-v2"
  /** `HTTPStatus.OK`. */
  const HttpOk := 200

  const RecognitionFailedMarker := "识别失败"
  const ProcessingErrorMarker := "处理异常"
  const RecognitionFailedPrefix := RecognitionFailedMarker + ": "
  const ProcessingErrorPrefix := ProcessingErrorMarker + ": "

  /** `str(e)` of the IndexError raised by `[][0]` on a list. */
  const IndexErrorText := "list index out of range"
  /** `str(e)` of the KeyError raised when the response output has no
      `sentences` entry. */
  const MissingSentencesText := "'sentences'"

  /** The arguments of the recognition call. */
  datatype Request = Request(model: string, audioUrl: string, sampleRate: int)

  /** What the recognition call did: it returned a response (status code,
      message, and the `sentences` list of the output, absent when the
      output has no such entry, each sentence given by its text), or it
      raised an exception with the given text. */
  datatype CallOutcome =
    | Responded(statusCode: int, message: string, sentences: Option<seq<string>>)
    | Raised(error: string)

  /** The three outcomes `transcribe_audio` distinguishes. */
  datatype Transcription =
    | Recognized(text: string)
    | RecognitionFailed(message: string)
    | ProcessingError(error: string)

  /** Lines 42-46: an OK response yields its first sentence; a non-OK
      response a recognition failure with the service's message; an
      exception (also one raised while reading the first sentence) a
      processing error. */
  function Classify(call: CallOutcome): (t: Transcription)
    ensures t.Recognized? <==> (call.Responded? && call.statusCode == HttpOk
                                && call.sentences.Some? && |call.sentences.value| > 0)
    ensures t.Recognized? ==> t.text == call.sentences.value[0]
    ensures t.RecognitionFailed? <==> call.Responded? && call.statusCode != HttpOk
    ensures t.RecognitionFailed? ==> t.message == call.message
    ensures call.Raised? ==> t == ProcessingError(call.error)
  {
    match call
    case Raised(e) => ProcessingError(e)
    case Responded(code, message, sentences) =>
      if code == HttpOk then
        match sentences
        case None => ProcessingError(MissingSentencesText)
        case Some(ss) => if |ss| == 0 then ProcessingError(IndexErrorText) else Recognized(ss[0])
      else RecognitionFailed(message)
  }

  /** The string `transcribe_audio` returns for an outcome. */
  function Render(t: Transcription): (r: string)
    ensures t.Recognized? ==> r == t.text
    ensures t.RecognitionFailed? ==>
              RecognitionFailedPrefix <= r && r[|RecognitionFailedPrefix|..] == t.message
    ensures t.ProcessingError? ==>
              ProcessingErrorPrefix <= r && r[|ProcessingErrorPrefix|..] == t.error
  {
    match t
    case Recognized(text) => text
    case RecognitionFailed(message) => RecognitionFailedPrefix + message
    case ProcessingError(error) => ProcessingErrorPrefix + error
  }

  /** Reading an outcome back from the returned string by its prefix. */
  function ParseTranscript(s: string): Transcription
  {
    if RecognitionFailedPrefix <= s then RecognitionFailed(s[|RecognitionFailedPrefix|..])
    else if ProcessingErrorPrefix <= s then ProcessingError(s[|ProcessingErrorPrefix|..])
    else Recognized(s)
  }

  /** The two failure kinds are told apart by a prefix check: parsing the
      returned string gives back the outcome, for every transcript that does
      not itself begin with one of the two prefixes. */
  lemma ParseRenderRoundTrip(t: Transcription)
    requires t.Recognized? ==> !(RecognitionFailedPrefix <= t.text) && !(ProcessingErrorPrefix <= t.text)
    ensures ParseTranscript(Render(t)) == t
  {
    match t
    case Recognized(_) =>
    case RecognitionFailed(m) =>
      assert RecognitionFailedPrefix <= Render(t);
      assert Render(t)[|RecognitionFailedPrefix|..] == m;
    case ProcessingError(e) =>
      assert Render(t)[0] != RecognitionFailedPrefix[0];
      assert ProcessingErrorPrefix <= Render(t);
      assert Render(t)[|ProcessingErrorPrefix|..] == e;
  }

  /** Line 96: the transcript contains one of the two failure markers,
      anywhere in it. */
  predicate HasErrorMarker(s: string)
  {
    Contains(s, RecognitionFailedMarker) || Contains(s, ProcessingErrorMarker)
  }

  /** The marker test holds exactly when one of the two markers occurs at
      some position of the text. */
  lemma HasErrorMarkerIffOccurs(s: string)
    ensures HasErrorMarker(s) <==>
              exists i: nat :: OccursAt(s, RecognitionFailedMarker, i) || OccursAt(s, ProcessingErrorMarker, i)
  {
    ContainsIffOccurs(s, RecognitionFailedMarker);
    ContainsIffOccurs(s, ProcessingErrorMarker);
  }

  /** The marker test flags every failure outcome, and flags a recognized
      transcript exactly when the transcript itself contains a marker. */
  lemma MarkerFlagsFailures(t: Transcription)
    ensures HasErrorMarker(Render(t)) <==> !t.Recognized? || HasErrorMarker(t.text)
  {
    match t
    case Recognized(_) =>
    case RecognitionFailed(m) =>
      assert Render(t) == RecognitionFailedMarker + (": " + m);
      ContainsPrefix(RecognitionFailedMarker, ": " + m);
    case ProcessingError(e) =>
      assert Render(t) == ProcessingErrorMarker + (": " + e);
      ContainsPrefix(ProcessingErrorMarker, ": " + e);
  }

  /** `transcribe_audio(audio_url)`, with the probe and the service call as
      inputs; the request names the fixed model, the URL and the probed
      sample rate. */
  function TranscribeAudio(audioUrl: string, probe: string -> ProbeOutput,
                           recognize: Request -> CallOutcome): (r: string)
    ensures var t := Classify(recognize(Request(Model, audioUrl, SampleRateOf(probe(audioUrl)))));
            && (t.Recognized? ==> r == t.text)
            && (HasErrorMarker(r) <==> !t.Recognized? || HasErrorMarker(t.text))
  {
    var t := Classify(recognize(Request(Model, audioUrl, SampleRateOf(probe(audioUrl)))));
    MarkerFlagsFailures(t);
    Render(t)
  }

  /** What `transcribe_audio` returns in each case of the service call made
      with the probed sample rate; no case raises. */
  lemma TranscribeAudioOutcomes(audioUrl: string, probe: string -> ProbeOutput,
                                recognize: Request -> CallOutcome)
    ensures var call := recognize(Request(Model, audioUrl, SampleRateOf(probe(audioUrl))));
            var s := TranscribeAudio(audioUrl, probe, recognize);
            && ((call.Responded? && call.statusCode == HttpOk && call.sentences.Some?
                 && |call.sentences.value| > 0) ==> s == call.sentences.value[0])
            && (call.Responded? && call.statusCode == HttpOk && call.sentences == Some([])
                ==> s == ProcessingErrorPrefix + IndexErrorText)
            && (call.Responded? && call.statusCode == HttpOk && call.sentences.None?
                ==> s == ProcessingErrorPrefix + MissingSentencesText)
            && (call.Responded? && call.statusCode != HttpOk ==> s == RecognitionFailedPrefix + call.message)
            && (call.Raised? ==> s == ProcessingErrorPrefix + call.error)
  {
  }
}
