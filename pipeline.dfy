/** The `__main__` block: select the first pending page, transcribe its
    audio, abort on a failure marker, otherwise summarise and write the
    transcript and summary back, once. Every collaborator is an input
    (`Env`); what the run did is its final stage and the calls it made, in
    order. The stages and their transitions are a reference definition
    (`Step`, `Execute`); `RunPipeline` is the script itself, proved to agree
    with it. */
module Pipeline {
  import opened Wrappers
  import opened Text
  import opened SampleRate
  import opened Transcriber
  import opened Summarizer
  import opened RecordStore

  /** What the database query did: raised, or returned a response whose
      `results` entry may be missing (`.get("results")` is then `None`). */
  datatype QueryResponse =
    | QueryRaised(error: string)
    | QueryReturned(results: Option<seq<Page>>)

  /** The collaborators of one run: the query response, the media probe, the
      recognition service, the NLP model, and whether the update raises (and
      with what text). */
  datatype Env = Env(
    query: QueryResponse,
    probe: string -> ProbeOutput,
    recognize: Request -> CallOutcome,
    nlp: string -> Doc,
    writeError: UpdateCall -> Option<string>)

  /** Why a run ended in the `except` block (which logs and re-raises). */
  datatype AbortReason =
    | QueryFailed(error: string)
    | AudioUrlMissing
    | TranscriptionFailed(transcript: string)
    | WriteFailed(error: string)

  datatype Stage =
    | Selecting
    | Transcribing(pageId: string, audioUrl: string)
    | Summarizing(pageId: string, transcript: string)
    | Writing(call: UpdateCall)
    | Done
    | Aborted(reason: AbortReason)

  /** The calls a run makes to the transcription, summarisation and update
      steps. */
  datatype Effect =
    | Transcribe(audioUrl: string)
    | Summarize(transcript: string)
    | Update(call: UpdateCall)

  /** Where a run ended and the calls it made, in order. */
  datatype Trace = Trace(final: Stage, effects: seq<Effect>)

  predicate Terminal(s: Stage)
  {
    s.Done? || s.Aborted?
  }

  function Rank(s: Stage): nat
  {
    match s
    case Selecting => 4
    case Transcribing(_, _) => 3
    case Summarizing(_, _) => 2
    case Writing(_) => 1
    case _ => 0
  }

  /** One transition of the run, with the calls it makes. */
  function Step(s: Stage, env: Env): (next: Trace)
    requires !Terminal(s)
    ensures Rank(next.final) < Rank(s)
  {
    match s
    case Selecting =>
      (match env.query
       case QueryRaised(e) => Trace(Aborted(QueryFailed(e)), [])
       case QueryReturned(results) =>
         if results.None? || results.value == [] then Trace(Done, [])
         else
           var page := results.value[0];
           match AudioUrl(page)
           case None => Trace(Aborted(AudioUrlMissing), [])
           case Some(url) => Trace(Transcribing(page.id, url), []))
    case Transcribing(id, url) =>
      var transcript := TranscribeAudio(url, env.probe, env.recognize);
      if HasErrorMarker(transcript) then Trace(Aborted(TranscriptionFailed(transcript)), [Transcribe(url)])
      else Trace(Summarizing(id, transcript), [Transcribe(url)])
    case Summarizing(id, transcript) =>
      var analysis := ExtractSummary(transcript, env.nlp);
      Trace(Writing(UpdateCall(id, transcript, analysis.summary)), [Summarize(transcript)])
    case Writing(call) =>
      match env.writeError(call)
      case Some(e) => Trace(Aborted(WriteFailed(e)), [Update(call)])
      case None => Trace(Done, [Update(call)])
  }

  /** Transitions from `s` until the run ends; the run always ends. */
  function Execute(s: Stage, env: Env): (t: Trace)
    ensures Terminal(t.final)
    decreases Rank(s)
  {
    if Terminal(s) then Trace(s, [])
    else
      var first := Step(s, env);
      var rest := Execute(first.final, env);
      Trace(rest.final, first.effects + rest.effects)
  }

  /** A whole run of the script. */
  function Run(env: Env): Trace
  {
    Execute(Selecting, env)
  }

  /** Lines 70-106 as a sequence of statements with early exits: `exit()` on
      an empty query result, `raise` on a failure marker, and the `except`
      block that turns any exception into an abort. */
  method RunPipeline(env: Env) returns (stage: Stage, effects: seq<Effect>)
    ensures Terminal(stage)
    ensures Trace(stage, effects) == Run(env)
  {
    stage, effects := Selecting, [];
    if env.query.QueryRaised? {
      stage := Aborted(QueryFailed(env.query.error));
      return;
    }
    var results := env.query.results;
    if results.None? || results.value == [] {
      stage := Done;
      return;
    }
    var page := results.value[0];
    var url := AudioUrl(page);
    if url.None? {
      stage := Aborted(AudioUrlMissing);
      return;
    }
    stage := Transcribing(page.id, url.value);
    assert Run(env) == Execute(stage, env);
    TranscribingOutcomes(env, page.id, url.value);

    var transcript := TranscribeAudio(url.value, env.probe, env.recognize);
    effects := effects + [Transcribe(url.value)];
    if HasErrorMarker(transcript) {
      stage := Aborted(TranscriptionFailed(transcript));
      return;
    }
    stage := Summarizing(page.id, transcript);

    var analysis := ExtractSummary(transcript, env.nlp);
    effects := effects + [Summarize(transcript)];
    var call := UpdateCall(page.id, transcript, analysis.summary);
    stage := Writing(call);

    effects := effects + [Update(call)];
    var error := env.writeError(call);
    if error.Some? {
      stage := Aborted(WriteFailed(error.value));
      return;
    }
    stage := Done;
  }

  /** The update calls among the effects, in order. */
  function Updates(effects: seq<Effect>): (calls: seq<UpdateCall>)
    ensures |calls| <= |effects|
    ensures forall c :: c in calls <==> Update(c) in effects
  {
    if effects == [] then []
    else (if effects[0].Update? then [effects[0].call] else []) + Updates(effects[1..])
  }

  lemma {:induction false} UpdatesOfConcat(a: seq<Effect>, b: seq<Effect>)
    ensures Updates(a + b) == Updates(a) + Updates(b)
  {
    if a != [] {
      assert (a + b)[1..] == a[1..] + b;
      UpdatesOfConcat(a[1..], b);
    } else {
      assert a + b == b;
    }
  }

  /** A stage past the marker test carries a transcript without a marker. */
  predicate Clean(s: Stage)
  {
    match s
    case Summarizing(_, transcript) => !HasErrorMarker(transcript)
    case Writing(call) => !HasErrorMarker(call.transcript)
    case _ => true
  }

  /** One clean transition: only the write step issues an update, it ends
      the run, and its transcript has no marker; every other step issues no
      update and leads to a clean stage. */
  lemma StepUpdates(s: Stage, env: Env)
    requires !Terminal(s) && Clean(s)
    ensures var next := Step(s, env);
            && Clean(next.final)
            && (s.Writing? ==> Terminal(next.final) && next.effects == [Update(s.call)]
                               && !HasErrorMarker(s.call.transcript))
            && (!s.Writing? ==> Updates(next.effects) == [])
  {
  }

  /** From any stage that has passed the marker test (or not yet reached it),
      the rest of the run issues at most one update; that update carries a
      transcript with no failure marker, and it is the run's last call. */
  lemma {:induction false} UpdatesFromStage(s: Stage, env: Env)
    requires Clean(s)
    ensures var t := Execute(s, env);
            && |Updates(t.effects)| <= 1
            && (forall c :: c in Updates(t.effects) ==> !HasErrorMarker(c.transcript))
            && (Updates(t.effects) != [] ==> t.effects[|t.effects| - 1].Update?)
    decreases Rank(s)
  {
    if !Terminal(s) {
      var first := Step(s, env);
      var rest := Execute(first.final, env);
      assert Execute(s, env) == Trace(rest.final, first.effects + rest.effects);
      StepUpdates(s, env);
      UpdatesOfConcat(first.effects, rest.effects);
      if s.Writing? {
        assert rest.effects == [];
        assert first.effects + rest.effects == [Update(s.call)];
        assert Updates([Update(s.call)]) == [s.call];
      } else {
        UpdatesFromStage(first.final, env);
        assert Updates(first.effects + rest.effects) == Updates(rest.effects);
        if Updates(rest.effects) != [] {
          var all := first.effects + rest.effects;
          assert all[|all| - 1] == rest.effects[|rest.effects| - 1];
        }
      }
    }
  }

  /** A run issues the update at most once, never with a transcript that
      contains a failure marker, and as its last call. */
  lemma AtMostOneCleanUpdate(env: Env)
    ensures var t := Run(env);
            && |Updates(t.effects)| <= 1
            && (forall c :: c in Updates(t.effects) ==> !HasErrorMarker(c.transcript))
            && (Updates(t.effects) != [] ==> t.effects[|t.effects| - 1].Update?)
  {
    UpdatesFromStage(Selecting, env);
  }

  /** A failed query aborts the run, and an empty or missing result list ends
      it successfully; in both cases nothing is transcribed, summarised or
      written. */
  lemma NoSelectionNoCalls(env: Env)
    requires env.query.QueryRaised?
             || env.query.results.None? || env.query.results.value == []
    ensures Run(env).effects == []
    ensures env.query.QueryRaised? ==> Run(env).final == Aborted(QueryFailed(env.query.error))
    ensures env.query.QueryReturned? ==> Run(env).final == Done
  {
  }

  /** Once a page is selected the query response is never looked at again. */
  lemma {:induction false} ExecuteIgnoresQuery(s: Stage, env: Env, query: QueryResponse)
    requires !s.Selecting?
    ensures Execute(s, env) == Execute(s, env.(query := query))
    decreases Rank(s)
  {
    if !Terminal(s) {
      ExecuteIgnoresQuery(Step(s, env).final, env, query);
    }
  }

  /** Only the first result is ever processed: whatever follows it in the
      result list does not change the run. */
  lemma OnlyFirstResultMatters(env: Env, first: Page, others: seq<Page>)
    requires env.query == QueryReturned(Some([first] + others))
    ensures Run(env) == Run(env.(query := QueryReturned(Some([first]))))
  {
    var single := env.(query := QueryReturned(Some([first])));
    var next := Step(Selecting, env).final;
    assert next == Step(Selecting, single).final;
    if !Terminal(next) {
      ExecuteIgnoresQuery(next, env, single.query);
    }
  }

  /** A store in which every page has a transcript gives no results, so
      running again after everything is processed does nothing. */
  lemma ProcessedStoreRunIsNoOp(env: Env, store: seq<Page>)
    requires forall p :: p in store ==> !RichTextEmpty(p, TranscriptProperty)
    requires env.query == QueryReturned(Some(PendingPages(store)))
    ensures Run(env) == Trace(Done, [])
  {
    ProcessedStoreHasNothingPending(store);
  }

  /** With a first result whose audio URL can be read, the run continues by
      transcribing that URL for that page. */
  lemma RunTranscribesFirstResult(env: Env, page: Page, others: seq<Page>, url: string)
    requires env.query == QueryReturned(Some([page] + others))
    requires AudioUrl(page) == Some(url)
    ensures Run(env) == Execute(Transcribing(page.id, url), env)
  {
  }

  /** Writing issues the update and ends the run. */
  lemma ExecuteWriting(env: Env, call: UpdateCall)
    ensures Execute(Writing(call), env)
            == Trace(if env.writeError(call).None? then Done else Aborted(WriteFailed(env.writeError(call).value)),
                     [Update(call)])
  {
    var next := Step(Writing(call), env);
    assert Terminal(next.final);
    assert Execute(next.final, env) == Trace(next.final, []);
  }

  /** Summarising calls the summariser, then writes. */
  lemma ExecuteSummarizing(env: Env, id: string, transcript: string)
    ensures var call := UpdateCall(id, transcript, SummaryOf(env.nlp(transcript)));
            var writing := Execute(Writing(call), env);
            Execute(Summarizing(id, transcript), env) == Trace(writing.final, [Summarize(transcript)] + writing.effects)
  {
  }

  /** What follows the transcription of `url` for page `id`. */
  lemma TranscribingOutcomes(env: Env, id: string, url: string)
    ensures var transcript := TranscribeAudio(url, env.probe, env.recognize);
            var call := UpdateCall(id, transcript, SummaryOf(env.nlp(transcript)));
            var t := Execute(Transcribing(id, url), env);
            && (HasErrorMarker(transcript) ==> t == Trace(Aborted(TranscriptionFailed(transcript)), [Transcribe(url)]))
            && (!HasErrorMarker(transcript) ==>
                  && t.effects == [Transcribe(url), Summarize(transcript), Update(call)]
                  && t.final == (if env.writeError(call).None? then Done
                                 else Aborted(WriteFailed(env.writeError(call).value))))
  {
    var transcript := TranscribeAudio(url, env.probe, env.recognize);
    var next := Step(Transcribing(id, url), env);
    if HasErrorMarker(transcript) {
      assert Execute(next.final, env) == Trace(next.final, []);
    } else {
      assert next == Trace(Summarizing(id, transcript), [Transcribe(url)]);
      ExecuteSummarizing(env, id, transcript);
      ExecuteWriting(env, UpdateCall(id, transcript, SummaryOf(env.nlp(transcript))));
    }
  }

  /** The first result selected and its audio URL found: the audio is
      transcribed once; a transcript with a failure marker anywhere in it
      aborts the run with that transcript and nothing else is called;
      otherwise the transcript is summarised and one update carries the
      page's id, the transcript and the summary of its first three
      sentences. */
  lemma SelectedPageOutcomes(env: Env, page: Page, others: seq<Page>, url: string)
    requires env.query == QueryReturned(Some([page] + others))
    requires AudioUrl(page) == Some(url)
    ensures var transcript := TranscribeAudio(url, env.probe, env.recognize);
            var call := UpdateCall(page.id, transcript, SummaryOf(env.nlp(transcript)));
            && (HasErrorMarker(transcript) ==>
                  Run(env) == Trace(Aborted(TranscriptionFailed(transcript)), [Transcribe(url)]))
            && (!HasErrorMarker(transcript) ==>
                  && Run(env).effects == [Transcribe(url), Summarize(transcript), Update(call)]
                  && Run(env).final == (if env.writeError(call).None? then Done
                                        else Aborted(WriteFailed(env.writeError(call).value))))
  {
    RunTranscribesFirstResult(env, page, others, url);
    TranscribingOutcomes(env, page.id, url);
  }

  /** The calls of a whole run, in order: none; the transcription alone,
      when its transcript carries a failure marker; or the transcription,
      the summary of the transcript and one update carrying that
      transcript. A run that ends successfully after calling anything has
      made all three calls. */
  lemma RunCallsInOrder(env: Env)
    ensures var t := Run(env);
            var e := t.effects;
            && (|e| == 0 || |e| == 1 || |e| == 3)
            && (|e| >= 1 ==> e[0].Transcribe?)
            && (|e| == 1 ==> t.final.Aborted? && t.final.reason.TranscriptionFailed?
                             && HasErrorMarker(t.final.reason.transcript))
            && (|e| == 3 ==> e[2].Update? && e[1] == Summarize(e[2].call.transcript)
                             && !HasErrorMarker(e[2].call.transcript))
            && (t.final.Done? && e != [] ==> |e| == 3)
  {
    if env.query.QueryReturned? && env.query.results.Some? && env.query.results.value != [] {
      var results := env.query.results.value;
      var page := results[0];
      if AudioUrl(page).Some? {
        assert results == [page] + results[1..];
        SelectedPageOutcomes(env, page, results[1..], AudioUrl(page).value);
      }
    }
  }

  /** A page whose audio URL cannot be read (no file, or a linked rather
      than uploaded file) aborts the run before anything is called. */
  lemma UnreadableAudioAborts(env: Env, page: Page, others: seq<Page>)
    requires env.query == QueryReturned(Some([page] + others))
    requires AudioUrl(page).None?
    ensures Run(env) == Trace(Aborted(AudioUrlMissing), [])
  {
  }

  /** A recognition failure (a non-OK status) or a processing error (an
      exception, or an OK response without a first sentence) aborts the run
      with the marked text; nothing is summarised or written. */
  lemma ServiceFailureAborts(env: Env, page: Page, others: seq<Page>, url: string)
    requires env.query == QueryReturned(Some([page] + others))
    requires AudioUrl(page) == Some(url)
    requires !Classify(env.recognize(Request(Model, url, SampleRateOf(env.probe(url))))).Recognized?
    ensures var outcome := Classify(env.recognize(Request(Model, url, SampleRateOf(env.probe(url)))));
            Run(env) == Trace(Aborted(TranscriptionFailed(Render(outcome))), [Transcribe(url)])
  {
    var outcome := Classify(env.recognize(Request(Model, url, SampleRateOf(env.probe(url)))));
    MarkerFlagsFailures(outcome);
    SelectedPageOutcomes(env, page, others, url);
  }

  /** The marker test looks anywhere in the text, so a genuine transcript
      that merely mentions "识别失败" also aborts the run, and nothing is
      written. */
  lemma GenuineTranscriptWithMarkerAborts(env: Env, page: Page, others: seq<Page>, url: string,
                                          before: string, after: string, message: string,
                                          more: seq<string>)
    requires env.query == QueryReturned(Some([page] + others))
    requires AudioUrl(page) == Some(url)
    requires env.recognize(Request(Model, url, SampleRateOf(env.probe(url))))
             == Responded(HttpOk, message, Some([before + RecognitionFailedMarker + after] + more))
    ensures Run(env) == Trace(Aborted(TranscriptionFailed(before + RecognitionFailedMarker + after)),
                              [Transcribe(url)])
  {
    ContainsInfix(before, RecognitionFailedMarker, after);
    SelectedPageOutcomes(env, page, others, url);
  }
}
