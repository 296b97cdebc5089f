# Audio transcription pipeline — a Dafny model

The script `main.py` takes the first pending page that a database query
returns. A page is pending when it has an audio file and an empty
`Transcript`. The script probes the recording's sample rate, falling back to
16000 Hz. It sends one request to a speech-recognition service (model
`paraformer-v2`) and keeps the first recognised sentence. It aborts when the
returned text contains one of the two failure markers, `识别失败` and
`处理异常`. Otherwise it summarises the transcript with an NLP model: the
first three sentences become the summary, and the first five nouns and proper
nouns become the keywords. It then writes `Transcript` and `Summary` back to
the page.

The model has one module per concern:

- `Wrappers`: an `Option` type.
- `Text`: the Python string operations the script relies on, over
  `seq<char>`. These are `in` on strings, `sep.join`, `s[:n]` and
  `str.strip()` with Python's whitespace set.
- `SampleRate`: `get_sample_rate`. The `ffprobe` run is an input of type
  `ProbeOutput`. `int()` is modelled as an optional sign followed by ASCII
  digits, with single underscores allowed between digits.
- `Transcriber`: `transcribe_audio`. The service call is an input
  (`Request -> CallOutcome`). The three outcomes are recognised text, a
  recognition failure and a processing error. They are rendered as the
  strings the function returns.
- `Summarizer`: `extract_summary`. The NLP model is an input
  (`string -> Doc`) giving the tagged tokens and the sentences.
- `RecordStore`: pages, the query filter, the audio-URL lookup and the
  two-property update.
- `Pipeline`: the `__main__` block. `Step` and `Execute` define it as a
  stage machine: selecting, transcribing, summarising, writing, then done or
  aborted. Every collaborator is a field of `Env`, and a run's result is its
  final stage plus the calls it made, in order. `RunPipeline` is the script
  as straight-line code with early exits, proved to produce exactly what
  `Run` (the stage machine) produces.

The failure test on line 96 of `main.py` is a substring test: a marker
anywhere in the transcript aborts the run. The model follows the code, not a
prefix-only reading. `GenuineTranscriptWithMarkerAborts` shows the
consequence: a genuine transcript that merely mentions `识别失败` is never
written.

An OK response whose first sentence is empty yields the empty transcript.
That transcript is written, and the page stays pending (see
`RecordStore.EmptyTranscriptStaysPending`).

## Model

| member | source | states |
|---|---|---|
| SampleRate.SampleRateOf | main.py:12-26 | The rate is exactly the value `int(output.strip())` parses to whenever that parse succeeds. It is exactly 16000 when the probe fails or its output does not parse. |
| SampleRate.IntValue | main.py:23 | A successful parse needs non-empty text, and a negative value needs a leading `-`. |
| SampleRate.Decimal | main.py:22-23 | A printed rate is a non-empty string of ASCII digits. |
| SampleRate.DigitsValueOfDecimal | main.py:23 | Reading the digits of a printed number gives back the number. |
| SampleRate.IntValueOfDecimal | main.py:23 | `int()` inverts printing a natural number. |
| SampleRate.ProbedRateIsUsed | main.py:22-23 | A probe that prints a rate surrounded by whitespace (e.g. a trailing newline) yields exactly that rate. |
| SampleRate.FailedProbeFallsBack | main.py:24-26 | A failed probe yields 16000 and does not raise. |
| SampleRate.EmptyOutputFallsBack | main.py:22-26 | Output that is all whitespace, including empty output when there is no audio stream, yields 16000. |
| SampleRate.TwoLinesAreNotAnInteger | main.py:23 | Two numbers on two lines (each starting with a digit) are not accepted by `int()`. |
| SampleRate.TwoAudioStreamsFallBack | main.py:15-26 | A file with two audio streams prints two rates. The result is 16000, not the first stream's rate. |
| Transcriber.Classify | main.py:42-46 | The outcome is recognised iff the response is OK and has a first sentence, and then it is that sentence. It is a recognition failure carrying the service's message iff the status is not OK. An exception is a processing error carrying its text. |
| Transcriber.Render | main.py:43-46 | A recognised outcome is returned as its text. A recognition failure is `识别失败: ` followed by the service's message, and a processing error is `处理异常: ` followed by the error text. |
| Transcriber.ParseRenderRoundTrip | main.py:43-46 | Reading the returned string back by its prefix recovers the outcome, for every transcript that does not itself start with a failure prefix. |
| Transcriber.MarkerFlagsFailures | main.py:44-46 | The marker test flags every failure string. It flags a recognised transcript exactly when that transcript contains a marker. |
| Transcriber.HasErrorMarkerIffOccurs | main.py:96 | The failure test holds exactly when `识别失败` or `处理异常` occurs at some position of the transcript. |
| Transcriber.TranscribeAudio | main.py:28-46 | A recognised first sentence is returned unchanged. The returned string fails the marker test exactly when the outcome is a failure or the recognised text itself contains a marker. |
| Transcriber.TranscribeAudioOutcomes | main.py:28-46 | The return value in each case: the first sentence; `处理异常: list index out of range` for an empty sentence list; `处理异常: 'sentences'` for an OK response without a `sentences` entry; `识别失败: <message>` for a non-OK status; `处理异常: <error>` for an exception. No case raises. |
| Text.ContainsPrefix | main.py:96 | A string contains every string it starts with. |
| Text.ContainsInfix | main.py:96 | `in` finds the needle at any position, not only at the front. |
| Text.ContainsIffOccurs | main.py:96 | `needle in hay` holds exactly when the needle occurs at some position of `hay`. |
| Text.ContainsOccurs | main.py:96 | When `in` holds, the needle occurs at some position of the text. |
| Text.Join | main.py:52 | The length of `sep.join(parts)` is the sum of the parts' lengths plus one separator between each two parts. |
| Text.JoinOfPrefixIsPrefix | main.py:52 | Joining the first k parts gives a prefix of joining all of them. |
| Text.JoinOfThree | main.py:52 | Three parts joined are the parts with the separator between each two. |
| Text.JoinContainsPart | main.py:55 | Every part occurs in the joined text. |
| Text.ContainsAfter | main.py:55 | Text contained in a suffix is contained in the whole. |
| Text.Take | main.py:51-52 | `s[:n]` has length min(n, \|s\|) and is a prefix of `s`. |
| Text.SkipSpaceForward | main.py:22 | Everything skipped from the front is whitespace, and the scan stops at the first character that is not. |
| Text.SkipSpaceBackward | main.py:22 | Everything dropped from the end is whitespace, and the scan stops after the last character that is not. |
| Text.Strip | main.py:22 | `strip()` returns a text that neither starts nor ends with whitespace, and it is empty exactly when the input is all whitespace. |
| Text.StripRemovesOnlyOuterSpace | main.py:22 | `strip()` returns the slice between an all-whitespace start and an all-whitespace end. The result neither starts nor ends with whitespace. |
| Text.StripOfPadded | main.py:22 | `strip()` removes any whitespace padding from a text whose ends are not whitespace. |
| Summarizer.NounTextsFrom | main.py:51 | The filtered list is no longer than the token list. |
| Summarizer.NounPositionsFrom | main.py:51 | Every listed position is a NOUN or PROPN token, and the positions strictly increase. |
| Summarizer.NounTextsAtPositionsFrom | main.py:51 | The i-th filtered text is the text of the token at the i-th listed position, so document order is kept. |
| Summarizer.NounPositionsComplete | main.py:51 | Every NOUN or PROPN token is listed. |
| Summarizer.Keywords | main.py:51 | The keywords are the texts of the first min(5, n) NOUN/PROPN tokens, in document order, and a prefix of the filtered list. |
| Summarizer.LeadingSentencesPrefix | main.py:52 | Joining the first three sentences gives a prefix of joining all of them, and all of them when there are at most three. |
| Summarizer.FirstThreeSentences | main.py:52 | With at least three sentences, the summary is exactly the first three joined by single spaces. |
| Summarizer.SummaryOf | main.py:52 | The summary is a prefix of all sentences joined by spaces. It is all of them when there are at most three, and exactly the first three joined by spaces otherwise. |
| Summarizer.ExtractSummary | main.py:48-56 | The `summary` field is all sentences joined by spaces when there are at most three, and the first three otherwise. The `keywords` field is the `", "`-join of the keyword list, i.e. of the first five NOUN/PROPN token texts in document order. |
| RecordStore.PendingPages | main.py:76-84 | The query returns exactly the pages that have an audio file and an empty transcript. |
| RecordStore.ProcessedStoreHasNothingPending | main.py:81 | A store in which every page has a transcript returns no results. |
| RecordStore.AudioUrl | main.py:91 | The URL is found iff the page's first file is an uploaded file, and it is that file's URL. |
| RecordStore.UpdatedProperties | main.py:61-66 | The update sends exactly the keys `Transcript` and `Summary`, with the call's transcript and summary. |
| RecordStore.ApplyUpdate | main.py:61-66 | The update keeps every page's id and files, and the number of pages. |
| RecordStore.UpdateSetsOnlyTwoProperties | main.py:58-67 | The addressed page gets the two properties. Its other properties and every other page are unchanged. |
| RecordStore.PendingAfterUpdate | main.py:78-83 | After the update, the addressed page passes the query filter exactly when it has an audio file and the written transcript is empty. |
| RecordStore.WrittenPageLeavesQueue | main.py:64-81 | After a non-empty transcript is written, the page is no longer returned by the query. |
| RecordStore.EmptyTranscriptStaysPending | main.py:64-81 | After an empty transcript is written, the page is still pending. |
| Pipeline.Step | main.py:76-101 | Every transition moves strictly forward through the stages. |
| Pipeline.Execute | main.py:70-106 | A run from any stage ends, either done or aborted. |
| Pipeline.RunPipeline | main.py:69-106 | The script ends done or aborted, with the final stage and the calls of the stage machine's run. |
| Pipeline.UpdatesOfConcat | main.py:101 | The updates of two call sequences concatenated are the updates of each, concatenated. |
| Pipeline.Updates | main.py:101 | A call is listed exactly when it was made as an update. |
| Pipeline.StepUpdates | main.py:95-101 | Only the write step issues an update. It ends the run and carries a marker-free transcript. Every other step keeps the stage clean. |
| Pipeline.UpdatesFromStage | main.py:95-101 | From any stage at or before the marker test, at most one update follows. It has a marker-free transcript and is the last call. |
| Pipeline.AtMostOneCleanUpdate | main.py:95-101 | A run writes at most once, never a transcript containing a marker, and the write is its last call. |
| Pipeline.NoSelectionNoCalls | main.py:76-88 | A failed query aborts, and no results (missing or empty) ends the run successfully. In both cases nothing is transcribed, summarised or written. |
| Pipeline.ExecuteIgnoresQuery | main.py:90-101 | After selection the query response is never consulted again. |
| Pipeline.OnlyFirstResultMatters | main.py:90 | Results after the first do not change the run. |
| Pipeline.ProcessedStoreRunIsNoOp | main.py:76-88 | Running against a fully processed store does nothing. |
| Pipeline.RunTranscribesFirstResult | main.py:90-95 | With a readable first result, the run continues by transcribing that page's URL. |
| Pipeline.ExecuteWriting | main.py:101-106 | Writing makes exactly one update call. The run then ends done, or aborted with the update's error. |
| Pipeline.ExecuteSummarizing | main.py:100-101 | Summarising calls the summariser, then writes the id, the transcript and the summary. |
| Pipeline.TranscribingOutcomes | main.py:95-101 | A transcript with a marker aborts after the transcription call alone. Otherwise the calls are transcribe, summarise and one update with (id, transcript, summary). |
| Pipeline.SelectedPageOutcomes | main.py:90-106 | The same two outcomes for a whole run whose first result has a readable URL. |
| Pipeline.RunCallsInOrder | main.py:69-106 | A run makes no call, the transcription alone (then aborts on its marked transcript), or transcription, summary and one update of that marker-free transcript, in that order. A run that ends successfully after calling anything has made all three calls. |
| Pipeline.UnreadableAudioAborts | main.py:91-106 | A first result without an uploaded file aborts before any call. |
| Pipeline.ServiceFailureAborts | main.py:96-97 | A recognition failure or processing error aborts the run with the marked text. Nothing is summarised or written. |
| Pipeline.GenuineTranscriptWithMarkerAborts | main.py:96-97 | A recognised transcript that merely contains `识别失败` also aborts the run, and nothing is written. |

## Left out

- The `ffprobe` process, the speech-recognition client, the NLP model and
  the database client are inputs of the model, not modelled. The model does
  not capture how they compute their answers, their timeouts or their
  credentials. API keys read from the environment are left out too.
- `print` output and the log lines are left out. The exit on an empty
  result is the terminal stage `Done`. The re-raise in the `except` block is
  the terminal stage `Aborted`, which records the cause.
- The text of `str(e)` for exceptions from collaborators is an input
  string. Only the two texts `main.py` itself causes are fixed constants:
  the `IndexError` of `[0]` on an empty sentence list and the `KeyError` of
  a missing `sentences` entry.
- SampleRate.IntValue: does not accept the non-ASCII Unicode digits Python's
  `int()` accepts, nor does it enforce the interpreter's limit on the number
  of digits. `ffprobe` prints ASCII digits.
- A response whose `output` is missing, or whose first sentence has no
  `text` entry, is the exception case (`Raised`) of the service call. The
  model does not name those exceptions separately.
- Exceptions raised by the NLP model are not modelled. `extract_summary` is
  total in the model.
- The nested dictionary walk of line 91 is reduced to the page's list of
  files, each uploaded (with a URL) or external.
- The database id, pagination and sort order of the query are left out.
  The query's results are an input (`QueryResponse`), related to a store by
  `RecordStore.PendingPages`.
- Concurrency between runs is not modelled: each run is one call of
  `Run`/`RunPipeline` against one environment.
