/** The record store as the pipeline sees it: pages with an id, the files of
    their "Audio File" property and their rich-text properties. The query
    filter and the two-field update are modelled; the remote store client
    itself is not. */
module RecordStore {
  import opened Wrappers

  const TranscriptProperty := "Transcript"
  const SummaryProperty := "Summary"

  /** A file attached to a page: uploaded to the store (read through
      `["file"]["url"]`) or linked from elsewhere (held under `"external"`). */
  datatype AudioFile = Uploaded(url: string) | External(url: string)

  /** A page of the database: its id, its audio files, and the plain text of
      its rich-text properties. */
  datatype Page = Page(id: string, audioFiles: seq<AudioFile>, richText: map<string, string>)

  /** The store's `is_empty` on a rich-text property. */
  predicate RichTextEmpty(page: Page, property: string)
  {
    property !in page.richText || page.richText[property] == ""
  }

  /** Lines 78-83, the query filter: an audio file is present and the
      transcript is empty. */
  predicate Pending(page: Page)
  {
    |page.audioFiles| > 0 && RichTextEmpty(page, TranscriptProperty)
  }

  /** The query's results: the pending pages of the store, in store order.
      Exactly the pending pages of the store appear. */
  function PendingPages(store: seq<Page>): (r: seq<Page>)
    ensures forall p :: p in r ==> Pending(p) && p in store
    ensures forall p :: p in store && Pending(p) ==> p in r
  {
    if store == [] then []
    else (if Pending(store[0]) then [store[0]] else []) + PendingPages(store[1..])
  }

  /** A store in which every page already has a transcript has nothing
      pending. */
  lemma ProcessedStoreHasNothingPending(store: seq<Page>)
    requires forall p :: p in store ==> !RichTextEmpty(p, TranscriptProperty)
    ensures PendingPages(store) == []
  {
    if PendingPages(store) != [] {
      assert PendingPages(store)[0] in PendingPages(store);
    }
  }

  /** Line 91, `["Audio File"]["files"][0]["file"]["url"]`: present only when
      the page has a file and its first file is an uploaded one; any other
      page makes the lookup raise. */
  function AudioUrl(page: Page): (url: Option<string>)
    ensures url.Some? <==> |page.audioFiles| > 0 && page.audioFiles[0].Uploaded?
    ensures url.Some? ==> url.value == page.audioFiles[0].url
  {
    if |page.audioFiles| > 0 && page.audioFiles[0].Uploaded? then Some(page.audioFiles[0].url)
    else None
  }

  /** The arguments of `update_notion(page_id, transcript, summary)`. */
  datatype UpdateCall = UpdateCall(pageId: string, transcript: string, summary: string)

  /** Lines 63-66: the properties the update sends. */
  function UpdatedProperties(call: UpdateCall): (props: map<string, string>)
    ensures props.Keys == {TranscriptProperty, SummaryProperty}
    ensures props[TranscriptProperty] == call.transcript && props[SummaryProperty] == call.summary
  {
    map[TranscriptProperty := call.transcript, SummaryProperty := call.summary]
  }

  /** The store after the update: the page with the call's id gets the two
      properties; ids, files and the order of pages stay as they were. */
  function ApplyUpdate(store: seq<Page>, call: UpdateCall): (r: seq<Page>)
    ensures |r| == |store|
    ensures forall i :: 0 <= i < |r| ==> r[i].id == store[i].id && r[i].audioFiles == store[i].audioFiles
  {
    seq(|store|, i requires 0 <= i < |store| =>
      if store[i].id == call.pageId
      then store[i].(richText := store[i].richText + UpdatedProperties(call))
      else store[i])
  }

  /** The update sets exactly `Transcript` and `Summary` on the addressed page:
      every other property of that page, and every other page, is unchanged. */
  lemma UpdateSetsOnlyTwoProperties(store: seq<Page>, call: UpdateCall, i: nat, property: string)
    requires i < |store|
    ensures var page, after := store[i], ApplyUpdate(store, call)[i];
            && (page.id != call.pageId ==> after == page)
            && (page.id == call.pageId ==>
                  && after.richText[TranscriptProperty] == call.transcript
                  && after.richText[SummaryProperty] == call.summary
                  && (property != TranscriptProperty && property != SummaryProperty ==>
                        (property in after.richText <==> property in page.richText)
                        && (property in page.richText ==> after.richText[property] == page.richText[property])))
  {
  }

  /** The query filter after the update: the addressed page is pending
      again exactly when it has an audio file and the written transcript is
      empty. */
  lemma PendingAfterUpdate(page: Page, call: UpdateCall)
    ensures Pending(page.(richText := page.richText + UpdatedProperties(call)))
            <==> |page.audioFiles| > 0 && call.transcript == ""
  {
    var after := page.(richText := page.richText + UpdatedProperties(call));
    assert after.richText[TranscriptProperty] == call.transcript;
  }

  /** After writing a non-empty transcript, the page is no longer pending, so
      the next run does not select it again. */
  lemma WrittenPageLeavesQueue(store: seq<Page>, call: UpdateCall)
    requires call.transcript != ""
    ensures forall p :: p in PendingPages(ApplyUpdate(store, call)) ==> p.id != call.pageId
  {
    var after := ApplyUpdate(store, call);
    forall p | p in PendingPages(after)
      ensures p.id != call.pageId
    {
      var i :| 0 <= i < |after| && after[i] == p;
    }
  }

  /** Writing an empty transcript (an OK response whose first sentence is
      empty) leaves a pending page pending: the next run selects it again. */
  lemma EmptyTranscriptStaysPending(store: seq<Page>, call: UpdateCall, i: nat)
    requires call.transcript == "" && i < |store| && store[i].id == call.pageId && Pending(store[i])
    ensures ApplyUpdate(store, call)[i] in PendingPages(ApplyUpdate(store, call))
  {
    var after := ApplyUpdate(store, call);
    assert after[i].richText[TranscriptProperty] == "";
    assert after[i] in after;
  }
}
