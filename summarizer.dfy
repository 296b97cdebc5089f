/** `extract_summary`: keywords and a summary from the NLP pipeline's view of
    the transcript. The linguistic model is an input (`nlp`): it turns text
    into a document, i.e. its tokens with their part-of-speech tags and its
    sentences, both in document order. */
module Summarizer {
  import opened Text

  /** At most this many keywords are kept (`[:5]`). */
  const MaxKeywords := 5
  /** At most this many sentences form the summary (`[:3]`). */
  const MaxSentences := 3
  const SentenceSeparator := " "
  const KeywordSeparator := ", "

  /** A token's surface text and its coarse part-of-speech tag (`pos_`). */
  datatype Token = Token(text: string, pos: string)
  /** A processed document: its tokens and the text of its sentences. */
  datatype Doc = Doc(tokens: seq<Token>, sentences: seq<string>)
  /** The dictionary `extract_summary` returns. */
  datatype Analysis = Analysis(summary: string, keywords: string)

  predicate IsKeywordTag(pos: string)
  {
    pos == "NOUN" || pos == "PROPN"
  }

  /** The list comprehension of line 51 before slicing, from token `from`
      on: the text of every NOUN or PROPN token, in document order. */
  function NounTextsFrom(tokens: seq<Token>, from: nat): (r: seq<string>)
    requires from <= |tokens|
    ensures |r| <= |tokens| - from
    decreases |tokens| - from
  {
    if from == |tokens| then []
    else (if IsKeywordTag(tokens[from].pos) then [tokens[from].text] else []) + NounTextsFrom(tokens, from + 1)
  }

  function NounTexts(tokens: seq<Token>): seq<string>
  {
    NounTextsFrom(tokens, 0)
  }

  /** Positions of the NOUN and PROPN tokens from token `from` on: each
      names such a token, and they are strictly increasing. */
  function NounPositionsFrom(tokens: seq<Token>, from: nat): (idx: seq<nat>)
    requires from <= |tokens|
    ensures forall i :: 0 <= i < |idx| ==> from <= idx[i] < |tokens| && IsKeywordTag(tokens[idx[i]].pos)
    ensures forall i, j :: 0 <= i < j < |idx| ==> idx[i] < idx[j]
    decreases |tokens| - from
  {
    if from == |tokens| then []
    else (if IsKeywordTag(tokens[from].pos) then [from] else []) + NounPositionsFrom(tokens, from + 1)
  }

  function NounPositions(tokens: seq<Token>): seq<nat>
  {
    NounPositionsFrom(tokens, 0)
  }

  /** The filtered sequence, position by position: its i-th entry is the
      text of the token at the i-th listed position, so document order is
      kept. */
  lemma {:induction false} NounTextsAtPositionsFrom(tokens: seq<Token>, from: nat)
    requires from <= |tokens|
    ensures |NounTextsFrom(tokens, from)| == |NounPositionsFrom(tokens, from)|
    ensures forall i :: 0 <= i < |NounTextsFrom(tokens, from)| ==>
              NounTextsFrom(tokens, from)[i] == tokens[NounPositionsFrom(tokens, from)[i]].text
    decreases |tokens| - from
  {
    if from < |tokens| {
      NounTextsAtPositionsFrom(tokens, from + 1);
    }
  }

  /** No NOUN or PROPN token at or after `from` is skipped: its position is
      listed. */
  lemma {:induction false} NounPositionsCompleteFrom(tokens: seq<Token>, from: nat, k: nat)
    requires from <= k < |tokens| && IsKeywordTag(tokens[k].pos)
    ensures k in NounPositionsFrom(tokens, from)
    decreases |tokens| - from
  {
    if from < k {
      NounPositionsCompleteFrom(tokens, from + 1, k);
    }
  }

  /** Every NOUN or PROPN token of the document is listed. */
  lemma NounPositionsComplete(tokens: seq<Token>, k: nat)
    requires k < |tokens| && IsKeywordTag(tokens[k].pos)
    ensures k in NounPositions(tokens)
  {
    NounPositionsCompleteFrom(tokens, 0, k);
  }

  /** The keyword list of line 51: the texts of the first five NOUN/PROPN
      tokens. There are as many keywords as such tokens, up to five; they are
      a prefix of the filtered sequence; and the i-th is the text of the i-th
      such token in document order. */
  function Keywords(doc: Doc): (kw: seq<string>)
    ensures var idx := NounPositions(doc.tokens);
            && |kw| == (if |idx| < MaxKeywords then |idx| else MaxKeywords)
            && kw <= NounTexts(doc.tokens)
            && (forall i :: 0 <= i < |kw| ==> IsKeywordTag(doc.tokens[idx[i]].pos)
                                              && kw[i] == doc.tokens[idx[i]].text)
  {
    NounTextsAtPositionsFrom(doc.tokens, 0);
    Take(NounTexts(doc.tokens), MaxKeywords)
  }

  /** The summary of line 52: the first min(3, n) sentences in document
      order joined by a space. It is a prefix of all the sentences joined by
      spaces, that whole text when the document has at most three sentences,
      and exactly the first three joined by spaces otherwise. */
  function SummaryOf(doc: Doc): (summary: string)
    ensures summary <= Join(doc.sentences, SentenceSeparator)
    ensures |doc.sentences| <= MaxSentences ==> summary == Join(doc.sentences, SentenceSeparator)
    ensures |doc.sentences| >= MaxSentences ==>
              summary == doc.sentences[0] + " " + doc.sentences[1] + " " + doc.sentences[2]
  {
    LeadingSentencesPrefix(doc.sentences);
    FirstThreeSentences(doc.sentences);
    Join(Take(doc.sentences, MaxSentences), SentenceSeparator)
  }

  /** Joining `s[:3]` gives a prefix of joining all of `s`, and all of it
      when `s` has at most three entries. */
  lemma LeadingSentencesPrefix(ss: seq<string>)
    ensures Join(Take(ss, MaxSentences), SentenceSeparator) <= Join(ss, SentenceSeparator)
    ensures |ss| <= MaxSentences ==> Take(ss, MaxSentences) == ss
  {
    var k := |Take(ss, MaxSentences)|;
    assert Take(ss, MaxSentences) == ss[..k];
    JoinOfPrefixIsPrefix(ss, k, SentenceSeparator);
  }

  /** Joining `s[:3]` when `s` has at least three entries. */
  lemma FirstThreeSentences(ss: seq<string>)
    ensures |ss| >= MaxSentences ==>
              Join(Take(ss, MaxSentences), SentenceSeparator) == ss[0] + " " + ss[1] + " " + ss[2]
  {
    if |ss| >= MaxSentences {
      assert Take(ss, MaxSentences) == [ss[0], ss[1], ss[2]];
      JoinOfThree(ss[0], ss[1], ss[2], SentenceSeparator);
    }
  }

  /** `extract_summary(text)`: the summary is the first three sentences of
      the processed text joined by spaces (all of them when there are fewer),
      and the keywords field is the ", "-join of the keyword list, i.e. of
      the first five NOUN/PROPN token texts in document order (see
      `Keywords`; `JoinContainsPart` shows each of them occurs in it). */
  function ExtractSummary(text: string, nlp: string -> Doc): (a: Analysis)
    ensures var ss := nlp(text).sentences;
            && (|ss| <= MaxSentences ==> a.summary == Join(ss, SentenceSeparator))
            && (|ss| >= MaxSentences ==> a.summary == ss[0] + " " + ss[1] + " " + ss[2])
    ensures a.keywords == Join(Keywords(nlp(text)), KeywordSeparator)
  {
    var doc := nlp(text);
    Analysis(SummaryOf(doc), Join(Keywords(doc), KeywordSeparator))
  }
}
