/**
 * Sentence truncation of a word explanation (main.py:76-80). The language
 * model's completion is bounded in length and may stop mid-sentence, so the
 * service keeps the text up to and including its last full stop, and the
 * whole text when there is no full stop at all.
 */
module Explain {
  import opened Strings

  /**
   * What a correct cut of `text` is, stated without `rfind`: a prefix of the
   * text that drops only text without a full stop, and that ends at a full
   * stop whenever there is one, or else is the whole text.
   */
  ghost predicate IsSentenceCut(text: string, r: string)
  {
    && r <= text
    && '.' !in text[|r|..]
    && if '.' in text then |r| > 0 && r[|r| - 1] == '.' else r == text
  }

  /** `truncate_at_sentence_end`. */
  function TruncateAtSentenceEnd(text: string): (r: string)
    ensures r <= text
    ensures '.' !in text[|r|..]
    ensures '.' in text <==> |r| > 0 && r[|r| - 1] == '.'
    ensures '.' !in text ==> r == text
  {
    var lastPeriod := RFind(text, '.');
    if lastPeriod != -1 then text[..lastPeriod + 1] else text
  }

  /** At most one string is a correct cut of a given text. */
  lemma SentenceCutUnique(text: string, r1: string, r2: string)
    requires IsSentenceCut(text, r1) && IsSentenceCut(text, r2)
    ensures r1 == r2
  {
  }

  /** The truncation is the one correct cut: the definition and the code agree. */
  lemma TruncateIsSentenceCut(text: string, r: string)
    ensures IsSentenceCut(text, r) <==> r == TruncateAtSentenceEnd(text)
  {
  }

  /** Truncating text that was already truncated changes nothing. */
  lemma TruncateIdempotent(text: string)
    ensures TruncateAtSentenceEnd(TruncateAtSentenceEnd(text)) == TruncateAtSentenceEnd(text)
  {
  }

  /**
   * A completion made of finished sentences followed by text without a
   * full stop is cut back to the finished sentences.
   */
  lemma TruncateDropsUnfinishedSentence(head: string, tail: string)
    requires |head| > 0 && head[|head| - 1] == '.'
    requires '.' !in tail
    ensures TruncateAtSentenceEnd(head + tail) == head
  {
    var text := head + tail;
    assert text[|head|..] == tail && text[..|head|] == head;
    assert text[|head| - 1] == '.';
    SentenceCutUnique(text, head, TruncateAtSentenceEnd(text));
  }
}

/** A worked example of the truncation on a completion cut off mid-sentence. */
module ExplainExample {
  import opened Explain

  /**
   * The explanation returned for the completion "Love means deep affection.
   * It is often used in romantic contexts" (main.py:91): the unfinished
   * second sentence is dropped.
   */
  lemma ExplainWordScenario(head: string, tail: string)
    requires head == "Love means deep affection."
    requires tail == " It is often used in romantic contexts"
    ensures TruncateAtSentenceEnd(head + tail) == "Love means deep affection."
  {
    assert head[|head| - 1] == '.';
    assert '.' !in tail;
    TruncateDropsUnfinishedSentence(head, tail);
  }
}
