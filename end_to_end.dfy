/**
 * The page and the endpoint together: what the backend makes of a request
 * the page sends.
 */
module EndToEnd {
  import opened Wrappers
  import opened Text
  import Frontend
  import Backend

  /** The backend's view of a request body the page sends (`max_sentences` is always present). */
  function Received(r: Frontend.Request): (req: Backend.SummarizeRequest)
    ensures req.text == r.text && req.maxSentences == Some(r.maxSentences)
  {
    Backend.DecodeRequest(r.text, Backend.Given(r.maxSentences))
  }

  /**
   * The four lengths the page offers give the pipeline these (max, min)
   * bounds: (75, 24), (125, 40), (200, 64) and (256, 96), the minimum always
   * below the maximum.
   */
  lemma ChoiceBounds(t: int)
    requires t in Frontend.LengthChoices
    ensures Backend.TargetSentences(Some(t)) == t
    ensures t == 3 ==> Backend.MaxLength(t) == 75 && Backend.MinLength(t) == 24
    ensures t == 5 ==> Backend.MaxLength(t) == 125 && Backend.MinLength(t) == 40
    ensures t == 8 ==> Backend.MaxLength(t) == 200 && Backend.MinLength(t) == 64
    ensures t == 12 ==> Backend.MaxLength(t) == 256 && Backend.MinLength(t) == 96
    ensures Backend.MinLength(t) < Backend.MaxLength(t)
  {
  }

  /**
   * A request the page sends reaches the pipeline, with a minimum length
   * below the maximum, provided the text has no character that Python counts
   * as whitespace and JavaScript does not.
   */
  lemma AcceptedRequestReachesPipeline(r: Frontend.Request)
    requires r.maxSentences in Frontend.LengthChoices
    requires Frontend.CountWords(r.text) >= Frontend.MinWords
    requires forall i :: 0 <= i < |r.text| && Backend.IsPythonSpace(r.text[i]) ==> Frontend.IsRegexSpace(r.text[i])
    ensures Backend.PlanCall(Received(r)).Some?
    ensures Backend.PlanCall(Received(r)).value.minLength < Backend.PlanCall(Received(r)).value.maxLength
  {
    assert !AllSpace(Frontend.IsRegexSpace, r.text);
    var i :| 0 <= i < |r.text| && !Frontend.IsRegexSpace(r.text[i]);
    assert !AllSpace(Backend.IsPythonSpace, r.text);
    ChoiceBounds(r.maxSentences);
  }

  /** Thirty copies of U+001C separated by spaces. */
  function SeparatorText(): string {
    JoinWords(seq(30, _ => [28 as char]))
  }

  /**
   * Without that proviso the backend can answer a request the page accepted
   * as if it were blank: U+001C is not whitespace to JavaScript, so the page
   * counts thirty words, but Python strips it away.
   */
  lemma SeparatorTextAcceptedYetBlank(p: Backend.Pipeline)
    ensures Frontend.Validate(SeparatorText()).None?
    ensures Backend.Summarize(Received(Frontend.Request(SeparatorText(), 5)), p) == Backend.EmptyReply
  {
    var words := seq(30, _ => [28 as char]);
    forall i | 0 <= i < |words| ensures IsWord(Frontend.IsRegexSpace, words[i]) {
      assert words[i] == [28 as char];
    }
    WordsOfJoin(Frontend.IsRegexSpace, words);
    forall i | 0 <= i < |words| ensures AllSpace(Backend.IsPythonSpace, words[i]) {
      assert words[i] == [28 as char];
    }
    JoinOfSpaces(Backend.IsPythonSpace, words);
  }
}
