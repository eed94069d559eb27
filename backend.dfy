/**
 * The `/summarize` endpoint of the FastAPI backend (backend/app.py): how a
 * request body becomes the arguments of the summarisation pipeline, and how
 * the pipeline's output becomes the reply.
 *
 * The HuggingFace pipeline itself is a foreign model; it enters as the
 * parameter `pipeline`, a total function about which nothing else is assumed.
 */
module Backend {
  import opened Wrappers
  import opened Text

  /** Reply to a body whose text is empty once stripped. */
  const EmptyReply: string := "Please provide some text to summarise."
  /** Sentence target used when `max_sentences` is omitted, null or 0. */
  const DefaultSentences: int := 5
  /** Longest input, in words, handed to the pipeline. */
  const MaxWords: nat := 800

  /**
   * Python's `str.isspace()`, the whitespace of `strip()` and `split()`:
   * U+0009-U+000D, U+001C-U+0020, U+0085, U+00A0, U+1680, U+2000-U+200A,
   * U+2028, U+2029, U+202F, U+205F, U+3000.
   */
  predicate IsPythonSpace(c: char) {
    var n := c as int;
    (0x09 <= n <= 0x0D) || (0x1C <= n <= 0x20) || n == 0x85 || n == 0xA0 ||
    n == 0x1680 || (0x2000 <= n <= 0x200A) || n == 0x2028 || n == 0x2029 ||
    n == 0x202F || n == 0x205F || n == 0x3000
  }

  /** The `max_sentences` member of the JSON body as the client sent it. */
  datatype SentencesField = Omitted | Null | Given(n: int)

  /** `SummarizeRequest` after validation: `max_sentences: int | None = 5`. */
  datatype SummarizeRequest = SummarizeRequest(text: string, maxSentences: Option<int>)

  /** The arguments handed to the summarisation pipeline. */
  datatype PipelineCall = PipelineCall(text: string, maxLength: int, minLength: int)

  /** The pipeline: input text, `max_length`, `min_length` to the summary text. */
  type Pipeline = (string, int, int) -> string

  /** The model's defaulting: only an omitted field takes the declared default. */
  function DecodeRequest(text: string, field: SentencesField): (req: SummarizeRequest)
    ensures req.text == text
    ensures req.maxSentences.None? <==> field.Null?
    ensures field.Given? ==> req.maxSentences == Some(field.n)
    ensures field.Omitted? ==> req.maxSentences == Some(DefaultSentences)
  {
    match field
    case Omitted => SummarizeRequest(text, Some(DefaultSentences))
    case Null => SummarizeRequest(text, None)
    case Given(n) => SummarizeRequest(text, Some(n))
  }

  /** `req.max_sentences or 5`: both None and 0 are falsy. */
  function TargetSentences(m: Option<int>): (t: int)
    ensures t != 0
    ensures m.Some? && m.value != 0 ==> t == m.value
    ensures t == DefaultSentences <==> (m.None? || m.value == 0 || m.value == DefaultSentences)
  {
    if m.None? || m.value == 0 then DefaultSentences else m.value
  }

  /** `min(256, target_sentences * 25)`. */
  function MaxLength(t: int): (n: int)
    ensures n <= 256 && n <= 25 * t
    ensures n == 256 || n == 25 * t
  {
    if 25 * t < 256 then 25 * t else 256
  }

  /** `max(20, target_sentences * 8)`. */
  function MinLength(t: int): (n: int)
    ensures n >= 20 && n >= 8 * t
    ensures n == 20 || n == 8 * t
  {
    if 8 * t > 20 then 8 * t else 20
  }

  /** The lower bound stays below the upper one exactly for targets 1 to 31. */
  lemma LengthsOrdered(t: int)
    ensures MinLength(t) < MaxLength(t) <==> 1 <= t <= 31
  {
  }

  /** Python's `min` on two naturals. */
  function Min(a: nat, b: nat): nat {
    if a <= b then a else b
  }

  /**
   * Lines 53-54: text of more than 800 words becomes its first 800 words
   * joined by single spaces; shorter text is passed on as it is.
   */
  function TruncateWords(text: string): (r: string)
    ensures |Words(IsPythonSpace, text)| <= MaxWords ==> r == text
    ensures Words(IsPythonSpace, r) == Words(IsPythonSpace, text)[..Min(MaxWords, |Words(IsPythonSpace, text)|)]
    ensures |Words(IsPythonSpace, text)| > MaxWords ==> r == JoinWords(Words(IsPythonSpace, r))
  {
    var words := Words(IsPythonSpace, text);
    if |words| > MaxWords then
      WordsOfJoin(IsPythonSpace, words[..MaxWords]);
      JoinWords(words[..MaxWords])
    else
      assert words[..|words|] == words;
      text
  }

  /**
   * What `summarize` hands to the pipeline, or None when it replies without
   * calling it (the stripped text is empty). PlanCallWords gives the text.
   */
  function PlanCall(req: SummarizeRequest): (c: Option<PipelineCall>)
    ensures c.None? <==> AllSpace(IsPythonSpace, req.text)
    ensures c.Some? ==> c.value.maxLength <= 256 && c.value.minLength >= 20
    ensures c.Some? ==> c.value.maxLength == MaxLength(TargetSentences(req.maxSentences)) &&
                        c.value.minLength == MinLength(TargetSentences(req.maxSentences))
  {
    var text := Trim(IsPythonSpace, req.text);
    if text == "" then None
    else
      var t := TargetSentences(req.maxSentences);
      Some(PipelineCall(TruncateWords(text), MaxLength(t), MinLength(t)))
  }

  /**
   * The pipeline's input is non-empty, has at most 800 words, and those are
   * the first words of the request's text; it is the stripped text itself
   * when that has at most 800 words, and otherwise its first 800 words
   * joined by single spaces.
   */
  lemma PlanCallWords(req: SummarizeRequest)
    requires PlanCall(req).Some?
    ensures PlanCall(req).value.text != ""
    ensures |Words(IsPythonSpace, PlanCall(req).value.text)| <= MaxWords
    ensures Words(IsPythonSpace, PlanCall(req).value.text) ==
            Words(IsPythonSpace, req.text)[..Min(MaxWords, |Words(IsPythonSpace, req.text)|)]
    ensures |Words(IsPythonSpace, req.text)| <= MaxWords ==>
            PlanCall(req).value.text == Trim(IsPythonSpace, req.text)
    ensures |Words(IsPythonSpace, req.text)| > MaxWords ==>
            PlanCall(req).value.text == JoinWords(Words(IsPythonSpace, req.text)[..MaxWords])
  {
    var text := Trim(IsPythonSpace, req.text);
    WordsOfTrim(IsPythonSpace, req.text);
    assert PlanCall(req).value.text == TruncateWords(text);
  }

  /** The whole endpoint: the reply's `summary` field. */
  function Summarize(req: SummarizeRequest, pipeline: Pipeline): (reply: string)
    ensures AllSpace(IsPythonSpace, req.text) ==> reply == EmptyReply
    ensures PlanCall(req).Some? ==>
      var c := PlanCall(req).value;
      reply == Trim(IsPythonSpace, pipeline(c.text, c.maxLength, c.minLength))
  {
    match PlanCall(req)
    case None => EmptyReply
    case Some(c) => Trim(IsPythonSpace, pipeline(c.text, c.maxLength, c.minLength))
  }

  /** Every reply, the fixed one included, is free of surrounding whitespace. */
  lemma ReplyTrimmed(req: SummarizeRequest, pipeline: Pipeline)
    ensures Trimmed(IsPythonSpace, Summarize(req, pipeline))
  {
    if PlanCall(req).None? {
      assert EmptyReply[0] == 'P' && EmptyReply[|EmptyReply| - 1] == '.';
    }
  }

  /** A request whose text is blank gets the fixed reply, whatever the pipeline would say. */
  lemma BlankTextIgnoresPipeline(req: SummarizeRequest, p: Pipeline, q: Pipeline)
    requires AllSpace(IsPythonSpace, req.text)
    ensures Summarize(req, p) == Summarize(req, q) == EmptyReply
  {
  }
}
