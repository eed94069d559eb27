/**
 * The summariser page (frontend/src/App.jsx): seven pieces of React state and
 * the event handlers that update them.
 *
 * `handleSummarise` awaits one HTTP call; here it is split at that await into
 * StartSubmit (the part before the request goes out) and Complete (the part
 * after the response, or the failure, comes back). The response is abstracted
 * as an Outcome; `fetch`, JSON decoding and the clipboard are not modelled.
 */
module Frontend {
  import opened Wrappers
  import opened Text

  const EmptyTextError: string := "Please paste or type some notes first."
  const TooShortError: string := "Try giving at least ~30–40 words for a better summary."
  const ServerError: string := "Server error, please try again."
  const GenericError: string := "Something went wrong. Is the backend running?"
  const CopyError: string := "Could not copy to clipboard."

  const TipHint: string := "Tip: paste a paragraph or two."
  const MoreHint: string := "More text = better summary."
  const LongHint: string := "Very long — I’ll truncate a bit."
  const NiceHint: string := "Nice length for a summary."

  /** Fewest words a submission may have. */
  const MinWords: nat := 30

  /** The values of the summary-length selector; the initial one is 5. */
  const LengthChoices: set<int> := {3, 5, 8, 12}
  const DefaultLength: int := 5

  /** The demonstration paragraph of "Fill sample". */
  const Sample: string :=
    "Artificial Intelligence (AI) is transforming many industries, including healthcare, education, and finance. " +
    "In healthcare, AI helps doctors analyse scans and detect diseases earlier. In education, AI tools support personalised learning " +
    "by recommending content based on each student’s pace. However, AI also raises important questions about privacy, bias, and job " +
    "replacement. Understanding both the benefits and risks of AI is essential so that we can use this technology responsibly and " +
    "build systems that are fair, transparent, and helpful for everyone."

  /**
   * ECMAScript whitespace, the class `\s` and what `trim()` removes:
   * WhiteSpace (U+0009, U+000B, U+000C, U+0020, U+00A0, U+FEFF and the
   * space separators U+1680, U+2000-U+200A, U+202F, U+205F, U+3000) and
   * LineTerminator (U+000A, U+000D, U+2028, U+2029).
   */
  predicate IsRegexSpace(c: char) {
    var n := c as int;
    (0x09 <= n <= 0x0D) || n == 0x20 || n == 0xA0 || n == 0x1680 ||
    (0x2000 <= n <= 0x200A) || n == 0x2028 || n == 0x2029 ||
    n == 0x202F || n == 0x205F || n == 0x3000 || n == 0xFEFF
  }

  datatype Theme = Dark | Light

  /** The body of the POST: `text` and `max_sentences`. */
  datatype Request = Request(text: string, maxSentences: int)

  /** How the request ended, as far as `handleSummarise` can tell. */
  datatype Outcome =
    | TransportFail(message: string)  // something threw: `fetch` rejected, a body was not JSON, or a non-2xx body was `null`
    | NonOk(detail: Option<string>)   // a non-2xx status whose body is not JSON `null`; `detail` when it is an object with a string one
    | Ok(summary: Option<string>)     // a 2xx status; the body's `summary` when it has one

  /** What the page shows once a request has ended. */
  datatype Settled = Shown(summary: string) | Failed(message: string)

  /**
   * The word counter: 0 for blank text, otherwise the number of pieces of
   * the trimmed text split at whitespace runs. It equals the number of
   * maximal non-whitespace runs.
   */
  function CountWords(text: string): (n: nat)
    ensures n == |Words(IsRegexSpace, text)|
    ensures n == 0 <==> AllSpace(IsRegexSpace, text)
  {
    var t := Trim(IsRegexSpace, text);
    if t == "" then 0
    else
      SplitOnRunsIsWords(IsRegexSpace, t);
      WordsOfTrim(IsRegexSpace, text);
      |SplitOnRuns(IsRegexSpace, t)|
  }

  /**
   * The checks `handleSummarise` makes before sending, in order: blank text,
   * then fewer than 30 words. None when the text may be sent.
   */
  function Validate(text: string): (e: Option<string>)
    ensures e == Some(EmptyTextError) <==> CountWords(text) == 0
    ensures e == Some(TooShortError) <==> 0 < CountWords(text) < MinWords
    ensures e.None? <==> CountWords(text) >= MinWords
  {
    if Trim(IsRegexSpace, text) == "" then Some(EmptyTextError)
    else if CountWords(text) < MinWords then Some(TooShortError)
    else None
  }

  /**
   * The `try`/`catch` of `handleSummarise` after the request: a successful
   * response shows its summary; anything else is thrown as an Error whose
   * message becomes the error text, the generic one if that message is empty.
   */
  function Settle(o: Outcome): (s: Settled)
    ensures s.Shown? <==> o.Ok?
    ensures s.Failed? ==> s.message != ""
    ensures o.Ok? ==> s.summary == o.summary.GetOr("")
    ensures o.NonOk? && o.detail.Some? && o.detail.value != "" ==> s.message == o.detail.value
    ensures o.NonOk? && o.detail.None? ==> s.message == ServerError
    ensures o.NonOk? && o.detail == Some("") ==> s.message == GenericError
    ensures o.TransportFail? && o.message != "" ==> s.message == o.message
    ensures o.TransportFail? && o.message == "" ==> s.message == GenericError
  {
    match o
    case Ok(summary) => Shown(summary.GetOr(""))
    case NonOk(detail) => Caught(detail.GetOr(ServerError))
    case TransportFail(message) => Caught(message)
  }

  /** The `catch` block: an Error's message, or the generic text when it is empty. */
  function Caught(message: string): (s: Settled)
    ensures s.Failed? && s.message != ""
    ensures message != "" ==> s.message == message
    ensures message == "" ==> s.message == GenericError
  {
    Failed(if message != "" then message else GenericError)
  }

  /** The hint beside the word counter. */
  function Hint(wordCount: nat): (h: string)
    ensures h == TipHint <==> wordCount == 0
    ensures h == MoreHint <==> 0 < wordCount < 40
    ensures h == LongHint <==> wordCount > 600
    ensures h == NiceHint <==> 40 <= wordCount <= 600
  {
    if wordCount == 0 then TipHint
    else if wordCount < 40 then MoreHint
    else if wordCount > 600 then LongHint
    else NiceHint
  }

  /** The theme toggle's update: dark becomes light and anything else dark. */
  function Flip(t: Theme): (r: Theme)
    ensures r != t
  {
    if t == Dark then Light else Dark
  }

  /** Toggling twice gives the theme back. */
  lemma FlipTwice(t: Theme)
    ensures Flip(Flip(t)) == t
  {
  }

  /** The hint asks for text exactly when the notes are blank. */
  lemma TipHintIffBlank(text: string)
    ensures Hint(CountWords(text)) == TipHint <==> Validate(text) == Some(EmptyTextError)
  {
  }

  /** Text long enough to send never gets the "too short" hint unless it has 30 to 39 words. */
  lemma AcceptedHint(text: string)
    requires Validate(text).None?
    ensures Hint(CountWords(text)) != TipHint
    ensures Hint(CountWords(text)) == MoreHint <==> CountWords(text) < 40
  {
  }

  /** The page: React's state slots as fields. */
  class App {
    var theme: Theme
    var text: string
    var maxSentences: int
    var summary: string
    var loading: bool
    var error: string
    var copied: bool

    /** The selector only ever holds one of its options. */
    ghost predicate Valid()
      reads this
    {
      maxSentences in LengthChoices
    }

    /** The state on first render. */
    constructor ()
      ensures Valid()
      ensures theme == Dark && text == "" && maxSentences == DefaultLength
      ensures summary == "" && !loading && error == "" && !copied
    {
      theme := Dark;
      text := "";
      maxSentences := DefaultLength;
      summary := "";
      loading := false;
      error := "";
      copied := false;
    }

    /** The text area's `onChange`. */
    method Edit(t: string)
      requires Valid()
      modifies this`text
      ensures text == t
      ensures Valid()
    {
      text := t;
    }

    /** The length selector's `onChange`, already converted by `Number(...)`. */
    method ChooseLength(n: int)
      requires n in LengthChoices
      modifies this`maxSentences
      ensures Valid() && maxSentences == n
    {
      maxSentences := n;
    }

    /**
     * `handleSummarise` up to the request: clear error, summary and copied,
     * then validate; a rejected submission shows the reason and sends nothing,
     * an accepted one raises `loading` and sends the text and length as they are.
     */
    method StartSubmit() returns (req: Option<Request>)
      requires Valid()
      modifies this`error, this`summary, this`copied, this`loading
      ensures Valid() && summary == "" && !copied
      ensures req.None? <==> Validate(text).Some?
      ensures req.None? ==> Validate(text) == Some(error) && loading == old(loading)
      ensures req.Some? ==> error == "" && loading && req.value == Request(text, maxSentences)
      ensures req.Some? ==> req.value.maxSentences in LengthChoices
      ensures req.Some? ==> CountWords(req.value.text) >= MinWords
    {
      error := "";
      summary := "";
      copied := false;
      var rejection := Validate(text);
      if rejection.Some? {
        error := rejection.value;
        req := None;
      } else {
        loading := true;
        req := Some(Request(text, maxSentences));
      }
    }

    /**
     * `handleSummarise` after the request: either the summary or the error is
     * set, never both, and `loading` is lowered in every case.
     */
    method Complete(o: Outcome)
      requires Valid()
      modifies this`summary, this`error, this`loading
      ensures !loading
      ensures Settle(o).Shown? ==> summary == Settle(o).summary && error == old(error)
      ensures Settle(o).Failed? ==> error == Settle(o).message && summary == old(summary)
      ensures Valid()
    {
      match Settle(o) {
        case Shown(s) => summary := s;
        case Failed(m) => error := m;
      }
      loading := false;
    }

    /**
     * One whole `handleSummarise` whose request, if sent, ends with `o`: a
     * rejected submission ends with the validation error and no summary; an
     * accepted one ends with exactly one of a summary or an error.
     */
    method Summarise(o: Outcome) returns (req: Option<Request>)
      requires Valid()
      modifies this`error, this`summary, this`copied, this`loading
      ensures Valid() && !copied
      ensures req.None? <==> Validate(text).Some?
      ensures req.None? ==> Validate(text) == Some(error) && summary == "" && loading == old(loading)
      ensures req.Some? ==> !loading && req.value == Request(text, maxSentences)
      ensures req.Some? ==> req.value.maxSentences in LengthChoices && CountWords(req.value.text) >= MinWords
      ensures req.Some? && o.Ok? ==> error == "" && summary == o.summary.GetOr("")
      ensures req.Some? && !o.Ok? ==> error == Settle(o).message && error != "" && summary == ""
    {
      req := StartSubmit();
      if req.Some? {
        Complete(o);
      }
    }

    /** "Clear": text, summary and error emptied, copied lowered. */
    method Clear()
      requires Valid()
      modifies this`text, this`summary, this`error, this`copied
      ensures text == "" && summary == "" && error == "" && !copied
      ensures Valid()
    {
      text := "";
      summary := "";
      error := "";
      copied := false;
    }

    /** "Fill sample": as Clear, but the text becomes the sample paragraph. */
    method FillSample()
      requires Valid()
      modifies this`text, this`summary, this`error, this`copied
      ensures text == Sample && summary == "" && error == "" && !copied
      ensures Valid()
    {
      text := Sample;
      summary := "";
      error := "";
      copied := false;
    }

    /**
     * `handleCopy`; `clipboardWorks` says whether the clipboard write
     * succeeds. Returns the text written, None when there is no summary
     * (then nothing changes). A failure shows an error and keeps the summary.
     */
    method Copy(clipboardWorks: bool) returns (written: Option<string>)
      requires Valid()
      modifies this`copied, this`error
      ensures summary == "" ==> written.None? && copied == old(copied) && error == old(error)
      ensures summary != "" ==> written == Some(summary)
      ensures summary != "" && clipboardWorks ==> copied && error == old(error)
      ensures summary != "" && !clipboardWorks ==> error == CopyError && copied == old(copied)
      ensures Valid()
    {
      if summary == "" {
        written := None;
        return;
      }
      written := Some(summary);
      if clipboardWorks {
        copied := true;
      } else {
        error := CopyError;
      }
    }

    /** The theme button. */
    method ToggleTheme()
      requires Valid()
      modifies this`theme
      ensures theme == Flip(old(theme))
      ensures Valid()
    {
      theme := Flip(theme);
    }
  }
}
