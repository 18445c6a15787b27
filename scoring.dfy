/** `analyze_documents` (app.py): one call to the scoring provider. */
module Scoring {
  import opened Wrappers
  import opened PyStr
  import opened Prompt

  /** The provider, given the system and user messages: the content of the
      first choice of its answer, or the message of whatever the call raised
      (a transport error, a refusal, an answer without choices). */
  type Provider = (string, string) -> Result<string, string>

  /** An `HTTPException`: status code and detail. */
  datatype HttpError = HttpError(status: int, detail: string)

  const UpstreamStatus: int := 502
  const ProviderFailurePrefix: string := "Failed to process with OpenAI: "

  /** The two messages of one provider call. */
  datatype Messages = Messages(system: string, user: string)

  /** What `analyze_documents` sends for the two texts: the fixed system
      message and the user message composed around `instructions`, from which
      both texts can be read back. */
  function Request(cvText: string, jdText: string, instructions: string): (m: Messages)
    ensures m.system == SystemInstruction
    ensures Split(m.user, |cvText|, instructions) == Some((cvText, jdText))
  {
    ComposeRoundTrip(cvText, jdText, instructions);
    Messages(SystemInstruction, Compose(cvText, jdText, instructions))
  }

  /** Sends the request for the two texts once; the answer is the provider's
      content stripped of surrounding whitespace, a failure a 502 error. The
      endpoint passes `Rubric`. */
  function AnalyzeDocuments(cvText: string, jdText: string, instructions: string, provider: Provider)
    : (r: Result<string, HttpError>)
    ensures r.Ok? ==> Trimmed(r.value)
    ensures r.Err? ==> r.error.status == UpstreamStatus
  {
    var request := Request(cvText, jdText, instructions);
    match provider(request.system, request.user)
    case Ok(content) =>
      StripIdempotent(content);
      Ok(Strip(content))
    case Err(m) => Err(HttpError(UpstreamStatus, ProviderFailurePrefix + m))
  }

  /** On success the analysis is exactly the stripped provider content. */
  lemma AnalysisIsStrippedContent(cvText: string, jdText: string, instructions: string,
                                  provider: Provider, content: string)
    requires provider(SystemInstruction, Compose(cvText, jdText, instructions)) == Ok(content)
    ensures AnalyzeDocuments(cvText, jdText, instructions, provider).Ok?
    ensures IsStripOf(AnalyzeDocuments(cvText, jdText, instructions, provider).value, content)
  {
  }

  /** Stripping removes the padding and nothing else. */
  lemma AnalysisDropsPadding(cvText: string, jdText: string, instructions: string, provider: Provider,
                             pre: string, text: string, post: string)
    requires AllSpace(pre) && AllSpace(post) && Trimmed(text)
    requires provider(SystemInstruction, Compose(cvText, jdText, instructions)) == Ok(pre + text + post)
    ensures AnalyzeDocuments(cvText, jdText, instructions, provider) == Ok(text)
  {
    StripRemovesPadding(pre, text, post);
  }

  /** A provider failure becomes a 502 whose detail is the fixed prefix followed
      by the provider's message. */
  lemma ProviderFailureIsUpstreamError(cvText: string, jdText: string, instructions: string,
                                       provider: Provider, m: string)
    requires provider(SystemInstruction, Compose(cvText, jdText, instructions)) == Err(m)
    ensures AnalyzeDocuments(cvText, jdText, instructions, provider)
         == Err(HttpError(UpstreamStatus, ProviderFailurePrefix + m))
  {
  }
}
