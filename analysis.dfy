/** `upload_files` (app.py): validates both uploads, extracts the CV's text,
    then the job description's, asks the provider, and maps every outcome to
    an HTTP status and JSON body. */
module Analysis {
  import opened Wrappers
  import opened PyStr
  import opened Extraction
  import opened Prompt
  import opened Scoring

  const OkStatus: int := 200
  const BadRequestStatus: int := 400
  const InternalErrorStatus: int := 500
  const InvalidFormatDetail: string := "Invalid file format. Please upload PDF or plain text files."

  /** Which upload a step works on. */
  datatype Role = Cv | JobDescription

  /** The steps with an effect, in the order they happen: an extraction
      (which reads the upload) and the provider call with its two messages. */
  datatype Event = Extracted(role: Role) | ProviderCalled(system: string, user: string)

  /** The JSON body: `{"analysis": ...}` or `{"detail": ...}`. */
  datatype Body = AnalysisBody(analysis: string) | DetailBody(detail: string)

  datatype Response = Response(status: int, body: Body)

  /** The response together with the steps taken to produce it. */
  datatype Outcome = Outcome(response: Response, trace: seq<Event>)

  /** Everything foreign the endpoint relies on: the readers, the provider and
      the text `str(e)` gives for an `HTTPException`. */
  datatype Services = Services(readers: Readers, provider: Provider, describe: HttpError -> string)

  /** The media types the endpoint accepts. */
  predicate Accepted(contentType: Option<string>)
  {
    contentType == Some(PdfType) || contentType == Some(PlainTextType)
  }

  function Fail(detail: string, trace: seq<Event>): (out: Outcome)
  {
    Outcome(Response(InternalErrorStatus, DetailBody(detail)), trace)
  }

  /** The endpoint with the user message composed around `instructions`.
      Validation fails with 400 and does nothing else; once it passes, the
      blanket handler turns every failure, the provider's 502 included, into a
      500 carrying `str(e)`. */
  function Upload(cv: UploadedFile, jd: UploadedFile, env: Services, instructions: string): (out: Outcome)
    ensures out.response.status in {OkStatus, BadRequestStatus, InternalErrorStatus}
    ensures out.response.status == BadRequestStatus <==> !(Accepted(cv.contentType) && Accepted(jd.contentType))
    ensures out.response.status == OkStatus <==> out.response.body.AnalysisBody?
    ensures out.trace == [] <==> out.response.status == BadRequestStatus
    ensures |out.trace| <= 3
    ensures |out.trace| > 0 ==> out.trace[0] == Extracted(Cv)
    ensures |out.trace| > 1 ==> out.trace[1] == Extracted(JobDescription)
    ensures |out.trace| > 1 ==> ExtractText(cv, env.readers).Ok?
    ensures |out.trace| > 2 ==>
              && ExtractText(jd, env.readers).Ok?
              && out.trace[2] == ProviderCalled(SystemInstruction,
                   Compose(ExtractText(cv, env.readers).value, ExtractText(jd, env.readers).value, instructions))
    ensures out.response.status == OkStatus ==> |out.trace| == 3
  {
    if !Accepted(cv.contentType) || !Accepted(jd.contentType) then
      Outcome(Response(BadRequestStatus, DetailBody(InvalidFormatDetail)), [])
    else
      match ExtractText(cv, env.readers)
      case Err(m) => Fail(m, [Extracted(Cv)])
      case Ok(cvText) =>
        match ExtractText(jd, env.readers)
        case Err(m) => Fail(m, [Extracted(Cv), Extracted(JobDescription)])
        case Ok(jdText) =>
          var request := Request(cvText, jdText, instructions);
          var steps := [Extracted(Cv), Extracted(JobDescription), ProviderCalled(request.system, request.user)];
          match AnalyzeDocuments(cvText, jdText, instructions, env.provider)
          case Err(e) => Fail(env.describe(e), steps)
          case Ok(result) => Outcome(Response(OkStatus, AnalysisBody(result)), steps)
  }

  /** `upload_files` itself: the user message carries the fixed rubric. */
  function UploadFiles(cv: UploadedFile, jd: UploadedFile, env: Services): (out: Outcome)
    ensures out.response.status in {OkStatus, BadRequestStatus, InternalErrorStatus}
    ensures out.response.status == BadRequestStatus <==> !(Accepted(cv.contentType) && Accepted(jd.contentType))
    ensures out.response.status == OkStatus ==> |out.trace| == 3
  {
    Upload(cv, jd, env, Rubric)
  }

  /** Once both texts are extracted, the provider is called exactly once, after
      the two extractions, with the system message and the two texts composed
      with the instructions. */
  lemma UploadSendsPrompt(cv: UploadedFile, jd: UploadedFile, env: Services, instructions: string, cvText: string, jdText: string)
    requires Accepted(cv.contentType) && Accepted(jd.contentType)
    requires ExtractText(cv, env.readers) == Ok(cvText)
    requires ExtractText(jd, env.readers) == Ok(jdText)
    ensures Upload(cv, jd, env, instructions).trace
         == [Extracted(Cv), Extracted(JobDescription), ProviderCalled(SystemInstruction, Compose(cvText, jdText, instructions))]
  {
  }

  /** The same for the endpoint: the prompt sent is the one built from the two
      texts and the fixed rubric. */
  lemma UploadFilesSendsPrompt(cv: UploadedFile, jd: UploadedFile, env: Services, cvText: string, jdText: string)
    requires Accepted(cv.contentType) && Accepted(jd.contentType)
    requires ExtractText(cv, env.readers) == Ok(cvText)
    requires ExtractText(jd, env.readers) == Ok(jdText)
    ensures UploadFiles(cv, jd, env).trace
         == [Extracted(Cv), Extracted(JobDescription), ProviderCalled(SystemInstruction, BuildPrompt(cvText, jdText))]
  {
    UploadSendsPrompt(cv, jd, env, Rubric, cvText, jdText);
  }

  /** A file of any other type, on either side, is refused with 400 and the
      fixed detail before anything is read or sent. */
  lemma RejectsUnsupportedType(cv: UploadedFile, jd: UploadedFile, env: Services, instructions: string)
    requires !Accepted(cv.contentType) || !Accepted(jd.contentType)
    ensures Upload(cv, jd, env, instructions)
         == Outcome(Response(BadRequestStatus, DetailBody(InvalidFormatDetail)), [])
  {
  }

  /** A CV that cannot be read stops the request: 500 with the extraction
      message; the job description is not read and the provider not called. */
  lemma CvFailureStopsRequest(cv: UploadedFile, jd: UploadedFile, env: Services, instructions: string)
    requires Accepted(cv.contentType) && Accepted(jd.contentType)
    requires ExtractText(cv, env.readers).Err?
    ensures Upload(cv, jd, env, instructions) == Fail(ExtractText(cv, env.readers).error, [Extracted(Cv)])
  {
  }

  /** A job description that cannot be read, after a CV that could, gives 500
      with its extraction message and no provider call. */
  lemma JdFailureStopsRequest(cv: UploadedFile, jd: UploadedFile, env: Services, instructions: string)
    requires Accepted(cv.contentType) && Accepted(jd.contentType)
    requires ExtractText(cv, env.readers).Ok?
    requires ExtractText(jd, env.readers).Err?
    ensures Upload(cv, jd, env, instructions)
         == Fail(ExtractText(jd, env.readers).error, [Extracted(Cv), Extracted(JobDescription)])
  {
  }

  /** A provider failure is raised as a 502 but leaves the endpoint as a 500
      whose detail is the text of that 502 error, whose own detail is the
      provider prefix and the provider's message. */
  lemma ProviderFailureBecomesInternalError(cv: UploadedFile, jd: UploadedFile, env: Services,
                                            instructions: string, cvText: string, jdText: string, m: string)
    requires Accepted(cv.contentType) && Accepted(jd.contentType)
    requires ExtractText(cv, env.readers) == Ok(cvText)
    requires ExtractText(jd, env.readers) == Ok(jdText)
    requires env.provider(SystemInstruction, Compose(cvText, jdText, instructions)) == Err(m)
    ensures Upload(cv, jd, env, instructions).response
         == Response(InternalErrorStatus,
              DetailBody(env.describe(HttpError(UpstreamStatus, ProviderFailurePrefix + m))))
  {
    ProviderFailureIsUpstreamError(cvText, jdText, instructions, env.provider, m);
  }

  /** When every step succeeds the body is `{"analysis": result}` with the
      provider's content stripped and otherwise unmodified. */
  lemma SuccessReturnsAnalysis(cv: UploadedFile, jd: UploadedFile, env: Services,
                               instructions: string, cvText: string, jdText: string, content: string)
    requires Accepted(cv.contentType) && Accepted(jd.contentType)
    requires ExtractText(cv, env.readers) == Ok(cvText)
    requires ExtractText(jd, env.readers) == Ok(jdText)
    requires env.provider(SystemInstruction, Compose(cvText, jdText, instructions)) == Ok(content)
    ensures Upload(cv, jd, env, instructions).response == Response(OkStatus, AnalysisBody(Strip(content)))
  {
  }

  /** Success comes only from the all-success path, and its analysis is what
      `analyze_documents` returned; no partial result is ever returned. */
  lemma SuccessOnlyWhenAllStepsSucceed(cv: UploadedFile, jd: UploadedFile, env: Services, instructions: string)
    requires Upload(cv, jd, env, instructions).response.status == OkStatus
    ensures Accepted(cv.contentType) && Accepted(jd.contentType)
    ensures ExtractText(cv, env.readers).Ok? && ExtractText(jd, env.readers).Ok?
    ensures AnalyzeDocuments(ExtractText(cv, env.readers).value, ExtractText(jd, env.readers).value,
                             instructions, env.provider)
         == Ok(Upload(cv, jd, env, instructions).response.body.analysis)
  {
  }

  /** A CV whose PDF pages all give `None` or the empty text (a scanned
      document, say) fails with the no-text message; the job description is
      not read and the provider is never called. */
  lemma TextlessPdfCvFails(cv: UploadedFile, jd: UploadedFile, env: Services, instructions: string,
                           pages: seq<Option<string>>)
    requires cv.contentType == Some(PdfType) && Accepted(jd.contentType)
    requires env.readers.openPdf(cv.content) == Ok(pages)
    requires forall k :: 0 <= k < |pages| ==> Blank(pages[k])
    ensures Upload(cv, jd, env, instructions) == Fail(ReadFailurePrefix + NoTextMessage, [Extracted(Cv)])
  {
  }

  /** Two empty plain-text files pass extraction: the provider is asked about
      two empty texts. */
  lemma EmptyPlainTextsReachProvider(cv: UploadedFile, jd: UploadedFile, env: Services, instructions: string)
    requires cv.contentType == Some(PlainTextType) && jd.contentType == Some(PlainTextType)
    requires env.readers.decodeUtf8(cv.content) == Ok("") && env.readers.decodeUtf8(jd.content) == Ok("")
    ensures Upload(cv, jd, env, instructions).trace
         == [Extracted(Cv), Extracted(JobDescription), ProviderCalled(SystemInstruction, Compose("", "", instructions))]
  {
  }
}
