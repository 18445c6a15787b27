# CV / job-description analyzer: the upload pipeline in Dafny

This project models the backend of the CV analyzer. Its single upload endpoint
takes a résumé (the CV) and a job description. Each may be a PDF or a
plain-text file. The endpoint extracts the text of both, sends them inside a
fixed evaluation prompt to a language-model provider, and returns the
provider's verdict as `{"analysis": ...}`. Every failure becomes an HTTP
status and a detail message.

The model is pure: each step is a function that returns a `Result` value
where the Python code raises an exception. Four pieces are foreign and are
passed in as functions: the PDF reader, the UTF-8 decoder, the provider and
the text of an `HTTPException`.

- `PyStr` (pystr.dfy): Python's `str.strip()` and `" ".join(...)`. Whitespace
  is the set of characters for which `str.isspace()` is true.
- `Extraction` (extraction.dfy): `extract_text`. For a PDF it keeps the
  non-blank page texts in page order, joins them with single spaces and
  refuses an empty result. For plain text it decodes. It wraps every failure
  as `"Failed to read the file: " + message`.
- `Prompt` (prompt.dfy): the system message and the user message. The user
  message is `"CV:\n" + cv + "\n\nJob Description:\n" + jd + "\n\n"` followed
  by the fixed rubric. The rubric is stored line by line and word by word,
  exactly as the literal spells it.
- `Scoring` (scoring.dfy): `analyze_documents`. One provider call. The
  content is stripped. A failure becomes a 502 error carrying
  `"Failed to process with OpenAI: " + message`.
- `Analysis` (analysis.dfy): `upload_files`. It validates both media types
  (400 otherwise), extracts the CV and then the job description, calls the
  provider, and maps every later failure to 500. Besides the response it
  returns the trace of effects: which extractions ran and the messages sent
  to the provider. The ordering and "nothing else happened" properties are
  stated on that trace.

`Compose`, `AnalyzeDocuments` and `Upload` take the instruction text as a
parameter. `BuildPrompt` and `UploadFiles` fix it to `Rubric`, the literal
the endpoint sends. The lemmas therefore hold for every instruction text,
and so for the fixed one.

Behaviours of the code worth knowing, each proved in the model:

- The endpoint never answers 502. `analyze_documents` raises a 502 at
  app.py:121, but the call at app.py:36 sits inside the `try` of
  app.py:33-39. Its `except Exception` at app.py:38 turns that error into a
  500 whose detail is `str(e)` of the 502 (`Analysis.Upload`,
  `Analysis.ProviderFailureBecomesInternalError`).
- Whitespace-only page text passes `filter(None, ...)` at app.py:57, and the
  `if text:` test at app.py:58 accepts it. A PDF whose only text is `" "`
  therefore extracts to `" "` (`Extraction.WhitespacePageIsText`).
- An empty plain-text file decodes to `""` at app.py:63, and that is returned
  without any emptiness test (`Extraction.ExtractText`,
  `Analysis.EmptyPlainTextsReachProvider`).
- The f-string at app.py:89 composes the prompt, which never fails, not even
  on empty texts. The two extractions at app.py:34-35 run one after the
  other, CV first.
- The "Unsupported file type" branch at app.py:64-65 is modelled
  (`Extraction.ExtractText`). The check at app.py:30 means `upload_files`
  never takes it.

## Model

| member | source | states |
|---|---|---|
| PyStr.Strip | app.py:119 | the result is the stripping of the input: a slice of it with only whitespace before and after and no whitespace at either end |
| PyStr.StripUnique | app.py:119 | the stripping of a string is unique, so `Strip` is the only function meeting that description |
| PyStr.StripIdempotent | app.py:119 | stripped text has no surrounding whitespace and stripping it again changes nothing |
| PyStr.StripRemovesPadding | app.py:119 | a trimmed text wrapped in any whitespace strips back to exactly that text |
| PyStr.JoinSpace | app.py:57 | `" ".join`: a single part is returned unchanged; its behaviour on longer runs is stated by JoinSpaceAppend, JoinSpaceLength and JoinSpaceEmptyIff |
| PyStr.JoinSpaceAppend | app.py:57 | joining two non-empty runs of parts gives the two joins with exactly one space between them |
| PyStr.JoinSpaceLength | app.py:57 | the join's length is the sum of the parts' lengths plus one separator between each pair |
| PyStr.JoinSpaceEmptyIff | app.py:57-58 | when no part is empty, the join is empty exactly when there are no parts |
| Extraction.PageTexts | app.py:56-57 | the filtered page texts are never empty, are no more than the pages, and are none exactly when every page is `None` or `""` |
| Extraction.PageTextsAppend | app.py:56-57 | filtering keeps page order: filtering `a + b` gives the kept texts of `a` followed by those of `b` |
| Extraction.PageTextsMembership | app.py:57 | a text is kept exactly when it is non-empty and some page produced it |
| Extraction.PdfText | app.py:57-61 | the joined text is never empty; the no-text error happens exactly when every page is blank |
| Extraction.ReadDocument | app.py:54-65 | the body of the `try`: only a PDF or a plain-text file can succeed, and a PDF that succeeds has non-empty text; ExtractText states each branch exactly |
| Extraction.ExtractText | app.py:53-67 | a PDF the reader cannot read fails with the reader's message; a readable PDF gives its non-blank page texts joined by single spaces, non-empty, or the no-text error exactly when every page is `None` or `""`; plain text is the decoded content unchanged, `""` included, or the decoder's message; any other type, or none, gives the unsupported-type message; every failure carries the prefix "Failed to read the file: " |
| Extraction.ExtractPdfNeverEmpty | app.py:54-61 | a PDF never extracts to the empty string |
| Extraction.ExtractErrorsArePrefixed | app.py:66-67 | every failure message of the extraction starts with "Failed to read the file: " |
| Extraction.PdfTextConcat | app.py:56-57 | the text of two runs of pages put together is the first's text, one space, then the second's |
| Extraction.WhitespacePageIsText | app.py:57-59 | a non-empty whitespace-only page among blank pages passes the filter and is the document's text, unchanged |
| Prompt.Compose | app.py:89 | the user message's length is the two texts' lengths plus the fixed parts |
| Prompt.ComposeRoundTrip | app.py:89 | splitting the user message at the CV's length gives back both texts unchanged |
| Prompt.ComposeSplitSound | app.py:89 | any message that splits into two texts is the user message composed from them |
| Prompt.BuildPrompt | app.py:89-114 | the user message with the fixed rubric (`Rubric`, rendered from `RubricLines` line by line as the literal spells it); it has no contract of its own, and PromptRoundTrip carries its round trip |
| Prompt.PromptRoundTrip | app.py:89-114 | the message sent with the fixed rubric embeds exactly the CV text and then the job-description text |
| Prompt.ComposeDeterminesTexts | app.py:89 | equal user messages with equal CV lengths come from equal texts |
| Prompt.ComposeIsAmbiguous | app.py:89 | without the CV's length the texts cannot be recovered: a CV containing the job-description header gives the same message as a different pair |
| Scoring.Request | app.py:87-114 | the system message is the fixed one, and both texts can be read back out of the user message |
| Scoring.AnalyzeDocuments | app.py:82-121 | a success is trimmed text; a failure is an error with status 502 |
| Scoring.AnalysisIsStrippedContent | app.py:119 | on provider success the analysis is the stripping of the provider's content |
| Scoring.AnalysisDropsPadding | app.py:119 | surrounding whitespace of the content is removed and nothing else |
| Scoring.ProviderFailureIsUpstreamError | app.py:120-121 | a provider failure becomes a 502 whose detail is "Failed to process with OpenAI: " and the provider's message |
| Analysis.Accepted | app.py:30 | the media-type check: true exactly for "application/pdf" and "text/plain"; it has no contract of its own, and RejectsUnsupportedType and Upload state its effect |
| Analysis.Upload | app.py:30-39 | status is 200, 400 or 500 (never 502); 400 exactly when a media type is unsupported, and then nothing ran; the trace is CV extraction, then JD extraction, then one provider call on the two extracted texts; success only after all three |
| Analysis.UploadFiles | app.py:18-39 | `upload_files` itself, with the fixed rubric: the status is 200, 400 or 500; 400 exactly when a media type is refused; a 200 only after both extractions and the provider call; UploadFilesSendsPrompt gives its exact trace |
| Analysis.UploadSendsPrompt | app.py:33-36 | once both texts are extracted the steps are CV extraction, JD extraction, then exactly one provider call with the system message and the two texts composed with the instructions |
| Analysis.UploadFilesSendsPrompt | app.py:34-36 | for the endpoint itself, the one provider call carries the prompt built from the two extracted texts and the fixed rubric |
| Analysis.RejectsUnsupportedType | app.py:30-31 | an unsupported type on either side gives 400 with the fixed detail and an empty trace |
| Analysis.CvFailureStopsRequest | app.py:33-39 | a CV extraction failure gives 500 with its message; the JD is not read and the provider not called |
| Analysis.JdFailureStopsRequest | app.py:35-39 | a JD extraction failure gives 500 with its message; the provider is not called |
| Analysis.ProviderFailureBecomesInternalError | app.py:36-39 | a provider failure ends as 500 whose detail is the text of the 502 error with the provider prefix |
| Analysis.SuccessReturnsAnalysis | app.py:36-37 | when all steps succeed the body is `{"analysis": ...}` holding the stripped provider content |
| Analysis.SuccessOnlyWhenAllStepsSucceed | app.py:33-39 | a 200 means both types were accepted, both extractions succeeded and the returned analysis is exactly what `analyze_documents` produced |
| Analysis.TextlessPdfCvFails | app.py:53-61 | a CV PDF whose pages all give `None` or `""` fails with 500 and the prefixed no-text message, before the JD and the provider |
| Analysis.EmptyPlainTextsReachProvider | app.py:62-63 | two empty plain-text files pass extraction and the provider is asked about two empty texts |

## Left out

- HTTP plumbing: routing, multipart parsing, FastAPI's own 422 for a missing field, the `/` health route and `JSONResponse`. An upload is its declared type plus its bytes, and a response is a status plus a body value.
- Reading the upload (`await file.read()`) is taken to succeed. A failure there would be wrapped like any other extraction failure.
- PDF parsing (pdfplumber) is a parameter. It returns the page texts in order, with `None` or the empty string for a page without text, or the message of the exception it raised.
- UTF-8 decoding is a parameter returning the decoded text or the decoder's message.
- The OpenAI call is a parameter taking the system and user messages. The model name, `max_tokens`, the message roles, the API key and loading the environment are configuration, not modelled.
- The text `str(e)` gives for an `HTTPException` depends on the library. It is a parameter of the 502-to-500 conversion.
- The meaning of the rubric (scores, weights, bands) is not modelled. Nothing in the code reads the score back.
- Exceptions outside `Exception` (such as cancellation of the request) and any concurrency between requests.
- The browser form (streamlit.py): it is user interface and an HTTP client, and streamlit.py is not part of this model.
