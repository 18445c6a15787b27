/** `extract_text` (app.py): turns one uploaded file into text, by media type. */
module Extraction {
  import opened Wrappers
  import opened PyStr

  newtype byte = x: int | 0 <= x < 256
  type Bytes = seq<byte>

  const PdfType: string := "application/pdf"
  const PlainTextType: string := "text/plain"

  /** Prefix of every message that leaves `extract_text` (its `IOError`). */
  const ReadFailurePrefix: string := "Failed to read the file: "
  const NoTextMessage: string := "No text could be extracted from the PDF."
  const UnsupportedTypeMessage: string := "Unsupported file type. Please upload a PDF or plain text file."

  /** An uploaded file: its declared media type (absent when the client sent
      none) and its raw bytes. */
  datatype UploadedFile = UploadedFile(contentType: Option<string>, content: Bytes)

  /** The foreign readers. `openPdf` stands for pdfplumber opening the bytes and
      calling `extract_text()` on every page in page order: a page without a
      text layer gives `None` or the empty string; any exception gives `Err`
      with its message.
      `decodeUtf8` stands for `bytes.decode('utf-8')`. */
  datatype Readers = Readers(
    openPdf: Bytes -> Result<seq<Option<string>>, string>,
    decodeUtf8: Bytes -> Result<string, string>)

  /** A page that `filter(None, ...)` drops: no text, or the empty text. */
  predicate Blank(page: Option<string>)
  {
    page == None || page == Some("")
  }

  /** What one page contributes to the filtered list. */
  function PageText(page: Option<string>): (r: seq<string>)
  {
    if Blank(page) then [] else [page.value]
  }

  /** `filter(None, pages)`: the page texts that are neither `None` nor empty. */
  function PageTexts(pages: seq<Option<string>>): (r: seq<string>)
    ensures |r| <= |pages|
    ensures forall k :: 0 <= k < |r| ==> r[k] != ""
    ensures r == [] <==> forall k :: 0 <= k < |pages| ==> Blank(pages[k])
  {
    if pages == [] then [] else PageText(pages[0]) + PageTexts(pages[1..])
  }

  /** Filtering keeps page order: it distributes over concatenation, so the kept
      texts of `a + b` are those of `a` followed by those of `b`. */
  lemma {:induction false} PageTextsAppend(a: seq<Option<string>>, b: seq<Option<string>>)
    ensures PageTexts(a + b) == PageTexts(a) + PageTexts(b)
  {
    if a == [] {
      assert a + b == b;
    } else {
      assert (a + b)[1..] == a[1..] + b;
      PageTextsAppend(a[1..], b);
    }
  }

  /** A text is kept exactly when it is non-empty and some page produced it. */
  lemma {:induction false} PageTextsMembership(pages: seq<Option<string>>, t: string)
    ensures t in PageTexts(pages) <==> t != "" && Some(t) in pages
  {
    if pages != [] {
      PageTextsMembership(pages[1..], t);
      assert pages == [pages[0]] + pages[1..];
    }
  }

  /** The PDF branch after the document has been read: join the kept page texts
      with one space and refuse an empty result. */
  function PdfText(pages: seq<Option<string>>): (r: Result<string, string>)
    ensures r.Ok? ==> r.value != ""
    ensures r.Err? <==> forall k :: 0 <= k < |pages| ==> Blank(pages[k])
    ensures r.Err? ==> r.error == NoTextMessage
  {
    var texts := PageTexts(pages);
    JoinSpaceEmptyIff(texts);
    var text := JoinSpace(texts);
    if text != "" then Ok(text) else Err(NoTextMessage)
  }

  /** The body of the `try` block of `extract_text`, before re-wrapping. */
  function ReadDocument(file: UploadedFile, readers: Readers): (r: Result<string, string>)
    ensures r.Ok? ==> file.contentType == Some(PdfType) || file.contentType == Some(PlainTextType)
    ensures r.Ok? && file.contentType == Some(PdfType) ==> r.value != ""
  {
    if file.contentType == Some(PdfType) then
      match readers.openPdf(file.content)
      case Err(m) => Err(m)
      case Ok(pages) => PdfText(pages)
    else if file.contentType == Some(PlainTextType) then
      readers.decodeUtf8(file.content)
    else
      Err(UnsupportedTypeMessage)
  }

  /** `extract_text`: a PDF gives its non-blank page texts joined by single
      spaces, or the no-text error when every page is blank; plain text is the
      decoded content unchanged, the empty text included; any other type is
      refused. Every failure comes out as an `IOError` whose message is the
      fixed prefix followed by the underlying message. */
  function ExtractText(file: UploadedFile, readers: Readers): (r: Result<string, string>)
    ensures file.contentType == Some(PdfType) && readers.openPdf(file.content).Err? ==>
      r == Err(ReadFailurePrefix + readers.openPdf(file.content).error)
    ensures file.contentType == Some(PdfType) && readers.openPdf(file.content).Ok? ==>
      var pages := readers.openPdf(file.content).value;
      if forall k :: 0 <= k < |pages| ==> Blank(pages[k])
      then r == Err(ReadFailurePrefix + NoTextMessage)
      else r == Ok(JoinSpace(PageTexts(pages))) && r.value != ""
    ensures file.contentType == Some(PlainTextType) && readers.decodeUtf8(file.content).Ok? ==>
      r == readers.decodeUtf8(file.content)
    ensures file.contentType == Some(PlainTextType) && readers.decodeUtf8(file.content).Err? ==>
      r == Err(ReadFailurePrefix + readers.decodeUtf8(file.content).error)
    ensures file.contentType != Some(PdfType) && file.contentType != Some(PlainTextType) ==>
      r == Err(ReadFailurePrefix + UnsupportedTypeMessage)
  {
    match ReadDocument(file, readers)
    case Ok(text) => Ok(text)
    case Err(m) => Err(ReadFailurePrefix + m)
  }

  /** A PDF never extracts to the empty string: either some page has text and
      the join is non-empty, or extraction fails. */
  lemma ExtractPdfNeverEmpty(file: UploadedFile, readers: Readers)
    requires file.contentType == Some(PdfType)
    ensures ExtractText(file, readers) != Ok("")
  {
    if readers.openPdf(file.content).Ok? {
      var pages := readers.openPdf(file.content).value;
      assert ExtractText(file, readers).Ok? ==> ExtractText(file, readers).value != "";
    }
  }

  /** Every failure message of `extract_text` starts with the fixed prefix. */
  lemma ExtractErrorsArePrefixed(file: UploadedFile, readers: Readers)
    ensures ExtractText(file, readers).Err? ==>
      |ExtractText(file, readers).error| >= |ReadFailurePrefix|
      && ExtractText(file, readers).error[..|ReadFailurePrefix|] == ReadFailurePrefix
  {
    var r := ExtractText(file, readers);
    if r.Err? {
      assert r.error == ReadFailurePrefix + ReadDocument(file, readers).error;
    }
  }

  /** Pages are joined in order: the text of two documents' pages put together is
      the first's text, one space, then the second's. */
  lemma PdfTextConcat(a: seq<Option<string>>, b: seq<Option<string>>)
    requires PdfText(a).Ok? && PdfText(b).Ok?
    ensures PdfText(a + b) == Ok(PdfText(a).value + " " + PdfText(b).value)
  {
    PageTextsAppend(a, b);
    JoinSpaceAppend(PageTexts(a), PageTexts(b));
  }

  /** A whitespace-only page is not blank: among blank pages it passes the
      filter and is returned unchanged as the document's text. */
  lemma WhitespacePageIsText(pre: seq<Option<string>>, w: string, post: seq<Option<string>>)
    requires w != "" && AllSpace(w)
    requires forall k :: 0 <= k < |pre| ==> Blank(pre[k])
    requires forall k :: 0 <= k < |post| ==> Blank(post[k])
    ensures PdfText(pre + [Some(w)] + post) == Ok(w)
  {
    PageTextsAppend(pre, [Some(w)]);
    PageTextsAppend(pre + [Some(w)], post);
    assert PageTexts([Some(w)]) == [w];
  }
}
