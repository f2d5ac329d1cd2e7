/** `FileProcessingService`: which extractor a file's MIME type selects, the
    page-by-page assembly of PDF text, the extension of a file name, and the
    preview shown for an uploaded file. */
module FileProcessing {
  import opened Wrappers
  import opened JsStrings

  /** A browser `File`, together with what the browser's readers produce
      for it: `FileReader.readAsText` yields the text or fails, and pdf.js
      yields the item strings of every page or fails with a message. */
  datatype File = File(
    name: string,
    mimeType: string,
    size: nat,
    lastModified: Option<nat>,
    textRead: Option<string>,
    pdfPages: Result<seq<seq<string>>, string>)

  /** The extraction routine the dispatch chooses. */
  datatype Extractor = TextReader | PdfExtractor | DocxExtractor | NoExtractor

  const PdfType := "application/pdf"
  const DocxType := "application/" + "vnd.openxmlformats-officedocument." + "wordprocessingml.document"

  /** The types the dispatch lists explicitly for the text reader. */
  const TextCaseTypes := ["text/plain", "text/markdown", "application/json", "text/html", "text/css", "text/javascript"]

  /** The list `isTextExtractionSupported` consults. */
  const SupportedTypes := TextCaseTypes + [PdfType]

  const TextReadFailure := "Failed to read text file"
  const PdfFailurePrefix := "Failed to extract text from PDF: "
  const DocxFailurePrefix := "Failed to extract text from DOCX: "
  const DocxFailure := DocxFailurePrefix + "DOCX text extraction requires " + "server-side processing or specialized library"
  const UnsupportedPrefix := "Unsupported file type: "
  const PreviewNotAvailable := "Preview not available for this file type"
  const PreviewFailurePrefix := "Preview unavailable: "

  /** `isTextExtractionSupported`: listed, or any `text/` type. */
  function IsTextExtractionSupported(mimeType: string): (supported: bool)
    ensures supported <==> StartsWith(mimeType, "text/") || mimeType == "application/json" || mimeType == PdfType
  {
    assert forall t :: t in TextCaseTypes && t != "application/json" ==> StartsWith(t, "text/");
    mimeType in SupportedTypes || StartsWith(mimeType, "text/")
  }

  /** The `switch (file.type)` of `extractTextFromFile`. Every supported type
      reaches the text reader or the PDF extractor; the only type outside the
      supported list that has an extractor is DOCX. */
  function Route(mimeType: string): (r: Extractor)
    ensures StartsWith(mimeType, "text/") || mimeType == "application/json" <==> r == TextReader
    ensures r == PdfExtractor <==> mimeType == PdfType
    ensures r == DocxExtractor <==> mimeType == DocxType
    ensures IsTextExtractionSupported(mimeType) <==> r == TextReader || r == PdfExtractor
    ensures r == NoExtractor <==> !IsTextExtractionSupported(mimeType) && mimeType != DocxType
  {
    if mimeType in TextCaseTypes then TextReader
    else if mimeType == PdfType then assert PdfType[0] != 't'; PdfExtractor
    else if mimeType == DocxType then DocxExtractor
    else if StartsWith(mimeType, "text/") then TextReader
    else NoExtractor
  }

  /** The block one page contributes: its number, then its item strings
      joined by single spaces. */
  function PageBlock(pageNumber: nat, items: seq<string>): string
  {
    "Page " + NatToString(pageNumber) + ":\n" + Join(items, " ") + "\n\n"
  }

  /** The text of pages 1..n, in page order. */
  function PdfTextUpTo(pages: seq<seq<string>>, n: nat): string
    requires n <= |pages|
  {
    if n == 0 then "" else PdfTextUpTo(pages, n - 1) + PageBlock(n, pages[n - 1])
  }

  function PdfText(pages: seq<seq<string>>): string
  {
    PdfTextUpTo(pages, |pages|)
  }

  /** The text of the first pages is a prefix of the text of the first m
      pages: pages are laid down in order and never rewritten. */
  lemma {:induction false} PdfTextGrowsInPageOrder(pages: seq<seq<string>>, k: nat, m: nat)
    requires k <= m <= |pages|
    ensures StartsWith(PdfTextUpTo(pages, m), PdfTextUpTo(pages, k))
  {
    if k < m {
      PdfTextGrowsInPageOrder(pages, k, m - 1);
      var a, b := PdfTextUpTo(pages, k), PdfTextUpTo(pages, m - 1);
      assert PdfTextUpTo(pages, m) == b + PageBlock(m, pages[m - 1]);
      assert (b + PageBlock(m, pages[m - 1]))[..|a|] == b[..|a|];
    }
  }

  /** Page i's block follows the text of pages 1..i-1 immediately. */
  lemma PdfTextPlacesEachPage(pages: seq<seq<string>>, i: nat)
    requires 1 <= i <= |pages|
    ensures var before := PdfTextUpTo(pages, i - 1);
            var block := PageBlock(i, pages[i - 1]);
            StartsWith(PdfText(pages), before + block)
  {
    PdfTextGrowsInPageOrder(pages, i, |pages|);
  }

  /** The `for (let i = 1; i <= pdf.numPages; i++)` loop of `extractTextFromPDF`. */
  method ExtractTextFromPdf(pages: seq<seq<string>>) returns (fullText: string)
    ensures fullText == PdfText(pages)
  {
    fullText := "";
    var i := 1;
    while i <= |pages|
      invariant 1 <= i <= |pages| + 1
      invariant fullText == PdfTextUpTo(pages, i - 1)
    {
      var pageText := Join(pages[i - 1], " ");
      fullText := fullText + "Page " + NatToString(i) + ":\n" + pageText + "\n\n";
      i := i + 1;
    }
  }

  /** What `extractTextFromFile` resolves to, or the message it rejects with. */
  function ExtractText(file: File): (r: Result<string, string>)
    ensures Route(file.mimeType) == DocxExtractor ==> r.Failure? && StartsWith(r.error, DocxFailurePrefix)
    ensures r.Failure? && StartsWith(r.error, UnsupportedPrefix) <==> Route(file.mimeType) == NoExtractor
    ensures Route(file.mimeType) == NoExtractor ==> r == Failure(UnsupportedPrefix + file.mimeType)
    ensures Route(file.mimeType) == PdfExtractor && file.pdfPages.Success? ==> r == Success(PdfText(file.pdfPages.value))
    ensures Route(file.mimeType) == PdfExtractor && file.pdfPages.Failure? ==>
              r == Failure(PdfFailurePrefix + file.pdfPages.error)
    ensures Route(file.mimeType) == TextReader ==>
              r == if file.textRead.Some? then Success(file.textRead.value) else Failure(TextReadFailure)
  {
    match Route(file.mimeType)
    case TextReader =>
      (match file.textRead
       case Some(text) => Success(text)
       case None =>
         assert TextReadFailure[0] != UnsupportedPrefix[0];
         Failure(TextReadFailure))
    case PdfExtractor =>
      (match file.pdfPages
       case Success(pages) => Success(PdfText(pages))
       case Failure(message) =>
         assert (PdfFailurePrefix + message)[0] != UnsupportedPrefix[0];
         Failure(PdfFailurePrefix + message))
    case DocxExtractor =>
      assert DocxFailure[..|DocxFailurePrefix|] == DocxFailurePrefix;
      assert DocxFailure[0] != UnsupportedPrefix[0];
      Failure(DocxFailure)
    case NoExtractor =>
      assert (UnsupportedPrefix + file.mimeType)[..|UnsupportedPrefix|] == UnsupportedPrefix;
      Failure(UnsupportedPrefix + file.mimeType)
  }

  /** `extractTextFromFile`, dispatching to the page loop for PDFs. */
  method ExtractTextFromFile(file: File) returns (r: Result<string, string>)
    ensures r == ExtractText(file)
  {
    var route := Route(file.mimeType);
    if route == TextReader {
      r := if file.textRead.Some? then Success(file.textRead.value) else Failure(TextReadFailure);
    } else if route == PdfExtractor {
      if file.pdfPages.Success? {
        var text := ExtractTextFromPdf(file.pdfPages.value);
        r := Success(text);
      } else {
        r := Failure(PdfFailurePrefix + file.pdfPages.error);
      }
    } else if route == DocxExtractor {
      r := Failure(DocxFailure);
    } else {
      r := Failure(UnsupportedPrefix + file.mimeType);
    }
  }

  /** `file.name.split('.').pop()?.toLowerCase() || ''`: the lower-cased text
      after the last dot, or the whole lower-cased name when there is no dot. */
  function GetFileExtension(name: string): (ext: string)
    ensures |ext| <= |name|
    ensures forall i :: 0 <= i < |ext| ==> ext[i] != '.'
    ensures EndsWith(ToLower(name), ext)
    ensures |ext| < |name| ==> name[|name| - |ext| - 1] == '.'
  {
    var last := LastSegment(name, '.');
    assert ToLower(name)[|name| - |last|..] == ToLower(last);
    ToLower(last)
  }

  /** The metadata record `getFileInfo` returns, with the timestamp in place of the
      `Date` built from it; the formatted size is not modelled. */
  datatype FileInfo = FileInfo(name: string, mimeType: string, size: nat, lastModified: Option<nat>, extension: string)

  function GetFileInfo(file: File): (info: FileInfo)
    ensures info.name == file.name && info.mimeType == file.mimeType && info.size == file.size
    ensures info.extension == GetFileExtension(file.name)
    ensures info.lastModified.Some? <==> file.lastModified.Some? && file.lastModified.value != 0
    ensures info.lastModified.Some? ==> info.lastModified == file.lastModified
  {
    // A timestamp of 0 is falsy, so it becomes `null` like a missing one.
    var stamp := if file.lastModified == Some(0) then None else file.lastModified;
    FileInfo(file.name, file.mimeType, file.size, stamp, GetFileExtension(file.name))
  }

  /** `getFilePreview(file, maxLength)`. */
  function GetFilePreview(file: File, maxLength: nat): (preview: string)
    ensures !IsTextExtractionSupported(file.mimeType) ==> preview == PreviewNotAvailable
    ensures IsTextExtractionSupported(file.mimeType) && ExtractText(file).Failure? ==>
              preview == PreviewFailurePrefix + ExtractText(file).error
    ensures IsTextExtractionSupported(file.mimeType) && ExtractText(file).Success? ==>
              var text := ExtractText(file).value;
              |preview| <= maxLength + 3 &&
              (|text| <= maxLength ==> preview == text) &&
              (|text| > maxLength ==> |preview| == maxLength + 3 && StartsWith(text, preview[..maxLength]) &&
                                      EndsWith(preview, "..."))
  {
    if !IsTextExtractionSupported(file.mimeType) then PreviewNotAvailable
    else match ExtractText(file)
      case Failure(message) => PreviewFailurePrefix + message
      case Success(text) =>
        if |text| <= maxLength then text else Prefix(text, maxLength) + "..."
  }
}
