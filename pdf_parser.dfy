/** The PDF upload validator (backend/app/contract/parser.py): a size limit, the `%PDF` signature check, and the
    newline join of the pages that carry text. Page extraction itself is an input. */
module PdfParser {
  import opened Wrappers
  import opened Text

  newtype byte = x: int | 0 <= x < 256

  const MaxFileSizeBytes: nat := 10 * 1024 * 1024
  /** The bytes of `%PDF`. */
  const PdfSignature: seq<byte> := [0x25, 0x50, 0x44, 0x46]

  /** The exception classes; the two specific ones derive from DocumentParsingError. */
  datatype ErrorClass = DocumentParsingError | FileSizeLimitExceeded | SecurityCheckError

  function Base(c: ErrorClass): (r: Option<ErrorClass>)
    ensures r.Some? <==> c != DocumentParsingError
  {
    if c == DocumentParsingError then None else Some(DocumentParsingError)
  }

  /** `isinstance`-style membership: a class is an instance of itself and of its base. */
  predicate IsA(c: ErrorClass, of: ErrorClass) {
    c == of || Base(c) == Some(of)
  }

  /** An `except DocumentParsingError` clause catches every parser error. */
  lemma EveryErrorIsDocumentParsingError(c: ErrorClass)
    ensures IsA(c, DocumentParsingError)
    ensures c != DocumentParsingError ==> !IsA(DocumentParsingError, c)
  {
  }

  datatype ParseError = ParseError(cls: ErrorClass, message: string)

  predicate HasSignature(content: seq<byte>) {
    |content| >= |PdfSignature| && content[..|PdfSignature|] == PdfSignature
  }

  /** The pages whose extracted text is non-empty, in page order. */
  function TextPages(pages: seq<string>): (r: seq<string>)
    ensures |r| <= |pages|
    ensures forall i :: 0 <= i < |r| ==> r[i] != ""
    ensures (forall i :: 0 <= i < |pages| ==> pages[i] == "") ==> r == []
  {
    if pages == [] then []
    else
      var front := TextPages(pages[..|pages| - 1]);
      if pages[|pages| - 1] != "" then front + [pages[|pages| - 1]] else front
  }

  /** Every non-empty page survives into the kept list (so nothing with text is lost). */
  lemma {:induction false} TextPagesKeepsText(pages: seq<string>, i: nat)
    requires i < |pages| && pages[i] != ""
    ensures pages[i] in TextPages(pages)
  {
    var front := pages[..|pages| - 1];
    if i < |pages| - 1 {
      TextPagesKeepsText(front, i);
    }
  }

  /** Every kept page is one of the input pages. */
  lemma {:induction false} TextPagesFromInput(pages: seq<string>, p: string)
    requires p in TextPages(pages)
    ensures p in pages && p != ""
  {
    if pages != [] {
      var front := pages[..|pages| - 1];
      if p in TextPages(front) {
        TextPagesFromInput(front, p);
      }
    }
  }

  /** Filtering a second time changes nothing. */
  lemma TextPagesIdempotent(pages: seq<string>)
    ensures TextPages(TextPages(pages)) == TextPages(pages)
  {
    TextPagesOfNonEmpty(TextPages(pages));
  }

  lemma {:induction false} TextPagesOfNonEmpty(pages: seq<string>)
    requires forall i :: 0 <= i < |pages| ==> pages[i] != ""
    ensures TextPages(pages) == pages
  {
    if pages != [] {
      TextPagesOfNonEmpty(pages[..|pages| - 1]);
    }
  }

  /** `PDFParser.parse`. The size check comes first, then the signature; a reader failure (opening the stream or
      extracting any page) becomes DocumentParsingError; otherwise the text-bearing pages joined by newlines. */
  method Parse(content: seq<byte>, filename: string, reader: Result<seq<string>, string>)
    returns (r: Result<string, ParseError>)
    ensures |content| > MaxFileSizeBytes ==>
              r == Failure(ParseError(FileSizeLimitExceeded,
                           "File " + filename + " exceeds size limit of 10485760 bytes."))
    ensures |content| <= MaxFileSizeBytes && !HasSignature(content) ==>
              r == Failure(ParseError(SecurityCheckError,
                           "File " + filename + " does not contain valid PDF signature."))
    ensures |content| <= MaxFileSizeBytes && HasSignature(content) && reader.Failure? ==>
              r == Failure(ParseError(DocumentParsingError, "PDF parsing failed: " + reader.error))
    ensures |content| <= MaxFileSizeBytes && HasSignature(content) && reader.Success? ==>
              r == Success(Join(TextPages(reader.value), "\n"))
  {
    if |content| > MaxFileSizeBytes {
      return Failure(ParseError(FileSizeLimitExceeded, "File " + filename + " exceeds size limit of 10485760 bytes."));
    }
    if !HasSignature(content) {
      return Failure(ParseError(SecurityCheckError, "File " + filename + " does not contain valid PDF signature."));
    }
    if reader.Failure? {
      return Failure(ParseError(DocumentParsingError, "PDF parsing failed: " + reader.error));
    }
    var pages := reader.value;
    var textContent: seq<string> := [];
    for i := 0 to |pages|
      invariant textContent == TextPages(pages[..i])
    {
      assert pages[..i + 1][..i] == pages[..i];
      if pages[i] != "" {
        textContent := textContent + [pages[i]];
      }
    }
    assert pages[..|pages|] == pages;
    r := Success(Join(textContent, "\n"));
  }

  /** The exact limit passes the size check; one byte more does not. */
  lemma SizeLimitBoundary(content: seq<byte>)
    requires |content| == MaxFileSizeBytes
    ensures !(|content| > MaxFileSizeBytes) && |content + [0]| > MaxFileSizeBytes
  {
  }

  /** Pages without text contribute nothing, so a document without any text parses to the empty string. */
  lemma NoTextPagesParseEmpty(pages: seq<string>)
    requires forall i :: 0 <= i < |pages| ==> pages[i] == ""
    ensures Join(TextPages(pages), "\n") == ""
  {
  }

  /** Every page that carries text appears in the parsed result. */
  lemma ParsedTextContainsPages(pages: seq<string>, i: nat)
    requires i < |pages| && pages[i] != ""
    ensures Contains(Join(TextPages(pages), "\n"), pages[i])
  {
    TextPagesKeepsText(pages, i);
    var k :| 0 <= k < |TextPages(pages)| && TextPages(pages)[k] == pages[i];
    JoinContainsPart(TextPages(pages), "\n", k);
  }
}
