/** `PdfTextExtractor`: two content-type predicates and two extraction paths
    that trim what the foreign decoder (PDFBox, or the platform charset)
    returns. The decoders are parameters. */
module PdfTextExtractor {
  import opened Wrappers
  import opened Strings
  import opened JavaText
  import opened Entities
  import Numeric

  /** `isPdfFile`. */
  predicate IsPdfFile(f: MultipartFile) {
    f.contentType == Some("application/pdf")
  }

  /** `isTextFile`. */
  predicate IsTextFile(f: MultipartFile) {
    f.contentType == Some("text/plain") || f.contentType == Some("application/octet-stream")
  }

  /** The two predicates never hold together, and a missing content type
      satisfies neither. */
  lemma ContentTypesExclusive(f: MultipartFile)
    ensures !(IsPdfFile(f) && IsTextFile(f))
    ensures f.contentType.None? ==> !IsPdfFile(f) && !IsTextFile(f)
  {
  }

  /** No leading or trailing character that `trim` would remove. */
  predicate IsTrimmed(s: string) {
    s == [] || (!IsTrimmable(s[0]) && !IsTrimmable(s[|s| - 1]))
  }

  /** What `trim` returns is trimmed and is a slice of its input. */
  lemma TrimmedSlice(s: string)
    ensures IsTrimmed(Trim(s)) && Contains(s, Trim(s))
  {
    TrimShape(s);
    var k := |s| - |TrimStart(s)|;
    assert OccursAt(s, Trim(s), k);
  }

  /** `extractTextFromPdf`: PDFBox's text, trimmed; a load failure propagates. */
  function ExtractTextFromPdf(f: MultipartFile, pdfText: seq<Numeric.byte> -> Result<string>): (r: Result<string>)
    ensures r.Ok? <==> pdfText(f.bytes).Ok?
    ensures r.Ok? ==> r.value == Trim(pdfText(f.bytes).value)
    ensures r.Err? ==> r.msg == pdfText(f.bytes).msg
    ensures r.Ok? ==> IsTrimmed(r.value) && Contains(pdfText(f.bytes).value, r.value) && Trim(r.value) == r.value
  {
    match pdfText(f.bytes)
    case Ok(text) =>
      TrimmedSlice(text);
      TrimIdempotent(text);
      Ok(Trim(text))
    case Err(m) => Err(m)
  }

  /** `extractTextFromText`: the bytes decoded with the platform charset, trimmed. */
  function ExtractTextFromText(f: MultipartFile, decode: seq<Numeric.byte> -> string): (r: string)
    ensures r == Trim(decode(f.bytes))
    ensures IsTrimmed(r) && Contains(decode(f.bytes), r) && Trim(r) == r
  {
    TrimmedSlice(decode(f.bytes));
    TrimIdempotent(decode(f.bytes));
    Trim(decode(f.bytes))
  }
}
