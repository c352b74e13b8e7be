/**
 * The document-ingest request and its validator: a request carries exactly
 * one of an uploaded file or a text, a file must be a PDF by name, and an
 * accepted request is the request itself.
 */
module DomainModels {
  import opened Wrappers
  import opened Tools

  /** An upload; the client may send it without a file name. */
  datatype Upload = Upload(filename: Option<string>)

  /** `DocumentIngestRequest`. */
  datatype IngestRequest = IngestRequest(file: Option<Upload>, text: Option<string>, metadata: map<string, Json>)

  const BOTH_GIVEN: Error := ValueError("Exactly one of 'file' or 'text' must be provided, not both")
  const NONE_GIVEN: Error := ValueError("Exactly one of 'file' or 'text' must be provided")
  const NOT_PDF: Error := ValueError("Only PDF files are supported")

  /** `str.lower` on one character, for the ASCII letters. */
  function LowerChar(c: char): char
  {
    if 'A' <= c <= 'Z' then (c as int + 32) as char else c
  }

  /** `str.upper` on one character, for the ASCII letters. */
  function UpperChar(c: char): char
  {
    if 'a' <= c <= 'z' then (c as int - 32) as char else c
  }

  /** `s.lower()`: no upper-case letter is left, and every other character stays where it was. */
  function Lower(s: string): (r: string)
    ensures |r| == |s|
    ensures forall i :: 0 <= i < |r| ==> !('A' <= r[i] <= 'Z')
    ensures forall i :: 0 <= i < |s| ==> r[i] == s[i] || ('A' <= s[i] <= 'Z' && r[i] as int == s[i] as int + 32)
  {
    seq(|s|, i requires 0 <= i < |s| => LowerChar(s[i]))
  }

  /** `s.upper()`: no lower-case letter is left, and every other character stays where it was. */
  function Upper(s: string): (r: string)
    ensures |r| == |s|
    ensures forall i :: 0 <= i < |r| ==> !('a' <= r[i] <= 'z')
    ensures forall i :: 0 <= i < |s| ==> r[i] == s[i] || ('a' <= s[i] <= 'z' && r[i] as int == s[i] as int - 32)
  {
    seq(|s|, i requires 0 <= i < |s| => UpperChar(s[i]))
  }

  /** `s.endswith(suffix)`. */
  predicate EndsWith(s: string, suffix: string)
  {
    |suffix| <= |s| && s[|s| - |suffix|..] == suffix
  }

  /** The file-name test: present, not empty, and ending in `.pdf` in any letter case. */
  predicate IsPdfName(filename: Option<string>)
  {
    filename.Some? && filename.value != [] && EndsWith(Lower(filename.value), ".pdf")
  }

  /** `validate_input`: both given, then neither given, then a non-PDF file, raise ValueError; otherwise the request itself. */
  function ValidateInput(request: IngestRequest): (r: Result<IngestRequest>)
    ensures r.Ok? <==> (request.file.Some? <==> request.text.None?) &&
                       (request.file.Some? ==> IsPdfName(request.file.value.filename))
    ensures r.Ok? ==> r.value == request
    ensures r.Err? ==> r.error in {BOTH_GIVEN, NONE_GIVEN, NOT_PDF}
  {
    if request.file.Some? && request.text.Some? then Err(BOTH_GIVEN)
    else if request.file.None? && request.text.None? then Err(NONE_GIVEN)
    else if request.file.Some? && !IsPdfName(request.file.value.filename) then Err(NOT_PDF)
    else Ok(request)
  }

  /**
   * Building a request: metadata defaults to an empty dictionary, and the
   * validator runs on the built value, so a request exists only if it
   * passes.
   */
  function NewRequest(file: Option<Upload>, text: Option<string>, metadata: Option<map<string, Json>>): (r: Result<IngestRequest>)
    ensures r.Ok? ==> r.value.file == file && r.value.text == text
    ensures r.Ok? && metadata.None? ==> r.value.metadata == map[]
    ensures r.Ok? && metadata.Some? ==> r.value.metadata == metadata.value
  {
    ValidateInput(IngestRequest(file, text, if metadata.Some? then metadata.value else map[]))
  }

  /** Which error a rejected request gets: the both-given and neither-given checks come before the name check. */
  lemma RejectionOrder(request: IngestRequest)
    ensures request.file.Some? && request.text.Some? ==> ValidateInput(request) == Err(BOTH_GIVEN)
    ensures request.file.None? && request.text.None? ==> ValidateInput(request) == Err(NONE_GIVEN)
    ensures request.file.Some? && request.text.None? ==>
              (ValidateInput(request) == Err(NOT_PDF) <==> !IsPdfName(request.file.value.filename))
  {
  }

  /** A text-only request passes whatever its text, the empty text included. */
  lemma TextOnlyAccepted(text: string, metadata: map<string, Json>)
    ensures ValidateInput(IngestRequest(None, Some(text), metadata)) == Ok(IngestRequest(None, Some(text), metadata))
  {
  }

  /** Validating an accepted request again accepts it again: the validator is idempotent. */
  lemma ValidationIdempotent(request: IngestRequest)
    requires ValidateInput(request).Ok?
    ensures ValidateInput(ValidateInput(request).value) == ValidateInput(request)
  {
  }

  /** Lower-casing a lower-cased string changes nothing. */
  lemma LowerIdempotent(s: string)
    ensures Lower(Lower(s)) == Lower(s)
  {
  }

  /** Lower-casing forgets an upper-casing. */
  lemma LowerForgetsUpper(s: string)
    ensures Lower(Upper(s)) == Lower(s)
  {
    forall i | 0 <= i < |s|
      ensures LowerChar(UpperChar(s[i])) == LowerChar(s[i])
    {
    }
  }

  /** The name test ignores letter case: upper- or lower-casing a name never changes the verdict. */
  lemma PdfTestIgnoresCase(name: string)
    ensures IsPdfName(Some(Upper(name))) <==> IsPdfName(Some(name))
    ensures IsPdfName(Some(Lower(name))) <==> IsPdfName(Some(name))
  {
    LowerForgetsUpper(name);
    LowerIdempotent(name);
  }

  /** The name test is the last four characters: `.pdf` up to letter case. */
  lemma PdfSuffix(name: string)
    ensures IsPdfName(Some(name)) <==> |name| >= 4 && Lower(name[|name| - 4..]) == ".pdf"
  {
    if |name| >= 4 {
      assert Lower(name)[|name| - 4..] == Lower(name[|name| - 4..]);
    }
  }

  /** The empty-name guard adds nothing to the suffix test: no empty name ends in `.pdf`. */
  lemma EmptyNameFailsSuffix()
    ensures !EndsWith(Lower(""), ".pdf")
  {
  }

  /** Examples: `report.PDF` and `a.pdf` pass. */
  lemma PdfNamesPass()
    ensures IsPdfName(Some("report.PDF")) && IsPdfName(Some("a.pdf"))
  {
    PdfSuffix("report.PDF");
    assert "report.PDF"[6..] == ".PDF";
    assert LowerChar('P') == 'p' && LowerChar('D') == 'd' && LowerChar('F') == 'f';
    assert Lower(".PDF") == ".pdf";
    PdfSuffix("a.pdf");
    assert "a.pdf"[1..] == ".pdf";
    assert Lower(".pdf") == ".pdf";
  }

  /** Examples: `report.pdf.txt`, `.pd` and a missing name do not pass. */
  lemma OtherNamesFail()
    ensures !IsPdfName(Some("report.pdf.txt")) && !IsPdfName(Some(".pd")) && !IsPdfName(None)
  {
    PdfSuffix("report.pdf.txt");
    assert "report.pdf.txt"[10..] == ".txt";
    assert Lower(".txt")[1] == 't';
  }
}
