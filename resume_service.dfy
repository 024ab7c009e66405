/** `ResumeService`: uploading a file or submitting text creates a resume
    row, and the row then moves through extraction and parsing, which set its
    `rawText`, `parsedJson` and `parseError` fields. The two "asynchronous"
    steps are called on the service itself and so run in line; they are
    modelled as sequential steps. PDF text, the platform decoder, the UUID of
    the stored file and the NLP service's reply are parameters. */
module ResumeService {
  import opened Wrappers
  import opened JavaText
  import opened JsonTree
  import opened Entities
  import opened Repositories
  import StorageService
  import PdfTextExtractor
  import Numeric

  const MaxUploadBytes: int := 5 * 1024 * 1024
  const EmptyFile: string := "File cannot be empty"
  const TooLarge: string := "File size exceeds 5MB limit"
  const BadType: string := "Only PDF and TXT files are allowed"
  const UserNotFound: string := "User not found"
  const ResumeNotFound: string := "Resume not found"
  const TextInputUrl: string := "text-input"

  // ------------------------------------------------------------ upload checks

  predicate IsValidFileType(f: MultipartFile) {
    PdfTextExtractor.IsPdfFile(f) || PdfTextExtractor.IsTextFile(f)
  }

  /** The checks of `uploadResume` before anything is stored. */
  function UploadCheck(f: MultipartFile, userExists: bool): Result<()> {
    if f.bytes == [] then Err(EmptyFile)
    else if |f.bytes| > MaxUploadBytes then Err(TooLarge)
    else if !IsValidFileType(f) then Err(BadType)
    else if !userExists then Err(UserNotFound)
    else Ok(())
  }

  /** The checks pass exactly when all four conditions hold, and a failure
      names the first condition that does not. */
  lemma UploadCheckFirstFailure(f: MultipartFile, userExists: bool)
    ensures UploadCheck(f, userExists).Ok? <==> f.bytes != [] && |f.bytes| <= MaxUploadBytes && IsValidFileType(f) && userExists
    ensures UploadCheck(f, userExists) == Err(TooLarge) <==> f.bytes != [] && |f.bytes| > MaxUploadBytes
    ensures UploadCheck(f, userExists) == Err(BadType) <==> f.bytes != [] && |f.bytes| <= MaxUploadBytes && !IsValidFileType(f)
    ensures UploadCheck(f, userExists) == Err(UserNotFound) <==> f.bytes != [] && |f.bytes| <= MaxUploadBytes && IsValidFileType(f) && !userExists
  {
    assert EmptyFile != TooLarge && EmptyFile != BadType && EmptyFile != UserNotFound by {
      assert EmptyFile[0] == 'F' && TooLarge[0] == 'F' && EmptyFile[5] != TooLarge[5];
      assert BadType[0] != 'F' && UserNotFound[0] != 'F';
    }
    assert TooLarge != BadType && TooLarge != UserNotFound && BadType != UserNotFound by {
      assert TooLarge[0] == 'F' && BadType[0] == 'O' && UserNotFound[0] == 'U';
    }
  }

  // ------------------------------------------------------------ row updates

  /** The rows with the change applied to the row with that id, if there is one. */
  function Touch(rows: seq<Resume>, id: int, change: Resume -> Resume): (r: seq<Resume>)
    ensures |r| == |rows|
    ensures forall k :: 0 <= k < |rows| && k != id - 1 ==> r[k] == rows[k]
    ensures 1 <= id <= |rows| ==> r[id - 1] == change(rows[id - 1])
    ensures !(1 <= id <= |rows|) ==> r == rows
  {
    if 1 <= id <= |rows| then rows[id - 1 := change(rows[id - 1])] else rows
  }

  /** `markParseError`: only the flag is set; the message is dropped. */
  function MarkedParseError(rows: seq<Resume>, id: int): seq<Resume> {
    Touch(rows, id, (r: Resume) => r.(parseError := true))
  }

  /** `updateResumeText`. */
  function WithText(rows: seq<Resume>, id: int, text: string): seq<Resume> {
    Touch(rows, id, (r: Resume) => r.(rawText := Some(text), parseError := false))
  }

  /** `updateResumeParsedJson`. */
  function WithParsedJson(rows: seq<Resume>, id: int, json: Option<Json>): seq<Resume> {
    Touch(rows, id, (r: Resume) => r.(parsedJson := json))
  }

  /** What `readValue(response, Object.class)` hands back: the JSON null is Java's null. */
  function ParsedValue(j: Json): Option<Json> {
    if j.JNull? then None else Some(j)
  }

  /** `parseResumeAsync`: the reply is stored, or the flag is set. */
  function AfterParse(rows: seq<Resume>, id: int, nlpReply: Result<Json>): seq<Resume> {
    if nlpReply.Ok? then WithParsedJson(rows, id, ParsedValue(nlpReply.value)) else MarkedParseError(rows, id)
  }

  /** The extractor's text for a supported type, or why there is none. */
  function RawText(f: MultipartFile, pdfText: seq<Numeric.byte> -> Result<string>, decode: seq<Numeric.byte> -> string): (r: Result<string>)
    ensures r.Ok? ==> IsValidFileType(f) && Trim(r.value) == r.value
    ensures PdfTextExtractor.IsPdfFile(f) ==>
              r == if pdfText(f.bytes).Ok? then Ok(Trim(pdfText(f.bytes).value))
                   else Err("Failed to extract text: " + pdfText(f.bytes).msg)
    ensures PdfTextExtractor.IsTextFile(f) ==> r == Ok(Trim(decode(f.bytes)))
    ensures !IsValidFileType(f) ==> r == Err("Unsupported file type")
  {
    if PdfTextExtractor.IsPdfFile(f) then
      var t := PdfTextExtractor.ExtractTextFromPdf(f, pdfText);
      if t.Err? then Err("Failed to extract text: " + t.msg) else t
    else if PdfTextExtractor.IsTextFile(f) then Ok(PdfTextExtractor.ExtractTextFromText(f, decode))
    else Err("Unsupported file type")
  }

  /** What extraction in `extractTextAsync` gets: trimmed, non-blank text,
      or the reason it has none. */
  function ExtractedText(f: MultipartFile, pdfText: seq<Numeric.byte> -> Result<string>, decode: seq<Numeric.byte> -> string): (r: Result<string>)
    ensures r.Ok? ==> IsValidFileType(f) && !IsBlank(r.value) && Trim(r.value) == r.value
    ensures r.Ok? ==> r == RawText(f, pdfText, decode)
    ensures RawText(f, pdfText, decode).Err? ==> r == RawText(f, pdfText, decode)
    ensures RawText(f, pdfText, decode).Ok? ==>
              if IsBlank(RawText(f, pdfText, decode).value) then r == Err("No text content extracted") else r.Ok?
    ensures !IsValidFileType(f) ==> r == Err("Unsupported file type")
  {
    var text := RawText(f, pdfText, decode);
    if text.Ok? && IsBlank(text.value) then Err("No text content extracted") else text
  }

  /** `extractTextAsync` followed, on success, by `parseResumeAsync`. */
  function AfterExtract(rows: seq<Resume>, id: int, f: MultipartFile, pdfText: seq<Numeric.byte> -> Result<string>,
                        decode: seq<Numeric.byte> -> string, nlpReply: Result<Json>): seq<Resume> {
    var text := ExtractedText(f, pdfText, decode);
    if text.Err? then MarkedParseError(rows, id) else AfterParse(WithText(rows, id, text.value), id, nlpReply)
  }

  /** The row `uploadResume` saves first, and the one `createTextResume` saves. */
  function NewResume(id: int, userId: int, fileUrl: string): Resume {
    Resume(id, userId, fileUrl, None, None, false)
  }

  function NewTextResume(id: int, userId: int, text: string): Resume {
    Resume(id, userId, TextInputUrl, Some(text), None, false)
  }

  // ------------------------------------------------------------ properties of the steps

  /** Every step keeps the ids in place, and an id without a row changes nothing. */
  lemma StepsKeepIds(rows: seq<Resume>, id: int, text: string, json: Option<Json>, nlpReply: Result<Json>)
    requires ResumeIds(rows)
    ensures ResumeIds(MarkedParseError(rows, id)) && ResumeIds(WithText(rows, id, text))
    ensures ResumeIds(WithParsedJson(rows, id, json)) && ResumeIds(AfterParse(rows, id, nlpReply))
    ensures !(1 <= id <= |rows|) ==>
              MarkedParseError(rows, id) == rows && WithText(rows, id, text) == rows
              && WithParsedJson(rows, id, json) == rows && AfterParse(rows, id, nlpReply) == rows
  {
  }

  /** A parse that succeeds sets the parsed JSON and leaves the text and the
      flag alone; one that fails sets the flag and leaves the text and the
      parsed JSON alone. No other row changes. */
  lemma ParseOutcome(rows: seq<Resume>, id: int, nlpReply: Result<Json>)
    requires 1 <= id <= |rows|
    ensures var after := AfterParse(rows, id, nlpReply)[id - 1];
            var before := rows[id - 1];
            after.rawText == before.rawText && after.id == before.id && after.userId == before.userId
            && after.fileUrl == before.fileUrl
            && (nlpReply.Ok? ==> after.parsedJson == ParsedValue(nlpReply.value) && after.parseError == before.parseError)
            && (nlpReply.Err? ==> after.parsedJson == before.parsedJson && after.parseError)
    ensures forall k :: 0 <= k < |rows| && k != id - 1 ==> AfterParse(rows, id, nlpReply)[k] == rows[k]
  {
  }

  /** Extraction that yields text stores it, clears the flag and parses, so
      at the end the flag says whether the parse failed; extraction that
      yields nothing sets the flag and never parses. */
  lemma ExtractOutcome(rows: seq<Resume>, id: int, f: MultipartFile, pdfText: seq<Numeric.byte> -> Result<string>,
                       decode: seq<Numeric.byte> -> string, nlpReply: Result<Json>)
    requires 1 <= id <= |rows|
    ensures var text := ExtractedText(f, pdfText, decode);
            var after := AfterExtract(rows, id, f, pdfText, decode, nlpReply)[id - 1];
            var before := rows[id - 1];
            (text.Ok? ==> after.rawText == Some(text.value) && after.parseError == nlpReply.Err?
                          && after.parsedJson == (if nlpReply.Ok? then ParsedValue(nlpReply.value) else before.parsedJson))
            && (text.Err? ==> after == before.(parseError := true))
    ensures forall k :: 0 <= k < |rows| && k != id - 1 ==> AfterExtract(rows, id, f, pdfText, decode, nlpReply)[k] == rows[k]
  {
    var text := ExtractedText(f, pdfText, decode);
    if text.Ok? {
      ParseOutcome(WithText(rows, id, text.value), id, nlpReply);
    }
  }

  /** A file of an unsupported type, or one whose text is blank, ends with
      only the flag set. */
  lemma UnsupportedFileFlagged(rows: seq<Resume>, id: int, f: MultipartFile, pdfText: seq<Numeric.byte> -> Result<string>,
                               decode: seq<Numeric.byte> -> string, nlpReply: Result<Json>)
    requires 1 <= id <= |rows|
    requires !IsValidFileType(f) || (PdfTextExtractor.IsTextFile(f) && IsBlank(decode(f.bytes)))
    ensures AfterExtract(rows, id, f, pdfText, decode, nlpReply) == rows[id - 1 := rows[id - 1].(parseError := true)]
  {
    if IsValidFileType(f) {
      PdfTextExtractor.ContentTypesExclusive(f);
      var t := PdfTextExtractor.ExtractTextFromText(f, decode);
      BlankIffAllTrimmable(decode(f.bytes));
      BlankIffAllTrimmable(t);
      assert t == Trim(decode(f.bytes));
      TrimShape(decode(f.bytes));
      assert IsBlank(t);
    }
  }

  // ------------------------------------------------------------ the service

  class ResumeService {
    const resumes: ResumeRepository
    const users: UserRepository
    const storage: StorageService.StorageService
    /** PDFBox's text of a PDF, or why it could not load it. */
    const pdfText: seq<Numeric.byte> -> Result<string>
    /** `new String(bytes)` with the platform charset. */
    const decode: seq<Numeric.byte> -> string

    constructor (resumes: ResumeRepository, users: UserRepository, storage: StorageService.StorageService,
                 pdfText: seq<Numeric.byte> -> Result<string>, decode: seq<Numeric.byte> -> string)
      ensures this.resumes == resumes && this.users == users && this.storage == storage
      ensures this.pdfText == pdfText && this.decode == decode
    {
      this.resumes := resumes;
      this.users := users;
      this.storage := storage;
      this.pdfText := pdfText;
      this.decode := decode;
    }

    ghost predicate Valid()
      reads resumes, users
    {
      ResumeIds(resumes.rows) && UserIds(users.rows)
    }

    /** `updateResumeText`. */
    method UpdateResumeText(id: int, text: string)
      requires Valid()
      modifies resumes
      ensures Valid() && resumes.rows == WithText(old(resumes.rows), id, text)
    {
      var found := ResumeById(resumes.rows, id);
      if found.Some? {
        resumes.Update(found.value.(rawText := Some(text), parseError := false));
      }
    }

    /** `markParseError`. */
    method MarkParseError(id: int, error: string)
      requires Valid()
      modifies resumes
      ensures Valid() && resumes.rows == MarkedParseError(old(resumes.rows), id)
    {
      var found := ResumeById(resumes.rows, id);
      if found.Some? {
        resumes.Update(found.value.(parseError := true));
      }
    }

    /** `updateResumeParsedJson`. */
    method UpdateResumeParsedJson(id: int, json: Option<Json>)
      requires Valid()
      modifies resumes
      ensures Valid() && resumes.rows == WithParsedJson(old(resumes.rows), id, json)
    {
      var found := ResumeById(resumes.rows, id);
      if found.Some? {
        resumes.Update(found.value.(parsedJson := json));
      }
    }

    /** `parseResumeAsync`, with the NLP service's reply for the text. */
    method ParseResume(id: int, nlpReply: Result<Json>)
      requires Valid()
      modifies resumes
      ensures Valid() && resumes.rows == AfterParse(old(resumes.rows), id, nlpReply)
    {
      match nlpReply
      case Ok(j) =>
        UpdateResumeParsedJson(id, ParsedValue(j));
      case Err(m) =>
        MarkParseError(id, "Failed to parse resume: " + m);
    }

    /** `extractTextAsync`. */
    method ExtractText(id: int, file: MultipartFile, nlpReply: Result<Json>)
      requires Valid()
      modifies resumes
      ensures Valid() && resumes.rows == AfterExtract(old(resumes.rows), id, file, pdfText, decode, nlpReply)
    {
      var text := ExtractedText(file, pdfText, decode);
      if text.Err? {
        MarkParseError(id, text.msg);
        return;
      }
      UpdateResumeText(id, text.value);
      ParseResume(id, nlpReply);
    }

    /** `uploadResume`: the checks, the stored file, the new row, then
        extraction and parsing; the response shows the row as the request
        leaves it. */
    method UploadResume(file: MultipartFile, userId: int, uuid: string, nlpReply: Result<Json>) returns (r: Result<ResumeResponse>)
      requires Valid()
      modifies resumes, storage
      ensures Valid()
      ensures var check := UploadCheck(file, UserById(users.rows, userId).Some?);
              check.Err? ==> r == Err(check.msg) && resumes.rows == old(resumes.rows) && storage.files == old(storage.files)
      ensures var check := UploadCheck(file, UserById(users.rows, userId).Some?);
              var loc := StorageService.Locator("resumes", uuid, StorageService.Extension(file.originalFilename));
              var n := |old(resumes.rows)|;
              check.Ok? ==>
                if loc in old(storage.files) then r.Err? && resumes.rows == old(resumes.rows) && storage.files == old(storage.files)
                else storage.files == old(storage.files)[loc := file.bytes]
                     && resumes.rows == AfterExtract(old(resumes.rows) + [NewResume(n + 1, userId, loc)], n + 1, file, pdfText, decode, nlpReply)
                     && r == Ok(ResumeDto(resumes.rows[n]))
    {
      if file.bytes == [] {
        return Err(EmptyFile);
      }
      if |file.bytes| > MaxUploadBytes {
        return Err(TooLarge);
      }
      if !IsValidFileType(file) {
        return Err(BadType);
      }
      var user := UserById(users.rows, userId);
      if user.None? {
        return Err(UserNotFound);
      }
      var stored := storage.UploadFile(file, "resumes", uuid);
      if stored.Err? {
        return Err(stored.msg);
      }
      var saved := resumes.Insert(NewResume(0, userId, stored.value));
      ExtractText(saved.id, file, nlpReply);
      r := Ok(ResumeDto(resumes.rows[saved.id - 1]));
    }

    /** `createTextResume`: the text is the raw text at once, and goes
        straight to parsing. */
    method CreateTextResume(text: string, userId: int, nlpReply: Result<Json>) returns (r: Result<ResumeResponse>)
      requires Valid()
      modifies resumes
      ensures Valid()
      ensures UserById(users.rows, userId).None? ==> r == Err(UserNotFound) && resumes.rows == old(resumes.rows)
      ensures var n := |old(resumes.rows)|;
              UserById(users.rows, userId).Some? ==>
                resumes.rows == AfterParse(old(resumes.rows) + [NewTextResume(n + 1, userId, text)], n + 1, nlpReply)
                && r == Ok(ResumeDto(resumes.rows[n]))
    {
      var user := UserById(users.rows, userId);
      if user.None? {
        return Err(UserNotFound);
      }
      var saved := resumes.Insert(NewTextResume(0, userId, text));
      ParseResume(saved.id, nlpReply);
      r := Ok(ResumeDto(resumes.rows[saved.id - 1]));
    }

    /** `getResume`: only the owner sees a resume. */
    method GetResume(resumeId: int, userId: int) returns (r: Result<ResumeResponse>)
      requires Valid()
      ensures r.Ok? <==> exists i :: 0 <= i < |resumes.rows| && resumes.rows[i].id == resumeId && resumes.rows[i].userId == userId
      ensures r.Ok? ==> r.value == ResumeDto(resumes.rows[resumeId - 1])
      ensures r.Err? ==> r.msg == ResumeNotFound
    {
      var found := OwnedResume(resumes.rows, resumeId, userId);
      if found.None? {
        return Err(ResumeNotFound);
      }
      r := Ok(ResumeDto(found.value));
    }

    /** `getUserResumes`: every resume of the user, newest first. */
    method GetUserResumes(userId: int) returns (r: seq<ResumeResponse>)
      requires Valid()
      ensures r == UserResumes(resumes.rows, userId)
    {
      r := UserResumes(resumes.rows, userId);
    }
  }

  /** The rows `findByUserIdOrderByCreatedAtDesc` selects. */
  function OwnedBy(userId: int): Resume -> bool {
    (x: Resume) => x.userId == userId
  }

  /** The answer of `getUserResumes`: the user's rows, newest first, as responses. */
  function UserResumes(rows: seq<Resume>, userId: int): (r: seq<ResumeResponse>)
    ensures |r| == |NewestFirst(rows, OwnedBy(userId))|
    ensures forall k :: 0 <= k < |r| ==> r[k] == ResumeDto(NewestFirst(rows, OwnedBy(userId))[k])
  {
    var owned := NewestFirst(rows, OwnedBy(userId));
    seq(|owned|, i requires 0 <= i < |owned| => ResumeDto(owned[i]))
  }

  /** The list is ordered by decreasing id. */
  lemma UserResumesNewestFirst(rows: seq<Resume>, userId: int)
    requires ResumeIds(rows)
    ensures forall i, j :: 0 <= i < j < |UserResumes(rows, userId)| ==> UserResumes(rows, userId)[i].id > UserResumes(rows, userId)[j].id
  {
    var owned := NewestFirst(rows, OwnedBy(userId));
    var r := UserResumes(rows, userId);
    ResumeIdsIncrease(rows);
    NewestFirstShape(rows, OwnedBy(userId), (x: Resume) => x.id);
    forall i, j | 0 <= i < j < |r| ensures r[i].id > r[j].id {
      assert r[i].id == owned[i].id && r[j].id == owned[j].id;
    }
  }

  /** The list holds only the user's resumes, and every one of them. */
  lemma UserResumesExactlyOwned(rows: seq<Resume>, userId: int)
    requires ResumeIds(rows)
    ensures forall k :: 0 <= k < |UserResumes(rows, userId)| ==>
              exists i :: 0 <= i < |rows| && rows[i].userId == userId && UserResumes(rows, userId)[k] == ResumeDto(rows[i])
    ensures forall i :: 0 <= i < |rows| && rows[i].userId == userId ==> ResumeDto(rows[i]) in UserResumes(rows, userId)
  {
    var owned := NewestFirst(rows, OwnedBy(userId));
    var r := UserResumes(rows, userId);
    NewestFirstMembers(rows, OwnedBy(userId));
    forall k | 0 <= k < |r| ensures exists i :: 0 <= i < |rows| && rows[i].userId == userId && r[k] == ResumeDto(rows[i]) {
      var i :| 0 <= i < |rows| && rows[i] == owned[k];
      assert OwnedBy(userId)(rows[i]);
    }
    forall i | 0 <= i < |rows| && rows[i].userId == userId ensures ResumeDto(rows[i]) in r {
      assert OwnedBy(userId)(rows[i]);
      var k :| 0 <= k < |owned| && owned[k] == rows[i];
      assert r[k] == ResumeDto(rows[i]);
    }
  }
}
