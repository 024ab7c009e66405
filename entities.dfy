/** The persistent entities and the response objects built from them. Ids are
    the positive numbers an identity column hands out; `createdAt` is left out
    and "newest first" is taken to be "highest id first". */
module Entities {
  import opened Wrappers
  import opened JsonTree
  import Numeric

  /** `EnhancedResume.Language`. */
  datatype Language = ORIGINAL | EN | ZH

  datatype User = User(id: int, email: string, passwordHash: string, fullName: string)

  /** `Resume`: `rawText` and `parsedJson` start out null, `parseError` false. */
  datatype Resume = Resume(
    id: int,
    userId: int,
    fileUrl: string,
    rawText: Option<string>,
    parsedJson: Option<Json>,
    parseError: bool)

  /** `EnhancedResume`; `suggestions` is the JSON column holding `{"suggestions": [...]}`. */
  datatype EnhancedResume = EnhancedResume(
    id: int,
    resumeId: int,
    enhancedText: string,
    language: Language,
    suggestions: Option<Json>,
    enhancementType: string)

  /** An uploaded file: its name and content type may be missing. */
  datatype MultipartFile = MultipartFile(originalFilename: Option<string>, contentType: Option<string>, bytes: seq<Numeric.byte>)

  /** `ResumeResponse`. */
  datatype ResumeResponse = ResumeResponse(id: int, fileUrl: string, rawText: Option<string>, parsedJson: Option<Json>, parseError: bool)

  /** `EnhancedResumeResponse`; a text-only translation has no id and no resume id. */
  datatype EnhancedResumeResponse = EnhancedResumeResponse(
    id: Option<int>,
    resumeId: Option<int>,
    enhancedText: string,
    language: Language,
    suggestions: Option<seq<Json>>,
    enhancementType: string)

  /** `ResumeService.convertToDto`: a field-by-field copy. */
  function ResumeDto(r: Resume): ResumeResponse {
    ResumeResponse(r.id, r.fileUrl, r.rawText, r.parsedJson, r.parseError)
  }
}
