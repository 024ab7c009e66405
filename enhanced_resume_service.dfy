/** `EnhancedResumeService`: analysing a resume (reusing the newest analysis
    unless a refresh is forced, otherwise rewriting it through GPT or a local
    template), translating a resume or a piece of text, and reading the saved
    versions back. Everything the operations change is gathered into
    `Effects`: the saved versions, the usage counters and the response cache.
    The spec functions `Analysis` and `Translation` say what an operation
    answers and leaves behind from the state it finds; the methods are
    proved against them and the lemmas state what those functions promise. */
module EnhancedResumeService {
  import opened Wrappers
  import opened Strings
  import opened JavaText
  import opened JsonTree
  import opened Entities
  import opened Repositories
  import UsageTracking
  import CacheService
  import GptService

  const ResumeNotFound: string := "Resume not found"
  const TextNotReady: string := "Resume text is not available yet"
  const QuotaExceeded: string := "Daily GPT usage limit exceeded. Please try again tomorrow or use local mode."
  const AnalyzeFailed: string := "Failed to analyze resume: "
  const TranslateFailed: string := "Failed to translate resume: "
  const NoSource: string := "Either resumeId or text must be provided"
  const EmptySource: string := "Source text is empty"
  const VersionNotFound: string := "Enhanced resume not found"

  /** `AnalyzeRequest`; `forceRefresh` is a `Boolean` and may be null. */
  datatype AnalyzeRequest = AnalyzeRequest(resumeId: int, jobDescription: Option<string>, mode: Option<string>, forceRefresh: Option<bool>)

  /** `EnhanceRequest`. */
  datatype EnhanceRequest = EnhanceRequest(resumeId: int, jobDescription: Option<string>, mode: Option<string>)

  /** `TranslateRequest`: either a resume or a piece of text. */
  datatype TranslateRequest = TranslateRequest(resumeId: Option<int>, text: Option<string>, targetLang: string, mode: Option<string>)

  /** What the two chat-completion calls of an analysis would answer. */
  datatype Replies = Replies(enhance: Result<string>, suggestions: Result<string>)

  /** What a GPT path yields, and the response cache it leaves. */
  datatype GptOutcome<T> = GptOutcome(result: Result<T>, store: map<string, CacheService.Entry>)

  /** The GPT path of an analysis yields the enhanced text and, for a resume
      with parsed JSON, the suggestions. */
  type AnalysisOutcome = GptOutcome<(string, Option<StringList>)>

  /** The state the operations change. */
  datatype Effects = Effects(versions: seq<EnhancedResume>, counters: map<string, int>, store: map<string, CacheService.Entry>)

  // ------------------------------------------------------------ the local template

  const Banner: string := "# Enhanced Resume\n\n" + "*This resume has been optimized for professional presentation*\n\n"

  /** One section, trimmed, with three phrases replaced regardless of case. */
  function ImproveSection(section: string): string {
    ReplaceAllIgnoreCase(ReplaceAllIgnoreCase(ReplaceAllIgnoreCase(Trim(section), "responsible for", "Led"),
                                              "worked on", "Developed"),
                         "helped with", "Collaborated on")
  }

  /** What a section contributes: nothing when it is blank. */
  function SectionText(section: string): string {
    if IsBlank(section) then "" else ImproveSection(section) + "\n\n"
  }

  /** The texts `f` gives the elements of `xs`, one after the other. */
  function ConcatMap<T>(f: T -> string, xs: seq<T>): string {
    if xs == [] then "" else ConcatMap(f, xs[..|xs| - 1]) + f(xs[|xs| - 1])
  }

  lemma ConcatMapSnoc<T>(f: T -> string, xs: seq<T>, x: T)
    ensures ConcatMap(f, xs + [x]) == ConcatMap(f, xs) + f(x)
  {
    assert (xs + [x])[..|xs|] == xs;
  }

  lemma {:induction false} ConcatMapAppend<T>(f: T -> string, a: seq<T>, b: seq<T>)
    ensures ConcatMap(f, a + b) == ConcatMap(f, a) + ConcatMap(f, b)
    decreases |b|
  {
    if b == [] {
      assert a + b == a;
    } else {
      var init, last := b[..|b| - 1], b[|b| - 1];
      assert b == init + [last];
      AppendAssoc(a, init, [last]);
      ConcatMapSnoc(f, a + init, last);
      ConcatMapSnoc(f, init, last);
      ConcatMapAppend(f, a, init);
      AppendAssoc(ConcatMap(f, a), ConcatMap(f, init), f(last));
    }
  }

  /** The contributions of the sections, in order. */
  function Sections(sections: seq<string>): string {
    ConcatMap(SectionText, sections)
  }

  /** The closing note naming the role: the first 100 UTF-16 units of a
      non-blank job description. */
  function RoleNote(jobDescription: Option<string>): string {
    if jobDescription.Some? && !IsBlank(jobDescription.value) then
      "---\n" + ("*Enhanced for role: " + Utf16Prefix(jobDescription.value, 100) + "...*\n")
    else ""
  }

  /** The text `enhanceWithLocalTemplate` builds: the banner, every non-blank
      section of the resume (sections are separated by a blank line) and the
      role note. */
  function LocalEnhancement(resumeText: string, jobDescription: Option<string>): string {
    Banner + Sections(Split(resumeText, "\n\n")) + RoleNote(jobDescription)
  }

  /** `enhanceWithLocalTemplate`. */
  method EnhanceWithLocalTemplate(resumeText: string, jobDescription: Option<string>) returns (enhanced: string)
    ensures enhanced == LocalEnhancement(resumeText, jobDescription)
  {
    enhanced := Banner;
    var sections := Split(resumeText, "\n\n");
    var i := 0;
    while i < |sections|
      invariant 0 <= i <= |sections|
      invariant enhanced == Banner + Sections(sections[..i])
    {
      assert sections[..i + 1] == sections[..i] + [sections[i]];
      ConcatMapSnoc(SectionText, sections[..i], sections[i]);
      if !IsBlank(sections[i]) {
        AppendAssoc(Banner, Sections(sections[..i]), ImproveSection(sections[i]) + "\n\n");
        enhanced := enhanced + (ImproveSection(sections[i]) + "\n\n");
      }
      i := i + 1;
    }
    assert sections[..|sections|] == sections;
    if jobDescription.Some? && !IsBlank(jobDescription.value) {
      enhanced := enhanced + ("---\n" + ("*Enhanced for role: " + Utf16Prefix(jobDescription.value, 100) + "...*\n"));
    }
  }

  /** Sections are improved one by one: the text of a list is the text of
      its parts. */
  lemma SectionsAppend(a: seq<string>, b: seq<string>)
    ensures Sections(a + b) == Sections(a) + Sections(b)
  {
    ConcatMapAppend(SectionText, a, b);
  }

  /** Blank sections leave no trace. */
  lemma {:induction false} BlankSectionsVanish(sections: seq<string>)
    requires forall i :: 0 <= i < |sections| ==> IsBlank(sections[i])
    ensures Sections(sections) == ""
  {
    if sections != [] {
      BlankSectionsVanish(sections[..|sections| - 1]);
    }
  }

  /** The local text opens with the banner; without a usable job
      description there is nothing after the sections. */
  lemma LocalEnhancementOpens(resumeText: string, jobDescription: Option<string>)
    ensures StartsWith(LocalEnhancement(resumeText, jobDescription), Banner)
    ensures jobDescription.None? || IsBlank(jobDescription.value) ==>
              LocalEnhancement(resumeText, jobDescription) == Banner + Sections(Split(resumeText, "\n\n"))
  {
    var body := Sections(Split(resumeText, "\n\n"));
    AppendEnds(Banner + body, RoleNote(jobDescription));
    AppendEnds(Banner, body);
  }

  /** A non-blank job description closes the text with the role note, which
      names the description's first 100 UTF-16 units. */
  lemma LocalEnhancementNamesRole(resumeText: string, jobDescription: Option<string>)
    requires jobDescription.Some? && !IsBlank(jobDescription.value)
    ensures EndsWith(LocalEnhancement(resumeText, jobDescription), "...*\n")
    ensures Contains(LocalEnhancement(resumeText, jobDescription), "*Enhanced for role: " + Utf16Prefix(jobDescription.value, 100))
  {
    var head := Banner + Sections(Split(resumeText, "\n\n"));
    var line := "*Enhanced for role: " + Utf16Prefix(jobDescription.value, 100);
    EndsWithLast(head, "---\n", line + "...*\n");
    EndsWithLast(head + "---\n", line, "...*\n");
    AppendAssoc(head, "---\n", line + "...*\n");
    AppendAssoc(head + "---\n", line, "...*\n");
    ContainsMiddle(head + "---\n", line, "...*\n");
  }

  /** A section opening with "responsible for", in any case, opens with
      "Led" instead, and the rest of it goes through the same three
      replacements. */
  lemma PhraseRewritten(m: string, rest: string)
    requires EqualsIgnoreCase(m, "responsible for")
    requires rest == [] || !IsTrimmable(rest[|rest| - 1])
    ensures ImproveSection(m + rest)
              == "Led" + ReplaceAllIgnoreCase(ReplaceAllIgnoreCase(ReplaceAllIgnoreCase(rest, "responsible for", "Led"),
                                                                    "worked on", "Developed"),
                                               "helped with", "Collaborated on")
  {
    var phrase := "responsible for";
    assert phrase[0] == 'r' && phrase[|phrase| - 1] == 'r';
    TrimmedMatchAtFront(m, rest, phrase, "Led");
    LedSurvives(ReplaceAllIgnoreCase(rest, "responsible for", "Led"));
  }

  /** The other two replacements of `PhraseRewritten` leave "Led" in front. */
  lemma LedSurvives(r1: string)
    ensures ReplaceAllIgnoreCase(ReplaceAllIgnoreCase("Led" + r1, "worked on", "Developed"), "helped with", "Collaborated on")
              == "Led" + ReplaceAllIgnoreCase(ReplaceAllIgnoreCase(r1, "worked on", "Developed"), "helped with", "Collaborated on")
  {
    LedStartsNoPhrase();
    ReplaceSkipsPrefix("Led", r1, "worked on", "Developed");
    ReplaceSkipsPrefix("Led", ReplaceAllIgnoreCase(r1, "worked on", "Developed"), "helped with", "Collaborated on");
  }

  /** No letter of "Led" can start "worked on" or "helped with". */
  lemma LedStartsNoPhrase()
    ensures forall i :: 0 <= i < |"Led"| ==> AsciiLower("Led"[i]) != AsciiLower("worked on"[0])
    ensures forall i :: 0 <= i < |"Led"| ==> AsciiLower("Led"[i]) != AsciiLower("helped with"[0])
  {
    var led := "Led";
    assert led[0] == 'L' && led[1] == 'e' && led[2] == 'd';
    assert AsciiLower('L') == 'l';
    assert "worked on"[0] == 'w' && "helped with"[0] == 'h';
  }

  // ------------------------------------------------------------ the local translation

  const EnglishBanner: string := "# English Resume\n\n" + "*Translated from " + "original language*\n\n"
  const ChineseBanner: string := "# \U{4E2D}\U{6587}\U{7B80}\U{5386}\n\n*\U{4ECE}\U{539F}\U{8BED}\U{8A00}\U{7FFB}\U{8BD1}*\n\n"

  function TranslationBanner(targetLang: string): string {
    if targetLang == "en" then EnglishBanner else ChineseBanner
  }

  /** `translateWithLocalMethod`: a banner in front of the untouched text. */
  function LocalTranslation(text: string, targetLang: string): string {
    TranslationBanner(targetLang) + text
  }

  /** The text survives the local translation unchanged after the banner,
      and the banner is the English one exactly for "en". */
  lemma LocalTranslationKeepsText(text: string, targetLang: string)
    ensures var out := LocalTranslation(text, targetLang);
            out[|TranslationBanner(targetLang)|..] == text && EndsWith(out, text)
    ensures StartsWith(LocalTranslation(text, targetLang), EnglishBanner) <==> targetLang == "en"
  {
    var out := LocalTranslation(text, targetLang);
    var b := TranslationBanner(targetLang);
    assert out[|b|..] == text;
    AppendEnds(b, text);
    if targetLang != "en" {
      assert out == ChineseBanner + text;
      assert out[2] == ChineseBanner[2] == '\U{4E2D}';
      assert EnglishBanner[2] == "# English Resume\n\n"[2] == 'E';
      assert !StartsWith(out, EnglishBanner) by {
        if |out| >= |EnglishBanner| {
          assert out[..|EnglishBanner|][2] == out[2];
        }
      }
    }
  }

  /** The language recorded for a translation: EN for "en", ZH for every
      other code. */
  function LanguageTag(targetLang: string): (l: Language)
    ensures l != ORIGINAL
    ensures l == EN <==> targetLang == "en"
  {
    if targetLang == "en" then EN else ZH
  }

  // ------------------------------------------------------------ responses

  /** The JSON column written for a list of suggestions: `{"suggestions": [...]}`. */
  function SuggestionsColumn(suggestions: StringList): Json {
    JObject(map["suggestions" := JArray(JsonTree.Strings(suggestions))])
  }

  /** The list `convertToDto` reads back from the column as the entity just
      saved holds it, the JSON text written at save: the "suggestions" array
      of an object, nothing for anything else. */
  function StoredSuggestions(column: Option<Json>): (r: Option<seq<Json>>)
    ensures r.Some? <==> column.Some? && Get(column.value, "suggestions").Some? && Get(column.value, "suggestions").value.JArray?
  {
    if column.None? then None
    else
      var node := Get(column.value, "suggestions");
      if node.Some? && node.value.JArray? then Some(node.value.elems) else None
  }

  /** `convertToDto`. */
  function ConvertToDto(e: EnhancedResume): EnhancedResumeResponse {
    EnhancedResumeResponse(Some(e.id), Some(e.resumeId), e.enhancedText, e.language, StoredSuggestions(e.suggestions), e.enhancementType)
  }

  /** Suggestions written to the column come back from the response as the
      same list, `null` entries included. */
  lemma SuggestionsRoundTrip(suggestions: StringList)
    ensures StoredSuggestions(Some(SuggestionsColumn(suggestions))) == Some(JsonTree.Strings(suggestions))
    ensures AsStringList(StoredSuggestions(Some(SuggestionsColumn(suggestions))).value) == Ok(suggestions)
  {
    StringsRoundTrip(suggestions);
  }

  /** What the column of `suggestions` becomes. */
  function ColumnOf(suggestions: Option<StringList>): Option<Json> {
    if suggestions.None? then None else Some(SuggestionsColumn(suggestions.value))
  }

  /** The newest version of a resume is reused when it is a rewrite. */
  function Reusable(versions: seq<EnhancedResume>): Option<EnhancedResume> {
    if |versions| > 0 && versions[0].enhancementType == "rewrite" then Some(versions[0]) else None
  }

  /** The version saved last decides reuse: a rewrite is reused, anything
      else (a translation) is not. */
  lemma NewestDecidesReuse(rows: seq<EnhancedResume>, e: EnhancedResume)
    ensures Reusable(VersionsOf(rows + [e], e.resumeId)) == if e.enhancementType == "rewrite" then Some(e) else None
  {
    VersionsAfterInsert(rows, e, e.resumeId);
  }

  /** The counters after one analysis through GPT, with tracking on: one more
      GPT use and one more enhancement for that user and day, nothing else. */
  lemma GptAnalysisCharges(counters: map<string, int>, userId: int, date: string, kind: UsageTracking.Kind, u: int, d: string)
    ensures var after := UsageTracking.Tracked(true, UsageTracking.Tracked(true, counters, UsageTracking.Gpt, userId, date),
                                               UsageTracking.Enhancement, userId, date);
            UsageTracking.Count(after, kind, u, d) ==
              UsageTracking.Count(counters, kind, u, d) + (if u == userId && d == date then 1 else 0)
  {
    var mid := UsageTracking.Tracked(true, counters, UsageTracking.Gpt, userId, date);
    UsageTracking.TrackMovesOnlyItsCounter(counters, UsageTracking.Gpt, userId, date, kind, u, d);
    UsageTracking.TrackMovesOnlyItsCounter(mid, UsageTracking.Enhancement, userId, date, kind, u, d);
  }

  // ------------------------------------------------------------ the service

  class EnhancedResumeService {
    const resumes: ResumeRepository
    const versions: EnhancedResumeRepository
    const gpt: GptService.GptService
    /** The optional usage tracker; `null` when none is configured. */
    const usage: UsageTracking.UsageTrackingService?

    constructor (resumes: ResumeRepository, versions: EnhancedResumeRepository, gpt: GptService.GptService,
                 usage: UsageTracking.UsageTrackingService?)
      ensures this.resumes == resumes && this.versions == versions && this.gpt == gpt && this.usage == usage
    {
      this.resumes := resumes;
      this.versions := versions;
      this.gpt := gpt;
      this.usage := usage;
    }

    ghost predicate Valid()
      reads resumes, versions
    {
      ResumeIds(resumes.rows) && EnhancedIds(versions.rows)
    }

    function State(): Effects
      reads versions, usage, gpt.cache
    {
      Effects(versions.rows, if usage == null then map[] else usage.counters, gpt.Store())
    }

    /** The GPT path is taken for mode "gpt" when a key is configured. */
    predicate UsesGpt(mode: Option<string>) {
      mode == Some("gpt") && gpt.Available()
    }

    predicate GptAllowed(counters: map<string, int>, userId: int, date: string) {
      usage == null || UsageTracking.CanUse(usage.enabled, usage.dailyGptLimit, counters, UsageTracking.Gpt, userId, date)
    }

    function Charge(counters: map<string, int>, kind: UsageTracking.Kind, userId: int, date: string): map<string, int> {
      if usage == null then counters else UsageTracking.Tracked(usage.enabled, counters, kind, userId, date)
    }

    // ---------------------------------------------------------- analysis

    /** The GPT path against `store`: the enhanced text and, for a resume
        with parsed JSON, the suggestions, which are looked up in the store
        the enhancement left; and the store both calls leave. */
    function GptAnalysis(store: map<string, CacheService.Entry>, text: string, parsedJson: Option<Json>, jobDescription: Option<string>,
                         replies: Replies, now: int, storeDown: bool): AnalysisOutcome
    {
      var prompt := GptService.BuildEnhancePrompt(gpt.enhanceWording, text, jobDescription);
      var enhanced := gpt.EnhanceResult(store, prompt, replies.enhance, now, storeDown);
      var after := gpt.EnhanceStore(store, prompt, replies.enhance, now, storeDown);
      if enhanced.Err? then GptOutcome(Err(enhanced.msg), after)
      else if parsedJson.None? then GptOutcome(Ok((enhanced.value, None)), after)
      else
        var suggestions := gpt.SuggestionsResult(after, parsedJson.value, jobDescription, replies.suggestions, now, storeDown);
        var last := gpt.SuggestionsStore(after, parsedJson.value, jobDescription, replies.suggestions, now, storeDown);
        if suggestions.Err? then GptOutcome(Err(suggestions.msg), last)
        else GptOutcome(Ok((enhanced.value, Some(suggestions.value))), last)
    }

    /** The GPT path for any resume text and parsed JSON, against `store`.
        The analysis functions below take the GPT path as a parameter, so
        that what they state holds whatever the GPT calls answer. */
    function GptPath(store: map<string, CacheService.Entry>, jobDescription: Option<string>, replies: Replies, now: int, storeDown: bool)
      : (string, Option<Json>) -> AnalysisOutcome
    {
      (text: string, parsedJson: Option<Json>) => GptAnalysis(store, text, parsedJson, jobDescription, replies, now, storeDown)
    }

    /** A new "rewrite" version of a resume, and its response. */
    function SaveRewrite(s: Effects, resumeId: int, text: string, suggestions: Option<StringList>): (Result<EnhancedResumeResponse>, Effects) {
      var e := EnhancedResume(|s.versions| + 1, resumeId, text, ORIGINAL, ColumnOf(suggestions), "rewrite");
      (Ok(ConvertToDto(e)), s.(versions := s.versions + [e]))
    }

    /** The local path of the `try` block of `analyzeResume`: the template's
        text is saved and one enhancement is charged. */
    function LocalRegeneration(s: Effects, resume: Resume, userId: int, jobDescription: Option<string>, date: string)
      : (Result<EnhancedResumeResponse>, Effects)
      requires resume.rawText.Some?
    {
      SaveRewrite(s.(counters := Charge(s.counters, UsageTracking.Enhancement, userId, date)), resume.id,
                  LocalEnhancement(resume.rawText.value, jobDescription), None)
    }

    /** The GPT path of the `try` block of `analyzeResume`: behind the quota,
        and every failure reported behind "Failed to analyze resume: ". */
    function GptRegeneration(s: Effects, resume: Resume, userId: int, g: AnalysisOutcome, date: string): (Result<EnhancedResumeResponse>, Effects) {
      if !GptAllowed(s.counters, userId, date) then (Err(AnalyzeFailed + QuotaExceeded), s)
      else if g.result.Err? then (Err(AnalyzeFailed + g.result.msg), s.(store := g.store))
      else
        var counters := Charge(Charge(s.counters, UsageTracking.Gpt, userId, date), UsageTracking.Enhancement, userId, date);
        SaveRewrite(s.(store := g.store, counters := counters), resume.id, g.result.value.0, g.result.value.1)
    }

    /** The part of `analyzeResume` inside its `try`. */
    function Regeneration(s: Effects, resume: Resume, userId: int, jobDescription: Option<string>, mode: Option<string>,
                          gptPath: (string, Option<Json>) -> AnalysisOutcome, date: string): (Result<EnhancedResumeResponse>, Effects)
      requires resume.rawText.Some?
    {
      if UsesGpt(mode) then GptRegeneration(s, resume, userId, gptPath(resume.rawText.value, resume.parsedJson), date)
      else LocalRegeneration(s, resume, userId, jobDescription, date)
    }

    /** `analyzeResume`: the answer and the state left behind. */
    function Analysis(rows: seq<Resume>, s: Effects, userId: int, req: AnalyzeRequest,
                      gptPath: (string, Option<Json>) -> AnalysisOutcome, date: string): (Result<EnhancedResumeResponse>, Effects)
      requires ResumeIds(rows)
    {
      var resume := OwnedResume(rows, req.resumeId, userId);
      if resume.None? then (Err(ResumeNotFound), s)
      else if resume.value.rawText.None? || IsBlank(resume.value.rawText.value) then (Err(TextNotReady), s)
      else if req.forceRefresh != Some(true) && Reusable(VersionsOf(s.versions, req.resumeId)).Some? then
        (Ok(ConvertToDto(Reusable(VersionsOf(s.versions, req.resumeId)).value)), s)
      else Regeneration(s, resume.value, userId, req.jobDescription, req.mode, gptPath, date)
    }

    /** The GPT path of the analysis. */
    method AnalyzeWithGpt(text: string, parsedJson: Option<Json>, jobDescription: Option<string>, replies: Replies, now: int, storeDown: bool)
      returns (r: Result<(string, Option<StringList>)>)
      modifies gpt.cache
      ensures r == GptAnalysis(old(gpt.Store()), text, parsedJson, jobDescription, replies, now, storeDown).result
      ensures gpt.Store() == GptAnalysis(old(gpt.Store()), text, parsedJson, jobDescription, replies, now, storeDown).store
    {
      var enhanced := gpt.EnhanceResume(text, jobDescription, replies.enhance, now, storeDown);
      if enhanced.Err? {
        return Err(enhanced.msg);
      }
      if parsedJson.None? {
        return Ok((enhanced.value, None));
      }
      var suggestions := gpt.GenerateSuggestions(parsedJson.value, jobDescription, replies.suggestions, now, storeDown);
      if suggestions.Err? {
        return Err(suggestions.msg);
      }
      r := Ok((enhanced.value, Some(suggestions.value)));
    }

    method TrackGpt(userId: int, date: string)
      modifies usage
      ensures usage != null ==> usage.counters == Charge(old(usage.counters), UsageTracking.Gpt, userId, date)
    {
      if usage != null {
        usage.TrackGptUsage(userId, date);
      }
    }

    method TrackEnhancement(userId: int, date: string)
      modifies usage
      ensures usage != null ==> usage.counters == Charge(old(usage.counters), UsageTracking.Enhancement, userId, date)
    {
      if usage != null {
        usage.TrackEnhancementUsage(userId, date);
      }
    }

    method CheckGpt(userId: int, date: string) returns (allowed: bool)
      ensures allowed == GptAllowed(State().counters, userId, date)
    {
      if usage == null {
        return true;
      }
      allowed := usage.CanUseGptService(userId, date);
    }

    method SaveVersion(e: EnhancedResume) returns (dto: EnhancedResumeResponse)
      requires EnhancedIds(versions.rows)
      modifies versions
      ensures dto == ConvertToDto(e.(id := |old(versions.rows)| + 1))
      ensures versions.rows == old(versions.rows) + [e.(id := |old(versions.rows)| + 1)] && EnhancedIds(versions.rows)
    {
      var saved := versions.Insert(e);
      dto := ConvertToDto(saved);
    }

    /** The local path of the `try` block of `analyzeResume`. */
    method RegenerateLocally(resume: Resume, userId: int, jobDescription: Option<string>, date: string)
      returns (r: Result<EnhancedResumeResponse>)
      requires resume.rawText.Some? && EnhancedIds(versions.rows)
      modifies versions, usage
      ensures EnhancedIds(versions.rows)
      ensures (r, State()) == LocalRegeneration(old(State()), resume, userId, jobDescription, date)
    {
      ghost var before := State();
      var enhancedText := EnhanceWithLocalTemplate(resume.rawText.value, jobDescription);
      TrackEnhancement(userId, date);
      assert State().counters == Charge(before.counters, UsageTracking.Enhancement, userId, date);
      assert State().store == before.store;
      var dto := SaveVersion(EnhancedResume(0, resume.id, enhancedText, ORIGINAL, None, "rewrite"));
      assert State().store == before.store;
      r := Ok(dto);
    }

    /** The GPT path of the `try` block of `analyzeResume`. */
    method RegenerateWithGpt(resume: Resume, userId: int, jobDescription: Option<string>,
                             replies: Replies, date: string, now: int, storeDown: bool) returns (r: Result<EnhancedResumeResponse>)
      requires resume.rawText.Some? && EnhancedIds(versions.rows)
      modifies versions, usage, gpt.cache
      ensures EnhancedIds(versions.rows)
      ensures (r, State()) == GptRegeneration(old(State()), resume, userId,
                                              GptAnalysis(old(State()).store, resume.rawText.value, resume.parsedJson, jobDescription, replies, now, storeDown), date)
    {
      var allowed := CheckGpt(userId, date);
      if !allowed {
        return Err(AnalyzeFailed + QuotaExceeded);
      }
      var g := AnalyzeWithGpt(resume.rawText.value, resume.parsedJson, jobDescription, replies, now, storeDown);
      if g.Err? {
        return Err(AnalyzeFailed + g.msg);
      }
      r := SaveGptRewrite(resume.id, g.value.0, g.value.1, userId, date);
    }

    /** Charging one GPT call and one enhancement, then saving the rewrite. */
    method SaveGptRewrite(resumeId: int, text: string, suggestions: Option<StringList>, userId: int, date: string)
      returns (r: Result<EnhancedResumeResponse>)
      requires EnhancedIds(versions.rows)
      modifies versions, usage
      ensures EnhancedIds(versions.rows)
      ensures (r, State()) == SaveRewrite(old(State()).(counters := Charge(Charge(old(State()).counters, UsageTracking.Gpt, userId, date),
                                                                           UsageTracking.Enhancement, userId, date)),
                                          resumeId, text, suggestions)
    {
      TrackGpt(userId, date);
      TrackEnhancement(userId, date);
      var dto := SaveVersion(EnhancedResume(0, resumeId, text, ORIGINAL, ColumnOf(suggestions), "rewrite"));
      r := Ok(dto);
    }

    /** The `try` block of `analyzeResume`. */
    method Regenerate(resume: Resume, userId: int, jobDescription: Option<string>, mode: Option<string>,
                      replies: Replies, date: string, now: int, storeDown: bool) returns (r: Result<EnhancedResumeResponse>)
      requires resume.rawText.Some? && EnhancedIds(versions.rows)
      modifies versions, usage, gpt.cache
      ensures EnhancedIds(versions.rows)
      ensures (r, State()) == Regeneration(old(State()), resume, userId, jobDescription, mode, GptPath(old(State()).store, jobDescription, replies, now, storeDown), date)
    {
      if mode == Some("gpt") && gpt.Available() {
        r := RegenerateWithGpt(resume, userId, jobDescription, replies, date, now, storeDown);
      } else {
        r := RegenerateLocally(resume, userId, jobDescription, date);
      }
    }

    /** `analyzeResume`. */
    method AnalyzeResume(req: AnalyzeRequest, userId: int, replies: Replies, date: string, now: int, storeDown: bool)
      returns (r: Result<EnhancedResumeResponse>)
      requires Valid()
      modifies versions, usage, gpt.cache
      ensures Valid()
      ensures (r, State()) == Analysis(resumes.rows, old(State()), userId, req, GptPath(old(State()).store, req.jobDescription, replies, now, storeDown), date)
    {
      var resume := OwnedResume(resumes.rows, req.resumeId, userId);
      if resume.None? {
        return Err(ResumeNotFound);
      }
      if resume.value.rawText.None? || IsBlank(resume.value.rawText.value) {
        return Err(TextNotReady);
      }
      if req.forceRefresh != Some(true) {
        var existing := VersionsOf(versions.rows, req.resumeId);
        if |existing| > 0 && existing[0].enhancementType == "rewrite" {
          return Ok(ConvertToDto(existing[0]));
        }
      }
      r := Regenerate(resume.value, userId, req.jobDescription, req.mode, replies, date, now, storeDown);
    }

    /** `enhanceResume`: an analysis that always regenerates. */
    method EnhanceResume(req: EnhanceRequest, userId: int, replies: Replies, date: string, now: int, storeDown: bool)
      returns (r: Result<EnhancedResumeResponse>)
      requires Valid()
      modifies versions, usage, gpt.cache
      ensures Valid()
      ensures (r, State()) == Analysis(resumes.rows, old(State()), userId, Forced(req), GptPath(old(State()).store, req.jobDescription, replies, now, storeDown), date)
    {
      r := AnalyzeResume(Forced(req), userId, replies, date, now, storeDown);
    }

    // ---------------------------------------------------------- properties of the analysis

    /** A regeneration that fails went through GPT and saved and charged
        nothing. */
    lemma FailedRegenerationChangesNoRecord(s: Effects, resume: Resume, userId: int, jobDescription: Option<string>, mode: Option<string>,
                                            gptPath: (string, Option<Json>) -> AnalysisOutcome, date: string)
      requires resume.rawText.Some?
      requires Regeneration(s, resume, userId, jobDescription, mode, gptPath, date).0.Err?
      ensures UsesGpt(mode)
      ensures var after := Regeneration(s, resume, userId, jobDescription, mode, gptPath, date).1;
              after.versions == s.versions && after.counters == s.counters
    {
    }

    /** A regeneration that succeeds saves one new "rewrite" version of the
        resume in the original language, answers with it, and charges one
        enhancement, and one GPT use too when it went through GPT. */
    lemma SuccessfulRegenerationSavesOneRewrite(s: Effects, resume: Resume, userId: int, jobDescription: Option<string>, mode: Option<string>,
                                                gptPath: (string, Option<Json>) -> AnalysisOutcome, date: string)
      requires resume.rawText.Some?
      requires Regeneration(s, resume, userId, jobDescription, mode, gptPath, date).0.Ok?
      ensures var (r, after) := Regeneration(s, resume, userId, jobDescription, mode, gptPath, date);
              |after.versions| == |s.versions| + 1 && after.versions[..|s.versions|] == s.versions
              && var e := after.versions[|s.versions|];
                 e.id == |s.versions| + 1 && e.resumeId == resume.id && e.language == ORIGINAL
                 && e.enhancementType == "rewrite" && r.value == ConvertToDto(e)
      ensures Regeneration(s, resume, userId, jobDescription, mode, gptPath, date).1.counters ==
                if UsesGpt(mode) then Charge(Charge(s.counters, UsageTracking.Gpt, userId, date), UsageTracking.Enhancement, userId, date)
                else Charge(s.counters, UsageTracking.Enhancement, userId, date)
    {
      var after := Regeneration(s, resume, userId, jobDescription, mode, gptPath, date).1;
      assert after.versions[..|s.versions|] == s.versions;
    }

    /** A failed analysis saves nothing and charges nothing; only the
        response cache may have been filled by a GPT call that succeeded
        before a later one failed. */
    lemma FailedAnalysisChangesNoRecord(rows: seq<Resume>, s: Effects, userId: int, req: AnalyzeRequest,
                                        gptPath: (string, Option<Json>) -> AnalysisOutcome, date: string)
      requires ResumeIds(rows)
      requires Analysis(rows, s, userId, req, gptPath, date).0.Err?
      ensures var after := Analysis(rows, s, userId, req, gptPath, date).1;
              after.versions == s.versions && after.counters == s.counters
      ensures var resume := OwnedResume(rows, req.resumeId, userId);
              resume.None? || resume.value.rawText.None? || IsBlank(resume.value.rawText.value) || !UsesGpt(req.mode) ==>
                Analysis(rows, s, userId, req, gptPath, date).1 == s
    {
      var resume := OwnedResume(rows, req.resumeId, userId);
      if resume.Some? && resume.value.rawText.Some? && !IsBlank(resume.value.rawText.value)
         && (req.forceRefresh == Some(true) || Reusable(VersionsOf(s.versions, req.resumeId)).None?) {
        FailedRegenerationChangesNoRecord(s, resume.value, userId, req.jobDescription, req.mode, gptPath, date);
      }
    }

    /** The guards of the analysis, in their order. */
    lemma AnalysisGuards(rows: seq<Resume>, s: Effects, userId: int, req: AnalyzeRequest,
                         gptPath: (string, Option<Json>) -> AnalysisOutcome, date: string)
      requires ResumeIds(rows)
      ensures OwnedResume(rows, req.resumeId, userId).None? ==>
                Analysis(rows, s, userId, req, gptPath, date) == (Err(ResumeNotFound), s)
      ensures var resume := OwnedResume(rows, req.resumeId, userId);
              resume.Some? && (resume.value.rawText.None? || IsBlank(resume.value.rawText.value)) ==>
                Analysis(rows, s, userId, req, gptPath, date) == (Err(TextNotReady), s)
    {
    }

    /** A successful analysis that did not reuse a version saves exactly one
        new "rewrite" version of the resume in the original language and
        answers with it. */
    lemma SuccessSavesOneRewrite(rows: seq<Resume>, s: Effects, userId: int, req: AnalyzeRequest,
                                 gptPath: (string, Option<Json>) -> AnalysisOutcome, date: string)
      requires ResumeIds(rows)
      requires Analysis(rows, s, userId, req, gptPath, date).0.Ok?
      ensures var (r, after) := Analysis(rows, s, userId, req, gptPath, date);
              after.versions == s.versions
              || (|after.versions| == |s.versions| + 1 && after.versions[..|s.versions|] == s.versions
                  && var e := after.versions[|s.versions|];
                     e.id == |s.versions| + 1 && e.resumeId == req.resumeId && e.language == ORIGINAL
                     && e.enhancementType == "rewrite" && r.value == ConvertToDto(e))
      ensures req.forceRefresh == Some(true) ==> |Analysis(rows, s, userId, req, gptPath, date).1.versions| == |s.versions| + 1
    {
      var resume := OwnedResume(rows, req.resumeId, userId);
      if req.forceRefresh == Some(true) || Reusable(VersionsOf(s.versions, req.resumeId)).None? {
        SuccessfulRegenerationSavesOneRewrite(s, resume.value, userId, req.jobDescription, req.mode, gptPath, date);
      }
    }

    /** Analysing again without forcing a refresh returns the version the
        first analysis answered with, changes nothing and calls nothing, even
        for another job description or mode. */
    lemma AnalysisIsReused(rows: seq<Resume>, s: Effects, userId: int, req: AnalyzeRequest,
                           gptPath: (string, Option<Json>) -> AnalysisOutcome, date: string,
                           req2: AnalyzeRequest, gptPath2: (string, Option<Json>) -> AnalysisOutcome, date2: string)
      requires ResumeIds(rows)
      requires Analysis(rows, s, userId, req, gptPath, date).0.Ok?
      requires req2.resumeId == req.resumeId && req2.forceRefresh != Some(true)
      ensures var (r, after) := Analysis(rows, s, userId, req, gptPath, date);
              Analysis(rows, after, userId, req2, gptPath2, date2) == (r, after)
    {
      var (r, after) := Analysis(rows, s, userId, req, gptPath, date);
      var resume := OwnedResume(rows, req.resumeId, userId);
      if req.forceRefresh == Some(true) || Reusable(VersionsOf(s.versions, req.resumeId)).None? {
        SuccessfulRegenerationSavesOneRewrite(s, resume.value, userId, req.jobDescription, req.mode, gptPath, date);
        var e := after.versions[|s.versions|];
        assert after.versions == s.versions + [e];
        NewestDecidesReuse(s.versions, e);
        assert Reusable(VersionsOf(after.versions, req.resumeId)) == Some(e);
      }
    }

    /** With tracking on and the day's GPT quota used up, a GPT analysis that
        is not answered by a reusable version fails and changes nothing. */
    lemma QuotaStopsGpt(rows: seq<Resume>, s: Effects, userId: int, req: AnalyzeRequest,
                        gptPath: (string, Option<Json>) -> AnalysisOutcome, date: string)
      requires ResumeIds(rows) && usage != null && usage.enabled
      requires UsesGpt(req.mode)
      requires UsageTracking.Count(s.counters, UsageTracking.Gpt, userId, date) >= usage.dailyGptLimit
      requires var resume := OwnedResume(rows, req.resumeId, userId);
               resume.Some? && resume.value.rawText.Some? && !IsBlank(resume.value.rawText.value)
      requires req.forceRefresh == Some(true) || Reusable(VersionsOf(s.versions, req.resumeId)).None?
      ensures Analysis(rows, s, userId, req, gptPath, date) == (Err(AnalyzeFailed + QuotaExceeded), s)
    {
    }

    /** A successful analysis through GPT charges one GPT use and one
        enhancement; a local one charges one enhancement only. */
    lemma AnalysisCharges(rows: seq<Resume>, s: Effects, userId: int, req: AnalyzeRequest,
                          gptPath: (string, Option<Json>) -> AnalysisOutcome, date: string)
      requires ResumeIds(rows) && usage != null && usage.enabled
      requires var (r, after) := Analysis(rows, s, userId, req, gptPath, date);
               r.Ok? && after.versions != s.versions
      ensures var after := Analysis(rows, s, userId, req, gptPath, date).1;
              UsageTracking.Count(after.counters, UsageTracking.Enhancement, userId, date)
                == UsageTracking.Count(s.counters, UsageTracking.Enhancement, userId, date) + 1
              && UsageTracking.Count(after.counters, UsageTracking.Gpt, userId, date)
                == UsageTracking.Count(s.counters, UsageTracking.Gpt, userId, date) + (if UsesGpt(req.mode) then 1 else 0)
    {
      var resume := OwnedResume(rows, req.resumeId, userId);
      SuccessfulRegenerationSavesOneRewrite(s, resume.value, userId, req.jobDescription, req.mode, gptPath, date);
      var mid := UsageTracking.Tracked(true, s.counters, UsageTracking.Gpt, userId, date);
      UsageTracking.TrackMovesOnlyItsCounter(s.counters, UsageTracking.Gpt, userId, date, UsageTracking.Gpt, userId, date);
      UsageTracking.TrackMovesOnlyItsCounter(mid, UsageTracking.Enhancement, userId, date, UsageTracking.Enhancement, userId, date);
      UsageTracking.TrackMovesOnlyItsCounter(s.counters, UsageTracking.Enhancement, userId, date, UsageTracking.Gpt, userId, date);
    }

    /** The local path needs no key and no reply: its version holds the
        template's text and no suggestions. */
    lemma LocalAnalysisUsesTemplate(rows: seq<Resume>, s: Effects, userId: int, req: AnalyzeRequest,
                                    gptPath: (string, Option<Json>) -> AnalysisOutcome, date: string)
      requires ResumeIds(rows) && !UsesGpt(req.mode)
      requires var resume := OwnedResume(rows, req.resumeId, userId);
               resume.Some? && resume.value.rawText.Some? && !IsBlank(resume.value.rawText.value)
      requires req.forceRefresh == Some(true) || Reusable(VersionsOf(s.versions, req.resumeId)).None?
      ensures var (r, after) := Analysis(rows, s, userId, req, gptPath, date);
              r.Ok? && r.value.enhancedText == LocalEnhancement(OwnedResume(rows, req.resumeId, userId).value.rawText.value, req.jobDescription)
              && r.value.suggestions.None? && after.store == s.store
    {
    }

    // ---------------------------------------------------------- translation

    /** Where the text to translate comes from: the resume, when an id is
        given, otherwise the request's non-blank text. */
    function TranslationSource(rows: seq<Resume>, req: TranslateRequest, userId: int): (r: Result<(Option<int>, string)>)
      requires ResumeIds(rows)
      ensures r.Ok? ==> !IsBlank(r.value.1)
      ensures r.Ok? ==> (r.value.0.Some? <==> req.resumeId.Some?)
    {
      if req.resumeId.Some? then
        var resume := OwnedResume(rows, req.resumeId.value, userId);
        if resume.None? then Err(ResumeNotFound)
        else if resume.value.rawText.None? || IsBlank(resume.value.rawText.value) then Err(EmptySource)
        else Ok((Some(resume.value.id), resume.value.rawText.value))
      else if req.text.Some? && !IsBlank(req.text.value) then Ok((None, req.text.value))
      else Err(NoSource)
    }

    /** The GPT translation of any text into `targetLang`, against `store`.
        The translation functions below take it as a parameter, so that what
        they state holds whatever the GPT call answers. */
    function TranslationPath(store: map<string, CacheService.Entry>, targetLang: string, reply: Result<string>, now: int, storeDown: bool)
      : string -> GptOutcome<string>
    {
      (text: string) => GptOutcome(gpt.TranslateResult(store, text, targetLang, reply, now, storeDown),
                                   gpt.TranslateStore(store, text, targetLang, reply, now, storeDown))
    }

    /** The translated text: through GPT (behind the quota) or locally. */
    function TranslatedText(s: Effects, source: string, userId: int, req: TranslateRequest,
                            gptTranslate: string -> GptOutcome<string>, date: string): GptOutcome<string>
    {
      if UsesGpt(req.mode) then
        if !GptAllowed(s.counters, userId, date) then GptOutcome(Err(QuotaExceeded), s.store)
        else gptTranslate(source)
      else GptOutcome(Ok(LocalTranslation(source, req.targetLang)), s.store)
    }

    /** `translateResume`: the answer and the state left behind. */
    function Translation(rows: seq<Resume>, s: Effects, userId: int, req: TranslateRequest,
                         gptTranslate: string -> GptOutcome<string>, date: string): (Result<EnhancedResumeResponse>, Effects)
      requires ResumeIds(rows)
    {
      var source := TranslationSource(rows, req, userId);
      if source.Err? then (Err(source.msg), s)
      else
        var (resumeId, text) := source.value;
        var translated := TranslatedText(s, text, userId, req, gptTranslate, date);
        if translated.result.Err? then (Err(TranslateFailed + translated.result.msg), s.(store := translated.store))
        else
          var counters := if UsesGpt(req.mode) then Charge(s.counters, UsageTracking.Gpt, userId, date) else s.counters;
          SaveTranslated(s.(store := translated.store, counters := counters), resumeId, translated.result.value, req.targetLang)
    }

    /** The end of `translateResume`: a translation of a resume is saved as
        a new "translate" version; one of a piece of text is only answered. */
    function SaveTranslated(s: Effects, resumeId: Option<int>, text: string, targetLang: string): (Result<EnhancedResumeResponse>, Effects) {
      if resumeId.None? then
        (Ok(EnhancedResumeResponse(None, None, text, LanguageTag(targetLang), None, "translate")), s)
      else
        var e := EnhancedResume(|s.versions| + 1, resumeId.value, text, LanguageTag(targetLang), None, "translate");
        (Ok(ConvertToDto(e)), s.(versions := s.versions + [e]))
    }

    /** The `try` block of `translateResume` up to the translated text. */
    method Translate(source: string, userId: int, req: TranslateRequest, reply: Result<string>, date: string, now: int, storeDown: bool)
      returns (r: Result<string>)
      modifies usage, gpt.cache
      ensures var t := TranslatedText(old(State()), source, userId, req,
                                      TranslationPath(old(State()).store, req.targetLang, reply, now, storeDown), date);
              r == t.result
              && State() == old(State()).(store := t.store,
                                          counters := if UsesGpt(req.mode) && r.Ok? then Charge(old(State()).counters, UsageTracking.Gpt, userId, date)
                                                      else old(State()).counters)
    {
      if UsesGpt(req.mode) {
        var allowed := CheckGpt(userId, date);
        if !allowed {
          return Err(QuotaExceeded);
        }
        r := gpt.TranslateResume(source, req.targetLang, reply, now, storeDown);
        if r.Ok? {
          TrackGpt(userId, date);
        }
      } else {
        r := Ok(LocalTranslation(source, req.targetLang));
      }
    }

    /** `translateResume`. */
    method TranslateResume(req: TranslateRequest, userId: int, reply: Result<string>, date: string, now: int, storeDown: bool)
      returns (r: Result<EnhancedResumeResponse>)
      requires Valid()
      modifies versions, usage, gpt.cache
      ensures Valid()
      ensures (r, State()) == Translation(resumes.rows, old(State()), userId, req,
                                          TranslationPath(old(State()).store, req.targetLang, reply, now, storeDown), date)
    {
      ghost var before := State();
      var source := TranslationSource(resumes.rows, req, userId);
      if source.Err? {
        return Err(source.msg);
      }
      var (resumeId, text) := source.value;
      var translated := Translate(text, userId, req, reply, date, now, storeDown);
      ghost var middle := State();
      assert middle.versions == before.versions;
      if translated.Err? {
        return Err(TranslateFailed + translated.msg);
      }
      r := SaveTranslation(resumeId, translated.value, req.targetLang);
    }

    /** The end of `translateResume`, after the text is translated. */
    method SaveTranslation(resumeId: Option<int>, text: string, targetLang: string) returns (r: Result<EnhancedResumeResponse>)
      requires EnhancedIds(versions.rows)
      modifies versions
      ensures EnhancedIds(versions.rows)
      ensures (r, State()) == SaveTranslated(old(State()), resumeId, text, targetLang)
    {
      if resumeId.None? {
        return Ok(EnhancedResumeResponse(None, None, text, LanguageTag(targetLang), None, "translate"));
      }
      var dto := SaveVersion(EnhancedResume(0, resumeId.value, text, LanguageTag(targetLang), None, "translate"));
      r := Ok(dto);
    }

    // ---------------------------------------------------------- properties of the translation

    /** The source is chosen in a fixed order: a resume id wins over the
        text, and a request with neither is refused. */
    lemma TranslationSourceCases(rows: seq<Resume>, req: TranslateRequest, userId: int)
      requires ResumeIds(rows)
      ensures req.resumeId.Some? && OwnedResume(rows, req.resumeId.value, userId).None? ==>
                TranslationSource(rows, req, userId) == Err(ResumeNotFound)
      ensures req.resumeId.None? ==>
                (TranslationSource(rows, req, userId).Ok? <==> req.text.Some? && !IsBlank(req.text.value))
      ensures req.resumeId.None? && TranslationSource(rows, req, userId).Err? ==> TranslationSource(rows, req, userId).msg == NoSource
      ensures req.resumeId.Some? && TranslationSource(rows, req, userId).Ok? ==>
                TranslationSource(rows, req, userId).value == (req.resumeId, OwnedResume(rows, req.resumeId.value, userId).value.rawText.value)
    {
    }

    /** A translation of a piece of text saves nothing and never charges an
        enhancement; a translation of a resume saves one "translate" version
        in the target language. */
    lemma TranslationSaves(rows: seq<Resume>, s: Effects, userId: int, req: TranslateRequest, gptTranslate: string -> GptOutcome<string>,
                           date: string)
      requires ResumeIds(rows)
      ensures var (r, after) := Translation(rows, s, userId, req, gptTranslate, date);
              (req.resumeId.None? || r.Err? ==> after.versions == s.versions)
              && (req.resumeId.Some? && r.Ok? ==>
                    |after.versions| == |s.versions| + 1 && after.versions[..|s.versions|] == s.versions
                    && var e := after.versions[|s.versions|];
                       e.enhancementType == "translate" && e.language == LanguageTag(req.targetLang)
                       && e.resumeId == req.resumeId.value && r.value == ConvertToDto(e))
      ensures var (r, after) := Translation(rows, s, userId, req, gptTranslate, date);
              r.Ok? && req.resumeId.None? ==> r.value.id.None? && r.value.resumeId.None? && r.value.suggestions.None?
    {
      var (r, after) := Translation(rows, s, userId, req, gptTranslate, date);
      if req.resumeId.Some? && r.Ok? {
        assert after.versions[..|s.versions|] == s.versions;
      }
    }

    /** A translation never moves the enhancement counter, and a local one
        moves no counter at all. */
    lemma TranslationCharges(rows: seq<Resume>, s: Effects, userId: int, req: TranslateRequest, gptTranslate: string -> GptOutcome<string>,
                             date: string)
      requires ResumeIds(rows) && usage != null && usage.enabled
      ensures var after := Translation(rows, s, userId, req, gptTranslate, date).1;
              UsageTracking.Count(after.counters, UsageTracking.Enhancement, userId, date)
                == UsageTracking.Count(s.counters, UsageTracking.Enhancement, userId, date)
      ensures !UsesGpt(req.mode) ==> Translation(rows, s, userId, req, gptTranslate, date).1.counters == s.counters
    {
      UsageTracking.TrackMovesOnlyItsCounter(s.counters, UsageTracking.Gpt, userId, date, UsageTracking.Enhancement, userId, date);
    }

    /** A translation saved after a rewrite stops the rewrite from being
        reused: the next analysis regenerates. */
    lemma TranslationEndsReuse(rows: seq<Resume>, s: Effects, userId: int, req: TranslateRequest, gptTranslate: string -> GptOutcome<string>,
                               date: string)
      requires ResumeIds(rows) && req.resumeId.Some?
      requires Translation(rows, s, userId, req, gptTranslate, date).0.Ok?
      ensures Reusable(VersionsOf(Translation(rows, s, userId, req, gptTranslate, date).1.versions, req.resumeId.value)).None?
    {
      var after := Translation(rows, s, userId, req, gptTranslate, date).1;
      TranslationSaves(rows, s, userId, req, gptTranslate, date);
      var e := after.versions[|s.versions|];
      assert after.versions == s.versions + [e];
      NewestDecidesReuse(s.versions, e);
    }

    // ---------------------------------------------------------- reading versions

    /** `getEnhancedResume`. */
    method GetEnhancedResume(id: int, userId: int) returns (r: Result<EnhancedResumeResponse>)
      requires Valid()
      ensures r.Ok? <==> OwnedVersion(versions.rows, resumes.rows, id, userId).Some?
      ensures r.Ok? ==> r.value == ConvertToDto(OwnedVersion(versions.rows, resumes.rows, id, userId).value) && r.value.id == Some(id)
      ensures r.Err? ==> r.msg == VersionNotFound
    {
      var found := OwnedVersion(versions.rows, resumes.rows, id, userId);
      if found.None? {
        return Err(VersionNotFound);
      }
      r := Ok(ConvertToDto(found.value));
    }

    /** `getEnhancedVersions`: every version of an owned resume, newest first. */
    method GetEnhancedVersions(resumeId: int, userId: int) returns (r: Result<seq<EnhancedResumeResponse>>)
      requires Valid()
      ensures r.Ok? <==> OwnedResume(resumes.rows, resumeId, userId).Some?
      ensures r.Err? ==> r.msg == ResumeNotFound
      ensures r.Ok? ==> var vs := VersionsOf(versions.rows, resumeId);
                        |r.value| == |vs| && (forall i :: 0 <= i < |vs| ==> r.value[i] == ConvertToDto(vs[i]))
      ensures r.Ok? ==> (forall i, j :: 0 <= i < j < |r.value| ==> r.value[i].id.value > r.value[j].id.value)
                        && (forall k :: 0 <= k < |versions.rows| && versions.rows[k].resumeId == resumeId ==>
                              ConvertToDto(versions.rows[k]) in r.value)
                        && (forall i :: 0 <= i < |r.value| ==> r.value[i].resumeId == Some(resumeId))
    {
      if OwnedResume(resumes.rows, resumeId, userId).None? {
        return Err(ResumeNotFound);
      }
      var vs := VersionsOf(versions.rows, resumeId);
      VersionsOfShape(versions.rows, resumeId);
      var dtos := seq(|vs|, i requires 0 <= i < |vs| => ConvertToDto(vs[i]));
      forall k | 0 <= k < |versions.rows| && versions.rows[k].resumeId == resumeId
        ensures ConvertToDto(versions.rows[k]) in dtos
      {
        var q :| 0 <= q < |vs| && vs[q] == versions.rows[k];
        assert dtos[q] == ConvertToDto(versions.rows[k]);
      }
      r := Ok(dtos);
    }
  }

  /** The analysis an `EnhanceRequest` stands for. */
  function Forced(req: EnhanceRequest): (a: AnalyzeRequest)
    ensures a.forceRefresh == Some(true)
  {
    AnalyzeRequest(req.resumeId, req.jobDescription, req.mode, Some(true))
  }
}
