/** `GptService`: the prompts sent to the chat-completion endpoint, the
    extraction of the reply's text from its JSON envelope, and the three
    operations that consult the response cache before the call and fill it
    after a successful one. The HTTP call itself is not modelled: each
    operation receives the outcome the call would have (`reply`), a failure
    carrying its message. JSON text is read and written by oracles. */
module GptService {
  import opened Wrappers
  import opened Strings
  import opened JavaText
  import opened JsonTree
  import CacheService

  const PlaceholderKey: string := "your-openai-api-key-here"
  const InvalidResponse: string := "Invalid response format from GPT API"
  const InvalidSuggestions: string := "Invalid suggestions format from GPT"
  const SerializeFailure: string := "Failed to serialize resume JSON"
  const EnhanceFailed: string := "Failed to enhance resume: "
  const SuggestionsFailed: string := "Failed to generate suggestions: "
  const TranslateFailed: string := "Failed to translate resume: "

  // ------------------------------------------------------------ availability

  /** `isServiceAvailable`: a key is configured and is not the placeholder. */
  predicate IsServiceAvailable(apiKey: Option<string>) {
    apiKey.Some? && apiKey.value != [] && apiKey.value != PlaceholderKey
  }

  /** The configured key of the tests is accepted, the placeholder and a
      missing or empty key are not. */
  lemma AvailabilityCases()
    ensures IsServiceAvailable(Some("test-api-key"))
    ensures !IsServiceAvailable(Some(PlaceholderKey))
    ensures !IsServiceAvailable(None) && !IsServiceAvailable(Some(""))
  {
    assert "test-api-key"[0] != PlaceholderKey[0];
  }

  // ------------------------------------------------------------ the reply envelope

  /** `extractContentFromResponse`: the trimmed text of
      `choices[0].message.content`. */
  function ExtractContent(parse: string -> Result<Json>, response: string): (r: Result<string>)
    ensures parse(response).Err? ==> r == Err(parse(response).msg)
    ensures parse(response).Ok? && r.Err? ==> r.msg == InvalidResponse
    ensures r.Ok? ==> Trim(r.value) == r.value
  {
    match parse(response)
    case Err(m) => Err(m)
    case Ok(j) =>
      var choices := Get(j, "choices");
      if choices.Some? && IsArray(choices.value) && |choices.value.elems| > 0 then
        var message := Get(choices.value.elems[0], "message");
        if message.Some? then
          var content := Get(message.value, "content");
          if content.Some? then
            TrimIdempotent(AsText(content.value));
            Ok(Trim(AsText(content.value)))
          else Err(InvalidResponse)
        else Err(InvalidResponse)
      else Err(InvalidResponse)
  }

  /** An envelope carries content when it is an object whose "choices" is a
      non-empty array whose first element is an object with a "message"
      object that has a "content" field. */
  predicate HasContent(j: Json) {
    j.JObject? && "choices" in j.fields
    && j.fields["choices"].JArray? && |j.fields["choices"].elems| > 0
    && j.fields["choices"].elems[0].JObject? && "message" in j.fields["choices"].elems[0].fields
    && j.fields["choices"].elems[0].fields["message"].JObject?
    && "content" in j.fields["choices"].elems[0].fields["message"].fields
  }

  function ContentOf(j: Json): Json
    requires HasContent(j)
  {
    j.fields["choices"].elems[0].fields["message"].fields["content"]
  }

  /** Extraction succeeds exactly on envelopes with content, and then yields
      that content's text, trimmed. */
  lemma ExtractContentIff(parse: string -> Result<Json>, response: string)
    ensures ExtractContent(parse, response).Ok? <==> parse(response).Ok? && HasContent(parse(response).value)
    ensures ExtractContent(parse, response).Ok? ==> ExtractContent(parse, response).value == Trim(AsText(ContentOf(parse(response).value)))
  {
  }

  /** The envelope of a chat completion with one choice. */
  function Envelope(content: string): Json {
    JObject(map["choices" := JArray([JObject(map["message" := JObject(map["role" := JString("assistant"), "content" := JString(content)])])])])
  }

  /** The text put into an envelope comes back out, trimmed. */
  lemma EnvelopeRoundTrip(parse: string -> Result<Json>, response: string, content: string)
    requires parse(response) == Ok(Envelope(content))
    ensures ExtractContent(parse, response) == Ok(Trim(content))
  {
    var j := Envelope(content);
    var c := Get(j, "choices").value;
    assert c.elems[0] == JObject(map["message" := JObject(map["role" := JString("assistant"), "content" := JString(content)])]);
  }

  /** A reply without choices, or with an empty list of them, is refused. */
  lemma EmptyChoicesRejected(parse: string -> Result<Json>, response: string)
    requires parse(response) == Ok(JObject(map[])) || parse(response) == Ok(JObject(map["choices" := JArray([])]))
    ensures ExtractContent(parse, response) == Err(InvalidResponse)
  {
  }

  /** The content of a successful call, or the call's failure. */
  function ReplyContent(parse: string -> Result<Json>, reply: Result<string>): Result<string> {
    if reply.Err? then Err(reply.msg) else ExtractContent(parse, reply.value)
  }

  /** A failure with `prefix` in front of its message. */
  function Wrapped<T>(prefix: string, r: Result<T>): (w: Result<T>)
    ensures w.Ok? <==> r.Ok?
    ensures w.Ok? ==> w.value == r.value
    ensures w.Err? ==> StartsWith(w.msg, prefix) && w.msg[|prefix|..] == r.msg
  {
    if r.Err? then Err(prefix + r.msg) else r
  }

  // ------------------------------------------------------------ prompts

  /** `getResumeTemplate`, character for character as it appears in the
      source (its emoji and dashes are stored there already re-decoded). */
  const ResumeTemplate: string :=
      "# [FULL NAME]\n\n" +
      "\U{F8FF}\U{FC}\U{EC}\U{FB} [PHONE NUMBER] | \U{F8FF}\U{FC}\U{EC}\U{DF} [EMAIL] | \U{F8FF}\U{FC}\U{EC}\U{E7} [LOCATION]\n\n" +
      "---\n\n" +
      "## EDUCATION\n\n" +
      "**[UNIVERSITY/INSTITUTION]** \U{201A}\U{C4}\U{EC} *[DEGREE], [FIELD OF STUDY]*\n" +
      "*[START DATE] \U{201A}\U{C4}\U{EC} [END DATE]*\n\n" +
      "**[UNIVERSITY/INSTITUTION]** \U{201A}\U{C4}\U{EC} *[DEGREE], [FIELD OF STUDY]*\n" +
      "*[START DATE] \U{201A}\U{C4}\U{EC} [END DATE]*\n\n" +
      "## SKILLS\n\n" +
      "**Programming Languages:** [List programming languages, e.g., Python, Java, JavaScript]\n" +
      "**Frameworks & Tools:** [List frameworks and tools, e.g., React, Node.js, Docker, AWS]\n" +
      "**Core Strengths:** [List key strengths, e.g., problem-solving, teamwork, leadership]\n" +
      "**Languages:** [List languages and proficiency levels, e.g., English (Native), Spanish (Fluent)]\n\n" +
      "## EXPERIENCE\n\n" +
      "**[JOB TITLE]** | [COMPANY NAME] ([company-website.com])  *[START DATE] \U{201A}\U{C4}\U{EC} [END DATE]* \U{AC}\U{2211} [LOCATION/REMOTE]\n\n" +
      "- [Bullet point describing key responsibility or achievement]\n" +
      "- [Bullet point describing key responsibility or achievement]\n" +
      "- [Bullet point describing key responsibility or achievement]\n" +
      "- [Bullet point describing key responsibility or achievement]\n\n" +
      "**[JOB TITLE]** | [COMPANY NAME] ([company-website.com])  *[START DATE] \U{201A}\U{C4}\U{EC} [END DATE]* \U{AC}\U{2211} [LOCATION/REMOTE]\n\n" +
      "- [Bullet point describing key responsibility or achievement]\n" +
      "- [Bullet point describing key responsibility or achievement]\n" +
      "- [Bullet point describing key responsibility or achievement]\n" +
      "- [Bullet point describing key responsibility or achievement]\n\n" +
      "## PROJECTS\n\n" +
      "**[PROJECT NAME]** | *[PROJECT DURATION]*\n\n" +
      "- [Bullet point describing project scope and technologies used]\n\n" +
      "**[PROJECT NAME]** | *[PROJECT DURATION]*\n\n" +
      "- [Bullet point describing project scope and technologies used]"

  /** The fixed texts a prompt places around its body (the resume) and the
      job description: what comes before the body, the label before the job
      description, the text used when there is none, and the closing part. */
  datatype PromptTexts = PromptTexts(head: string, jobLabel: string, fallback: string, tail: string)

  /** A prompt: the body and the job description (or the fallback) inside
      the fixed texts `w`. */
  function Framed(w: PromptTexts, body: string, jobDescription: Option<string>): string {
    w.head + body + (w.jobLabel + jobDescription.GetOr(w.fallback) + w.tail)
  }

  /** The texts of the source's `buildEnhancePrompt`, around `ResumeTemplate`. */
  const EnhanceWording: PromptTexts := PromptTexts(
      "You are an expert career coach. Transform the following resume to match this EXACT template format:\n\n" +
      "TEMPLATE FORMAT:\n" + ResumeTemplate + "\n\n" +
      "CURRENT RESUME:\n",
      "\n\nJOB FOCUS: ",
      "General improvement",
      "\n\n" +
      "INSTRUCTIONS:\n" +
      "1. Restructure the resume to EXACTLY match the template format\n" +
      "2. Replace template placeholders with actual information from the current resume\n" +
      "3. Preserve all factual information (names, dates, companies, metrics)\n" +
      "4. Enhance descriptions to be more professional and results-oriented\n" +
      "5. If sections are missing, create appropriate content based on available information\n" +
      "6. Output ONLY the enhanced resume in the exact template format\n" +
      "7. Do not include any explanations or additional text")

  /** `buildEnhancePrompt` with the texts `w` (the service's are
      `EnhanceWording`). */
  function BuildEnhancePrompt(w: PromptTexts, resumeText: string, jobDescription: Option<string>): string {
    Framed(w, resumeText, jobDescription)
  }

  /** A missing job description reads as the fallback text. */
  lemma PromptDefault(w: PromptTexts, body: string)
    ensures Framed(w, body, None) == Framed(w, body, Some(w.fallback))
  {
  }

  /** A prompt, which is the cache input, tells bodies apart: two bodies with
      the same job description share a prompt only if they are the same
      text. */
  lemma PromptSeparatesBodies(w: PromptTexts, a: string, b: string, jobDescription: Option<string>)
    ensures Framed(w, a, jobDescription) == Framed(w, b, jobDescription) <==> a == b
  {
    if Framed(w, a, jobDescription) == Framed(w, b, jobDescription) {
      SameFrame(w.head, a, b, w.jobLabel + jobDescription.GetOr(w.fallback) + w.tail);
    }
  }

  /** The texts of the source's `buildSuggestionsPrompt`. */
  const SuggestionsWording: PromptTexts := PromptTexts(
      "Given resume: ",
      " and job: ",
      "general career improvement",
      ", suggest 3-5 practical ways the candidate can improve competitiveness. " +
      "Return ONLY JSON: {\'suggestions\': [\'...\',\'...\']} " +
      "Focus on actionable improvements like: " +
      "- Specific skills to learn or certify " +
      "- Project ideas to strengthen portfolio " +
      "- Ways to quantify achievements " +
      "- Industry-relevant experience to gain " +
      "- Networking or learning opportunities")

  /** `buildSuggestionsPrompt` with the texts `w` (the service's are
      `SuggestionsWording`); the resume is serialised by `write`. */
  function BuildSuggestionsPrompt(write: Json -> Result<string>, w: PromptTexts, parsedJson: Json, jobDescription: Option<string>): (r: Result<string>)
    ensures r.Err? <==> write(parsedJson).Err?
    ensures r.Err? ==> r.msg == SerializeFailure
    ensures r.Ok? ==> r.value == Framed(w, write(parsedJson).value, jobDescription)
  {
    match write(parsedJson)
    case Err(_) => Err(SerializeFailure)
    case Ok(json) => Ok(Framed(w, json, jobDescription))
  }

  /** The name of the target language: English for "en", Chinese for every
      other code. */
  function LanguageName(targetLanguage: string): (name: string)
    ensures |name| == 7
  {
    if targetLanguage == "en" then "English" else "Chinese"
  }

  const TranslateMiddle: string :=
      ", preserving dates, numbers, and technology names. " +
      "Output Markdown format. Keep the structure and formatting intact.\n\n" +
      "Resume text:\n"

  /** `buildTranslatePrompt`. */
  function BuildTranslatePrompt(resumeText: string, targetLanguage: string): string {
    "Translate the following resume into " + LanguageName(targetLanguage) + TranslateMiddle + resumeText
  }

  /** Two translate prompts agree only for the same text and the same side of
      the English/Chinese choice. */
  lemma TranslatePromptSeparates(a: string, la: string, b: string, lb: string)
    ensures BuildTranslatePrompt(a, la) == BuildTranslatePrompt(b, lb) <==> a == b && (la == "en" <==> lb == "en")
  {
    var p := "Translate the following resume into ";
    var x, y := LanguageName(la), LanguageName(lb);
    if BuildTranslatePrompt(a, la) == BuildTranslatePrompt(b, lb) {
      var s := BuildTranslatePrompt(a, la);
      assert x == s[|p|..|p| + 7] == y;
      assert p + x + TranslateMiddle + a == p + x + TranslateMiddle + b;
      SameFrame(p + x + TranslateMiddle, a, b, []);
      assert "English"[0] != "Chinese"[0];
    }
  }

  /** Every code other than "en" gets the Chinese prompt. */
  lemma OtherCodesTranslateToChinese(text: string)
    ensures BuildTranslatePrompt(text, "es") == BuildTranslatePrompt(text, "zh") == BuildTranslatePrompt(text, "ja")
  {
  }

  // ------------------------------------------------------------ suggestions

  /** `content.replaceAll("'", "\"")`: every single quote becomes a double one. */
  function NormalizeQuotes(s: string): (r: string)
    ensures |r| == |s| && '\'' !in r
    ensures forall i :: 0 <= i < |s| ==> r[i] == if s[i] == '\'' then '"' else s[i]
  {
    ReplaceChar(s, '\'', '"')
  }

  lemma NormalizeIdempotent(s: string)
    ensures NormalizeQuotes(NormalizeQuotes(s)) == NormalizeQuotes(s)
  {
  }

  /** The "suggestions" array of a text, when the text parses. */
  function SuggestionsNode(parse: string -> Result<Json>, text: string): (r: Result<seq<Json>>)
    ensures parse(text).Err? ==> r == Err(parse(text).msg)
  {
    match parse(text)
    case Err(m) => Err(m)
    case Ok(j) =>
      var s := Get(j, "suggestions");
      if s.Some? && IsArray(s.value) then Ok(s.value.elems) else Err(InvalidSuggestions)
  }

  /** What a cached suggestions text yields; any failure on this path means
      falling through to the call. */
  function SuggestionsFromCache(parse: string -> Result<Json>, cached: string): Option<StringList> {
    var node := SuggestionsNode(parse, cached);
    if node.Err? then None
    else
      var list := AsStringList(node.value);
      if list.Err? then None else Some(list.value)
  }

  /** The text a reply leaves in the cache: its normalised content, once
      that content has a "suggestions" array. */
  function SuggestionsToCache(parse: string -> Result<Json>, reply: Result<string>): Option<string> {
    var content := ReplyContent(parse, reply);
    if content.Err? then None
    else
      var normalized := NormalizeQuotes(content.value);
      if SuggestionsNode(parse, normalized).Err? then None else Some(normalized)
  }

  /** The list a reply yields, or why it does not. */
  function SuggestionsOfReply(parse: string -> Result<Json>, reply: Result<string>): Result<StringList> {
    var content := ReplyContent(parse, reply);
    if content.Err? then Err(content.msg)
    else
      var node := SuggestionsNode(parse, NormalizeQuotes(content.value));
      if node.Err? then Err(node.msg) else AsStringList(node.value)
  }

  /** What a successful reply puts in the cache reads back as the same list. */
  lemma SuggestionsCacheReplays(parse: string -> Result<Json>, reply: Result<string>)
    requires SuggestionsOfReply(parse, reply).Ok?
    ensures SuggestionsToCache(parse, reply).Some?
    ensures SuggestionsFromCache(parse, SuggestionsToCache(parse, reply).value) == Some(SuggestionsOfReply(parse, reply).value)
  {
  }

  /** An array holding a nested array or object is cached before the
      conversion fails, and the cache path then refuses it. */
  lemma UnconvertibleSuggestionsStayCached(parse: string -> Result<Json>, reply: Result<string>)
    requires SuggestionsToCache(parse, reply).Some? && SuggestionsOfReply(parse, reply).Err?
    ensures SuggestionsFromCache(parse, SuggestionsToCache(parse, reply).value).None?
  {
  }

  /** No element of the array is itself an array or an object. */
  predicate ScalarElements(elems: seq<Json>) {
    forall i :: 0 <= i < |elems| ==> !elems[i].JArray? && !elems[i].JObject?
  }

  /** A reply yields a list exactly when its content has a "suggestions"
      array without nested containers; the list then has one entry per
      element, `null` for the JSON null. */
  lemma SuggestionsAccepted(parse: string -> Result<Json>, reply: Result<string>)
    ensures SuggestionsOfReply(parse, reply).Ok? <==>
              ReplyContent(parse, reply).Ok? && SuggestionsNode(parse, NormalizeQuotes(ReplyContent(parse, reply).value)).Ok?
              && ScalarElements(SuggestionsNode(parse, NormalizeQuotes(ReplyContent(parse, reply).value)).value)
    ensures SuggestionsOfReply(parse, reply).Ok? ==>
              |SuggestionsOfReply(parse, reply).value| == |SuggestionsNode(parse, NormalizeQuotes(ReplyContent(parse, reply).value)).value|
  {
    var content := ReplyContent(parse, reply);
    if content.Ok? {
      var node := SuggestionsNode(parse, NormalizeQuotes(content.value));
      if node.Ok? {
        assert ScalarElements(node.value) <==> forall i :: 0 <= i < |node.value| ==> ElementAsString(node.value[i]).Ok?;
      }
    }
  }

  /** `{"suggestions": ["Add metrics", null]}` yields the list
      `["Add metrics", null]`. */
  lemma NullSuggestionKept(parse: string -> Result<Json>, reply: Result<string>)
    requires ReplyContent(parse, reply).Ok?
    requires parse(NormalizeQuotes(ReplyContent(parse, reply).value)) == Ok(JObject(map["suggestions" := JArray([JString("Add metrics"), JNull])]))
    ensures SuggestionsOfReply(parse, reply) == Ok([Some("Add metrics"), None])
    ensures SuggestionsFromCache(parse, SuggestionsToCache(parse, reply).value) == Some([Some("Add metrics"), None])
  {
    var elems := [JString("Add metrics"), JNull];
    assert ElementAsString(elems[0]).Ok? && ElementAsString(elems[1]).Ok?;
    var list := AsStringList(elems);
    assert list.value == [Some("Add metrics"), None];
  }

  /** A reply whose content has no "suggestions" array is refused as
      malformed and leaves nothing to cache. */
  lemma MissingSuggestionsRejected(parse: string -> Result<Json>, reply: Result<string>)
    requires ReplyContent(parse, reply).Ok?
    requires var p := parse(NormalizeQuotes(ReplyContent(parse, reply).value));
             p.Ok? && (Get(p.value, "suggestions").None? || !Get(p.value, "suggestions").value.JArray?)
    ensures SuggestionsOfReply(parse, reply) == Err(InvalidSuggestions)
    ensures SuggestionsToCache(parse, reply).None?
  {
  }

  // ------------------------------------------------------------ the service

  class GptService {
    const apiKey: Option<string>
    /** The optional cache; `null` when none is configured. */
    const cache: CacheService.CacheService?
    /** `objectMapper.readTree`. */
    const parse: string -> Result<Json>
    /** `objectMapper.writeValueAsString`. */
    const write: Json -> Result<string>
    /** The texts of the enhance prompt, `getResumeTemplate()` among them. */
    const enhanceWording: PromptTexts
    /** The texts of the suggestions prompt. */
    const suggestionsWording: PromptTexts

    constructor (apiKey: Option<string>, cache: CacheService.CacheService?, parse: string -> Result<Json>, write: Json -> Result<string>)
      ensures this.apiKey == apiKey && this.cache == cache && this.parse == parse && this.write == write
      ensures enhanceWording == EnhanceWording && suggestionsWording == SuggestionsWording
    {
      this.enhanceWording := EnhanceWording;
      this.suggestionsWording := SuggestionsWording;
      this.apiKey := apiKey;
      this.cache := cache;
      this.parse := parse;
      this.write := write;
    }

    predicate Available() {
      IsServiceAvailable(apiKey)
    }

    /** The entries of the cache, none when there is no cache. The functions
        below take a store as a value, so that the effect of one operation on
        the next can be stated. */
    function Store(): map<string, CacheService.Entry>
      reads cache
    {
      if cache == null then map[] else cache.store
    }

    /** Whether reads and writes reach a store at all. */
    predicate Caching(storeDown: bool) {
      cache != null && cache.enabled && !storeDown
    }

    function GptKey(input: string, mode: string): string
      requires cache != null
    {
      CacheService.CacheKey(cache.digest, CacheService.GptPrefix, input, mode)
    }

    function TranslationKey(text: string, targetLanguage: string): string
      requires cache != null
    {
      CacheService.CacheKey(cache.digest, CacheService.TranslationPrefix, CacheService.TranslationInput(text, targetLanguage), "gpt")
    }

    /** What `store` holds for a GPT input at time `now`. */
    function GptHit(store: map<string, CacheService.Entry>, input: string, mode: string, now: int, storeDown: bool): Option<string> {
      if !Caching(storeDown) then None else CacheService.Lookup(store, GptKey(input, mode), now)
    }

    /** What `store` holds for a translation at time `now`. */
    function TranslationHit(store: map<string, CacheService.Entry>, text: string, targetLanguage: string, now: int, storeDown: bool): Option<string> {
      if !Caching(storeDown) then None else CacheService.Lookup(store, TranslationKey(text, targetLanguage), now)
    }

    /** `store` after writing `value` under `key`, if the write reaches it. */
    function Written(store: map<string, CacheService.Entry>, key: string, value: string, now: int, storeDown: bool): map<string, CacheService.Entry> {
      if !Caching(storeDown) then store else CacheService.Put(store, key, value, now, cache.TtlSeconds())
    }

    // ---------------------------------------------------------- enhance

    /** The answer of `enhanceResume` against `store`. */
    function EnhanceResult(store: map<string, CacheService.Entry>, prompt: string,
                           reply: Result<string>, now: int, storeDown: bool): Result<string>
    {
      var hit := GptHit(store, prompt, "enhance", now, storeDown);
      if hit.Some? then Ok(hit.value) else Wrapped(EnhanceFailed, ReplyContent(parse, reply))
    }

    /** The store `enhanceResume` leaves: the reply's content is written
        after a miss, a failed call writes nothing. */
    function EnhanceStore(store: map<string, CacheService.Entry>, prompt: string,
                          reply: Result<string>, now: int, storeDown: bool): map<string, CacheService.Entry>
    {
      var content := ReplyContent(parse, reply);
      if !Caching(storeDown) || GptHit(store, prompt, "enhance", now, storeDown).Some? || content.Err? then store
      else Written(store, GptKey(prompt, "enhance"), content.value, now, storeDown)
    }

    /** `enhanceResume` once its prompt is built. */
    method EnhancePrompt(prompt: string, reply: Result<string>, now: int, storeDown: bool) returns (r: Result<string>)
      modifies cache
      ensures r == EnhanceResult(old(Store()), prompt, reply, now, storeDown)
      ensures Store() == EnhanceStore(old(Store()), prompt, reply, now, storeDown)
    {
      if cache != null {
        var cached := cache.GetCachedGptResponse(prompt, "enhance", now, storeDown);
        if cached.Some? {
          return Ok(cached.value);
        }
      }
      var content := ReplyContent(parse, reply);
      if content.Err? {
        return Err(EnhanceFailed + content.msg);
      }
      if cache != null {
        cache.CacheGptResponse(prompt, "enhance", Some(content.value), now, storeDown);
      }
      r := content;
    }

    /** `enhanceResume`. */
    method EnhanceResume(resumeText: string, jobDescription: Option<string>, reply: Result<string>, now: int, storeDown: bool)
      returns (r: Result<string>)
      modifies cache
      ensures r == EnhanceResult(old(Store()), BuildEnhancePrompt(enhanceWording, resumeText, jobDescription), reply, now, storeDown)
      ensures Store() == EnhanceStore(old(Store()), BuildEnhancePrompt(enhanceWording, resumeText, jobDescription), reply, now, storeDown)
    {
      r := EnhancePrompt(BuildEnhancePrompt(enhanceWording, resumeText, jobDescription), reply, now, storeDown);
    }

    /** A hit answers without the call: the reply is ignored and nothing is
        written. */
    lemma EnhanceHitIgnoresReply(store: map<string, CacheService.Entry>, prompt: string,
                                 reply1: Result<string>, reply2: Result<string>, now: int)
      requires GptHit(store, prompt, "enhance", now, false).Some?
      ensures EnhanceResult(store, prompt, reply1, now, false) == EnhanceResult(store, prompt, reply2, now, false)
      ensures EnhanceStore(store, prompt, reply1, now, false) == store
    {
    }

    /** Without a reachable store every answer is the call's, and nothing is
        kept. */
    lemma EnhanceWithoutStore(store: map<string, CacheService.Entry>, prompt: string, reply: Result<string>, now: int, storeDown: bool)
      requires cache == null || !cache.enabled || storeDown
      ensures EnhanceResult(store, prompt, reply, now, storeDown) == Wrapped(EnhanceFailed, ReplyContent(parse, reply))
      ensures EnhanceStore(store, prompt, reply, now, storeDown) == store
    {
    }

    /** After a miss that succeeded, the same prompt is answered from the
        cache until the entry expires, whatever the second reply would have
        been. */
    lemma EnhanceReplays(store: map<string, CacheService.Entry>, prompt: string,
                         reply1: Result<string>, reply2: Result<string>, now: int, later: int)
      requires Caching(false) && cache.gptCacheHours > 0 && now <= later < now + cache.TtlSeconds()
      requires GptHit(store, prompt, "enhance", now, false).None?
      requires EnhanceResult(store, prompt, reply1, now, false).Ok?
      ensures EnhanceResult(EnhanceStore(store, prompt, reply1, now, false), prompt, reply2, later, false)
              == EnhanceResult(store, prompt, reply1, now, false)
    {
      var content := ReplyContent(parse, reply1);
      CacheService.PutThenLookup(store, GptKey(prompt, "enhance"), content.value, now, cache.TtlSeconds(), later, GptKey(prompt, "enhance"));
    }

    // ---------------------------------------------------------- suggestions

    /** The list a cached suggestions text in `store` yields for a prompt. */
    function SuggestionsHit(store: map<string, CacheService.Entry>, prompt: string, now: int, storeDown: bool): Option<StringList> {
      var hit := GptHit(store, prompt, "suggestions", now, storeDown);
      if hit.None? then None else SuggestionsFromCache(parse, hit.value)
    }

    /** The answer of `generateSuggestions` against `store`. A resume that
        cannot be serialised fails before the cache is consulted; a cached
        text is used only when it yields a list. */
    function SuggestionsResult(store: map<string, CacheService.Entry>, parsedJson: Json, jobDescription: Option<string>,
                               reply: Result<string>, now: int, storeDown: bool): Result<StringList>
    {
      var prompt := BuildSuggestionsPrompt(write, suggestionsWording, parsedJson, jobDescription);
      if prompt.Err? then Err(SerializeFailure)
      else
        var fromCache := SuggestionsHit(store, prompt.value, now, storeDown);
        if fromCache.Some? then Ok(fromCache.value) else Wrapped(SuggestionsFailed, SuggestionsOfReply(parse, reply))
    }

    /** The store `generateSuggestions` leaves: the normalised content is
        written once it has a "suggestions" array, before the array is
        converted. */
    function SuggestionsStore(store: map<string, CacheService.Entry>, parsedJson: Json, jobDescription: Option<string>,
                              reply: Result<string>, now: int, storeDown: bool): map<string, CacheService.Entry>
    {
      var prompt := BuildSuggestionsPrompt(write, suggestionsWording, parsedJson, jobDescription);
      var toCache := SuggestionsToCache(parse, reply);
      if !Caching(storeDown) || prompt.Err? || SuggestionsHit(store, prompt.value, now, storeDown).Some? || toCache.None? then store
      else Written(store, GptKey(prompt.value, "suggestions"), toCache.value, now, storeDown)
    }

    /** The cache path of `generateSuggestions`; it changes nothing. */
    method ReadSuggestions(prompt: string, now: int, storeDown: bool) returns (s: Option<StringList>)
      ensures s == SuggestionsHit(Store(), prompt, now, storeDown)
    {
      if cache == null {
        return None;
      }
      var cached := cache.GetCachedGptResponse(prompt, "suggestions", now, storeDown);
      s := if cached.None? then None else SuggestionsFromCache(parse, cached.value);
    }

    /** The call path of `generateSuggestions`. */
    method CallForSuggestions(prompt: string, reply: Result<string>, now: int, storeDown: bool) returns (r: Result<StringList>)
      modifies cache
      ensures r == Wrapped(SuggestionsFailed, SuggestionsOfReply(parse, reply))
      ensures var toCache := SuggestionsToCache(parse, reply);
              Store() == if !Caching(storeDown) || toCache.None? then old(Store())
                         else Written(old(Store()), GptKey(prompt, "suggestions"), toCache.value, now, storeDown)
    {
      var content := ReplyContent(parse, reply);
      if content.Err? {
        return Err(SuggestionsFailed + content.msg);
      }
      var normalized := NormalizeQuotes(content.value);
      var node := SuggestionsNode(parse, normalized);
      if node.Err? {
        return Err(SuggestionsFailed + node.msg);
      }
      if cache != null {
        cache.CacheGptResponse(prompt, "suggestions", Some(normalized), now, storeDown);
      }
      var list := AsStringList(node.value);
      r := Wrapped(SuggestionsFailed, list);
    }

    /** `generateSuggestions`. */
    method GenerateSuggestions(parsedJson: Json, jobDescription: Option<string>, reply: Result<string>, now: int, storeDown: bool)
      returns (r: Result<StringList>)
      modifies cache
      ensures r == SuggestionsResult(old(Store()), parsedJson, jobDescription, reply, now, storeDown)
      ensures Store() == SuggestionsStore(old(Store()), parsedJson, jobDescription, reply, now, storeDown)
    {
      var prompt := BuildSuggestionsPrompt(write, suggestionsWording, parsedJson, jobDescription);
      if prompt.Err? {
        return Err(SerializeFailure);
      }
      var fromCache := ReadSuggestions(prompt.value, now, storeDown);
      if fromCache.Some? {
        return Ok(fromCache.value);
      }
      r := CallForSuggestions(prompt.value, reply, now, storeDown);
    }

    /** After a miss that yielded a list, the same resume and job description
        get the same list from the cache until the entry expires. */
    lemma SuggestionsReplay(store: map<string, CacheService.Entry>, parsedJson: Json, jobDescription: Option<string>,
                            reply1: Result<string>, reply2: Result<string>, now: int, later: int)
      requires Caching(false) && cache.gptCacheHours > 0 && now <= later < now + cache.TtlSeconds()
      requires BuildSuggestionsPrompt(write, suggestionsWording, parsedJson, jobDescription).Ok?
      requires SuggestionsHit(store, BuildSuggestionsPrompt(write, suggestionsWording, parsedJson, jobDescription).value, now, false).None?
      requires SuggestionsResult(store, parsedJson, jobDescription, reply1, now, false).Ok?
      ensures SuggestionsResult(SuggestionsStore(store, parsedJson, jobDescription, reply1, now, false), parsedJson, jobDescription, reply2, later, false)
              == SuggestionsResult(store, parsedJson, jobDescription, reply1, now, false)
    {
      var prompt := BuildSuggestionsPrompt(write, suggestionsWording, parsedJson, jobDescription).value;
      SuggestionsCacheReplays(parse, reply1);
      var text := SuggestionsToCache(parse, reply1).value;
      CacheService.PutThenLookup(store, GptKey(prompt, "suggestions"), text, now, cache.TtlSeconds(), later, GptKey(prompt, "suggestions"));
    }

    // ---------------------------------------------------------- translate

    /** The answer of `translateResume` against `store`; the cache is keyed
        by the source text and the target code, not by the prompt. */
    function TranslateResult(store: map<string, CacheService.Entry>, resumeText: string, targetLanguage: string,
                             reply: Result<string>, now: int, storeDown: bool): Result<string>
    {
      var hit := TranslationHit(store, resumeText, targetLanguage, now, storeDown);
      if hit.Some? then Ok(hit.value) else Wrapped(TranslateFailed, ReplyContent(parse, reply))
    }

    function TranslateStore(store: map<string, CacheService.Entry>, resumeText: string, targetLanguage: string,
                            reply: Result<string>, now: int, storeDown: bool): map<string, CacheService.Entry>
    {
      var content := ReplyContent(parse, reply);
      if !Caching(storeDown) || TranslationHit(store, resumeText, targetLanguage, now, storeDown).Some? || content.Err? then store
      else Written(store, TranslationKey(resumeText, targetLanguage), content.value, now, storeDown)
    }

    /** `translateResume`. */
    method TranslateResume(resumeText: string, targetLanguage: string, reply: Result<string>, now: int, storeDown: bool)
      returns (r: Result<string>)
      modifies cache
      ensures r == TranslateResult(old(Store()), resumeText, targetLanguage, reply, now, storeDown)
      ensures Store() == TranslateStore(old(Store()), resumeText, targetLanguage, reply, now, storeDown)
    {
      if cache != null {
        var cached := cache.GetCachedTranslation(resumeText, targetLanguage, "gpt", now, storeDown);
        if cached.Some? {
          return Ok(cached.value);
        }
      }
      var content := ReplyContent(parse, reply);
      if content.Err? {
        return Err(TranslateFailed + content.msg);
      }
      if cache != null {
        cache.CacheTranslation(resumeText, targetLanguage, "gpt", Some(content.value), now, storeDown);
      }
      r := content;
    }

    /** After a miss that succeeded, the same text and code are answered from
        the cache until the entry expires. */
    lemma TranslateReplays(store: map<string, CacheService.Entry>, resumeText: string, targetLanguage: string,
                           reply1: Result<string>, reply2: Result<string>, now: int, later: int)
      requires Caching(false) && cache.gptCacheHours > 0 && now <= later < now + cache.TtlSeconds()
      requires TranslationHit(store, resumeText, targetLanguage, now, false).None?
      requires TranslateResult(store, resumeText, targetLanguage, reply1, now, false).Ok?
      ensures TranslateResult(TranslateStore(store, resumeText, targetLanguage, reply1, now, false), resumeText, targetLanguage, reply2, later, false)
              == TranslateResult(store, resumeText, targetLanguage, reply1, now, false)
    {
      var content := ReplyContent(parse, reply1);
      var key := TranslationKey(resumeText, targetLanguage);
      CacheService.PutThenLookup(store, key, content.value, now, cache.TtlSeconds(), later, key);
    }

    /** A translation with a failed call leaves the store as it was. */
    lemma FailedTranslationKeepsStore(store: map<string, CacheService.Entry>, resumeText: string, targetLanguage: string,
                                      reply: Result<string>, now: int, storeDown: bool)
      requires TranslateResult(store, resumeText, targetLanguage, reply, now, storeDown).Err?
      ensures TranslateStore(store, resumeText, targetLanguage, reply, now, storeDown) == store
      ensures StartsWith(TranslateResult(store, resumeText, targetLanguage, reply, now, storeDown).msg, TranslateFailed)
    {
    }
  }
}
