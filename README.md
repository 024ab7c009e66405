# Resume Enhancer — a verified model of the enhancement core

Resume Enhancer lets a user upload a resume (PDF or plain text) or paste its
text. The backend stores the file and extracts its text. It sends the text to
an NLP service, which parses it into skills, experiences and education. The
user can then have the resume rewritten for a job description, get
improvement suggestions, or have it translated, either through an OpenAI-style
chat-completion API or through a local template that needs no key. Every
rewrite or translation is saved as a new version of the resume. GPT answers
are cached in Redis under content-derived keys. GPT calls and enhancements are
counted per user and per day against configurable limits.

This Dafny project models that core:

- the Spring services that orchestrate it: `EnhancedResumeService`,
  `GptService`, `CacheService`, `UsageTrackingService`, `ResumeService`,
  `PdfTextExtractor`, `StorageService`, `AuthService`;
- the parser of the NLP service (`nlp/main.py`);
- the validation helpers of the web front end together with their tests.

Services whose fields change become classes. `CacheService` holds its Redis
store as a map, `UsageTrackingService` its counters, `StorageService` its
files, and the repositories their rows. Every state-changing method is proved
against a pure function of the state it finds, and the properties are lemmas
about those functions. Pure code (prompt building, text cleaning, section
lookup, validation) becomes functions and lemmas.

The outside world enters as parameters or as function-valued fields:

- the chat-completion reply, as a `Result<string>`;
- Jackson's `readTree` and `writeValueAsString`;
- SHA-256;
- PDFBox's text;
- the platform charset decoder;
- the UUID of a stored file;
- the clock, passed as `now` in seconds and `date` for the day key;
- a Redis outage, passed as `storeDown`;
- the NLP reply;
- the password encoder, token signer and authentication manager;
- the regular-expression matchers of the NLP parser.

The supporting modules are:

- `Wrappers`: `Option` and `Result`.
- `Numeric`: bytes, decimal and hex digits, Java's 32-bit wrap-around and `Math.abs`.
- `Strings`: generic sequence facts and UTF-16 lengths.
- `JavaText`: `trim`, `split`, case-insensitive `replaceAll`, `String.hashCode`.
- `PythonText`: `strip`, `lower`, `title`, the `\s`/`\w` classes, `sorted(set(...))`.
- `JsonTree`: Jackson's tree model.
- `Entities` and `Repositories`: rows with identity ids, and newest-first queries.

Behaviour of the code worth knowing:

- The usage tracker does not catch Redis errors; a Redis failure there
  propagates to the caller. The model keeps the tracker's store always
  reachable, and only the response cache has a `storeDown` input.
- `EnhancedResumeService` reuses the newest version of a resume whenever it is
  a rewrite and no refresh is forced. This ignores the job description and the
  mode of the new request (`AnalysisIsReused`).
- An enhancement is charged on every regeneration, local ones included. A GPT
  use is charged only after the GPT path succeeds.
- The enhance prompt has no target-language block. `GptServiceTest.java`
  expects a seven-language name table and a three-argument
  `buildEnhancePrompt`, which `GptService.java` no longer has. The model
  follows `GptService.java`: "en" gives English, and every other code gives
  Chinese.
- `clean_text` turns every run of whitespace, newlines included, into one
  space. The section and line logic of the parser therefore always sees a
  single line, so there is at most one experience and one education entry
  (`NlpParser.ParseResumeText`).

## Model

Source paths are relative to the repository root.

| member | source | states |
|---|---|---|
| CacheService.ByteHex | backend/src/main/java/com/resumeenhancer/service/CacheService.java:128-134 | each digest byte becomes exactly two lower-case hex digits whose value is the byte (`toHexString(0xff & b)` padded with '0') |
| CacheService.HexOf | backend/src/main/java/com/resumeenhancer/service/CacheService.java:126-134 | the hex text of a digest is twice as long as the digest |
| CacheService.HexOfDigits | backend/src/main/java/com/resumeenhancer/service/CacheService.java:126-134 | only lower-case hex digits appear in the hex text |
| CacheService.HexRoundTrip | backend/src/main/java/com/resumeenhancer/service/CacheService.java:126-134 | decoding the hex text gives the digest back |
| CacheService.HexInjective | backend/src/main/java/com/resumeenhancer/service/CacheService.java:126-136 | different digests give different key texts |
| CacheService.PrefixesSeparateKeys | backend/src/main/java/com/resumeenhancer/service/CacheService.java:121-141 | keys under two different colon-free prefixes never coincide, on the hex path and the hashCode fallback alike |
| CacheService.PrefixesDiffer | backend/src/main/java/com/resumeenhancer/service/CacheService.java:33-88 | the prefixes "gpt", "enhancement" and "translation" are distinct and contain no ':' |
| CacheService.ServiceCachesDisjoint | backend/src/main/java/com/resumeenhancer/service/CacheService.java:27-107 | the GPT, enhancement and translation caches never share a key, whatever the inputs |
| CacheService.HexKeyShape | backend/src/main/java/com/resumeenhancer/service/CacheService.java:136 | when hashing succeeds the key is "resume_enhancer:" + prefix + ":" + 64 hex digits per 32-byte digest |
| CacheService.EnhancementInputSeparates | backend/src/main/java/com/resumeenhancer/service/CacheService.java:59 | the enhancement input tells resume ids and job descriptions apart, and a null job description equals the empty one |
| CacheService.TranslationInputsCollide | backend/src/main/java/com/resumeenhancer/service/CacheService.java:87 | the '\|' separator is not escaped: ("a\|b","c") and ("a","b\|c") give the same translation input |
| CacheService.ClearPrefix | backend/src/main/java/com/resumeenhancer/service/CacheService.java:115 | exactly the keys starting with the pattern are removed, and the others keep their values |
| CacheService.PutThenLookup | backend/src/main/java/com/resumeenhancer/service/CacheService.java:47 | a written value is read back until its time to live runs out, then it is gone; other keys are untouched |
| CacheService.CacheService.constructor | backend/src/main/java/com/resumeenhancer/service/CacheService.java:16-23 | the service starts with its flag, its cache hours and an empty store |
| CacheService.CacheService.GenerateCacheKey | backend/src/main/java/com/resumeenhancer/service/CacheService.java:121-141 | the hex loop builds exactly `CacheKey`: the digest in hex, or Math.abs of the 32-bit hashCode when hashing fails |
| CacheService.CacheService.GetCachedGptResponse | backend/src/main/java/com/resumeenhancer/service/CacheService.java:27-38 | disabled or unreachable: null; otherwise the unexpired value under the "gpt" key |
| CacheService.CacheService.CacheGptResponse | backend/src/main/java/com/resumeenhancer/service/CacheService.java:40-51 | disabled, a null response or an outage leave the store as it was; otherwise the value is written with a TTL of gptCacheHours |
| CacheService.CacheService.GetCachedEnhancement | backend/src/main/java/com/resumeenhancer/service/CacheService.java:53-65 | the same read under "enhancement" with the input resumeId + "\|" + job description |
| CacheService.CacheService.CacheEnhancement | backend/src/main/java/com/resumeenhancer/service/CacheService.java:67-79 | the same write under "enhancement" |
| CacheService.CacheService.GetCachedTranslation | backend/src/main/java/com/resumeenhancer/service/CacheService.java:81-93 | the same read under "translation" with the input text + "\|" + language |
| CacheService.CacheService.CacheTranslation | backend/src/main/java/com/resumeenhancer/service/CacheService.java:95-107 | the same write under "translation" |
| CacheService.CacheService.ClearCache | backend/src/main/java/com/resumeenhancer/service/CacheService.java:109-119 | when enabled and reachable, every key starting with the pattern is deleted; otherwise nothing changes |
| CacheService.CacheService.CacheThenGet | backend/src/main/java/com/resumeenhancer/service/CacheService.java:27-51 | usage scenario combining two source methods, not a model of one: a GPT response that is cached and read before it expires comes back unchanged |
| UsageTracking.KeyParts | backend/src/main/java/com/resumeenhancer/service/UsageTrackingService.java:34 | a counter key is the kind's prefix, ':', the user id, ':' and the date |
| UsageTracking.KindOfKey | backend/src/main/java/com/resumeenhancer/service/UsageTrackingService.java:34 | the kind prefix of a key determines the kind and the rest of the key |
| UsageTracking.RestInjective | backend/src/main/java/com/resumeenhancer/service/UsageTrackingService.java:34 | the user-and-date part of a key determines the user and the date |
| UsageTracking.CounterKeyInjective | backend/src/main/java/com/resumeenhancer/service/UsageTrackingService.java:29-71 | different kinds, users or dates never share a counter |
| UsageTracking.CanUseIffRemaining | backend/src/main/java/com/resumeenhancer/service/UsageTrackingService.java:29-95 | with tracking on, a call is allowed exactly when the remaining count is positive |
| UsageTracking.TrackMovesOnlyItsCounter | backend/src/main/java/com/resumeenhancer/service/UsageTrackingService.java:53-71 | a track raises its own counter by one and leaves every other counter as it was |
| UsageTracking.TrackedTimesCount | backend/src/main/java/com/resumeenhancer/service/UsageTrackingService.java:53-61 | k tracks raise the counter by k |
| UsageTracking.AfterTracks | backend/src/main/java/com/resumeenhancer/service/UsageTrackingService.java:29-83 | after k tracks of a fresh day, max(0, limit - k) remain, and a call is allowed exactly when k < limit |
| UsageTracking.ResetRestoresLimits | backend/src/main/java/com/resumeenhancer/service/UsageTrackingService.java:97-107 | after a reset both counters of that user and date read 0 and the full limits remain; other counters keep their values |
| UsageTracking.UsageTrackingService.constructor | backend/src/main/java/com/resumeenhancer/service/UsageTrackingService.java:20-27 | the service starts with its flag, its two limits and no counters |
| UsageTracking.UsageTrackingService.WithDefaults | backend/src/main/java/com/resumeenhancer/service/UsageTrackingService.java:20-24 | the default limits are 10 GPT calls and 20 enhancements a day |
| UsageTracking.UsageTrackingService.CanUseGptService | backend/src/main/java/com/resumeenhancer/service/UsageTrackingService.java:29-39 | with tracking off every call is allowed; otherwise the day's GPT count must be below the limit |
| UsageTracking.UsageTrackingService.CanUseEnhancement | backend/src/main/java/com/resumeenhancer/service/UsageTrackingService.java:41-51 | the same for enhancements |
| UsageTracking.UsageTrackingService.TrackGptUsage | backend/src/main/java/com/resumeenhancer/service/UsageTrackingService.java:53-61 | with tracking on, the day's GPT counter goes up by one; with it off the counters are unchanged |
| UsageTracking.UsageTrackingService.TrackEnhancementUsage | backend/src/main/java/com/resumeenhancer/service/UsageTrackingService.java:63-71 | the same for enhancements |
| UsageTracking.UsageTrackingService.GetRemainingGptUsage | backend/src/main/java/com/resumeenhancer/service/UsageTrackingService.java:73-83 | with tracking off the limit is returned; otherwise max(0, limit - count), positive exactly when a call is allowed |
| UsageTracking.UsageTrackingService.GetRemainingEnhancementUsage | backend/src/main/java/com/resumeenhancer/service/UsageTrackingService.java:85-95 | the same for enhancements |
| UsageTracking.UsageTrackingService.ResetDailyUsage | backend/src/main/java/com/resumeenhancer/service/UsageTrackingService.java:97-107 | with tracking on, both counters of the user for the date are deleted |
| GptService.AvailabilityCases | backend/src/main/java/com/resumeenhancer/service/GptService.java:295-297 | a real key makes the service available; a null key, the empty key or the placeholder key do not |
| GptService.ExtractContent | backend/src/main/java/com/resumeenhancer/service/GptService.java:201-216 | a parse failure is passed on; any other failure is "Invalid response format"; the content is trimmed |
| GptService.ExtractContentIff | backend/src/main/java/com/resumeenhancer/service/GptService.java:201-216 | extraction succeeds exactly for an envelope with a non-empty "choices" array whose first element has message.content, and then yields that text, trimmed |
| GptService.EnvelopeRoundTrip | backend/src/main/java/com/resumeenhancer/service/GptService.java:201-216 | the content put into a one-choice envelope comes back out, trimmed |
| GptService.EmptyChoicesRejected | backend/src/main/java/com/resumeenhancer/service/GptService.java:205 | a reply with no choices, or with an empty list of them, is rejected |
| GptService.Wrapped | backend/src/main/java/com/resumeenhancer/service/GptService.java:86 | a failure is reported with the prefix in front of the original message; a success passes through |
| GptService.PromptDefault | backend/src/main/java/com/resumeenhancer/service/GptService.java:233 | a missing job description reads as the fallback text |
| GptService.PromptSeparatesBodies | backend/src/main/java/com/resumeenhancer/service/GptService.java:218-234 | two prompts with the same job description are equal exactly when their resume texts are |
| GptService.BuildSuggestionsPrompt | backend/src/main/java/com/resumeenhancer/service/GptService.java:268-284 | the prompt frames the serialised JSON; it fails with "Failed to serialize resume JSON" exactly when serialising fails |
| GptService.LanguageName | backend/src/main/java/com/resumeenhancer/service/GptService.java:287 | the language name is "English" or "Chinese" (seven characters) |
| GptService.TranslatePromptSeparates | backend/src/main/java/com/resumeenhancer/service/GptService.java:286-293 | two translate prompts are equal exactly when the texts are equal and both or neither code is "en" |
| GptService.OtherCodesTranslateToChinese | backend/src/main/java/com/resumeenhancer/service/GptService.java:287 | "es", "zh" and "ja" all get the same Chinese prompt |
| GptService.NormalizeQuotes | backend/src/main/java/com/resumeenhancer/service/GptService.java:115 | every single quote becomes a double quote and nothing else changes |
| GptService.NormalizeIdempotent | backend/src/main/java/com/resumeenhancer/service/GptService.java:115 | normalising twice is the same as normalising once |
| GptService.SuggestionsNode | backend/src/main/java/com/resumeenhancer/service/GptService.java:118-121 | a text that does not parse yields the parse failure |
| GptService.SuggestionsCacheReplays | backend/src/main/java/com/resumeenhancer/service/GptService.java:94-129 | what a successful reply leaves in the cache reads back as the same list of suggestions |
| GptService.UnconvertibleSuggestionsStayCached | backend/src/main/java/com/resumeenhancer/service/GptService.java:121-128 | an array holding a nested array or object is cached before the conversion fails, and the cached text then never yields a list |
| GptService.SuggestionsAccepted | backend/src/main/java/com/resumeenhancer/service/GptService.java:110-131 | a reply yields a list exactly when its content parses to a "suggestions" array with no nested array or object, and the list has one entry per element |
| GptService.NullSuggestionKept | backend/src/main/java/com/resumeenhancer/service/GptService.java:118-128 | `{"suggestions": ["Add metrics", null]}` yields `["Add metrics", null]` on the call path and again from the cache |
| GptService.MissingSuggestionsRejected | backend/src/main/java/com/resumeenhancer/service/GptService.java:121-131 | any content that parses but has no "suggestions" field, or one that is not an array, is "Invalid suggestions format", and nothing is cached |
| GptService.GptService.constructor | backend/src/main/java/com/resumeenhancer/service/GptService.java:28-49 | the service keeps its key, cache, JSON reader and writer, and the prompt texts |
| GptService.GptService.EnhancePrompt | backend/src/main/java/com/resumeenhancer/service/GptService.java:60-87 | a cache hit is answered as stored; otherwise the reply's content is returned and cached, or the failure is wrapped |
| GptService.GptService.EnhanceResume | backend/src/main/java/com/resumeenhancer/service/GptService.java:51-88 | `enhanceResume` does exactly what `EnhancePrompt` does, for the prompt built from resume and job description |
| GptService.GptService.EnhanceHitIgnoresReply | backend/src/main/java/com/resumeenhancer/service/GptService.java:61-67 | on a hit the API reply is irrelevant and the store is unchanged |
| GptService.GptService.EnhanceWithoutStore | backend/src/main/java/com/resumeenhancer/service/GptService.java:61-86 | without a reachable store the answer is the call's (wrapped on failure) and nothing is stored |
| GptService.GptService.EnhanceReplays | backend/src/main/java/com/resumeenhancer/service/GptService.java:61-80 | after a successful miss, the same prompt is answered with the same text until the entry expires, whatever the next reply |
| GptService.GptService.ReadSuggestions | backend/src/main/java/com/resumeenhancer/service/GptService.java:94-108 | the cache path of `generateSuggestions` yields the cached list, `null` entries included, when its "suggestions" array converts, and changes nothing |
| GptService.GptService.CallForSuggestions | backend/src/main/java/com/resumeenhancer/service/GptService.java:110-135 | the call path yields the reply's list, `null` entries included, or the wrapped failure, and caches the normalised content exactly when it holds a "suggestions" array |
| GptService.GptService.GenerateSuggestions | backend/src/main/java/com/resumeenhancer/service/GptService.java:90-136 | the answer and the store are those of `SuggestionsResult` and `SuggestionsStore` |
| GptService.GptService.SuggestionsReplay | backend/src/main/java/com/resumeenhancer/service/GptService.java:90-129 | after a successful miss, the same resume and job description get the same list until expiry |
| GptService.GptService.TranslateResume | backend/src/main/java/com/resumeenhancer/service/GptService.java:138-174 | a hit under (text, language) is answered as stored; otherwise the call's content is returned and cached, or the failure is wrapped |
| GptService.GptService.TranslateReplays | backend/src/main/java/com/resumeenhancer/service/GptService.java:147-166 | after a successful miss, the same text and code are answered the same until expiry |
| GptService.GptService.FailedTranslationKeepsStore | backend/src/main/java/com/resumeenhancer/service/GptService.java:157-172 | a failed translation leaves the store as it was and reports "Failed to translate resume: " |
| EnhancedResumeService.EnhanceWithLocalTemplate | backend/src/main/java/com/resumeenhancer/service/EnhancedResumeService.java:213-237 | the loop builds `LocalEnhancement`: banner, improved non-blank sections, then the role note |
| EnhancedResumeService.SectionsAppend | backend/src/main/java/com/resumeenhancer/service/EnhancedResumeService.java:219-230 | the sections are improved independently: the text of a list is the text of its parts |
| EnhancedResumeService.BlankSectionsVanish | backend/src/main/java/com/resumeenhancer/service/EnhancedResumeService.java:221 | blank sections contribute nothing |
| EnhancedResumeService.LocalEnhancementOpens | backend/src/main/java/com/resumeenhancer/service/EnhancedResumeService.java:215-236 | the text opens with the banner; without a usable job description nothing follows the sections |
| EnhancedResumeService.LocalEnhancementNamesRole | backend/src/main/java/com/resumeenhancer/service/EnhancedResumeService.java:232-234 | a non-blank job description ends the text with a role note naming its first 100 UTF-16 units |
| EnhancedResumeService.PhraseRewritten | backend/src/main/java/com/resumeenhancer/service/EnhancedResumeService.java:224-227 | a section opening with "responsible for" in any case opens with "Led", and the rest goes through the three replacements |
| EnhancedResumeService.LedSurvives | backend/src/main/java/com/resumeenhancer/service/EnhancedResumeService.java:226-227 | the later two replacements keep the "Led" in front |
| EnhancedResumeService.LocalTranslationKeepsText | backend/src/main/java/com/resumeenhancer/service/EnhancedResumeService.java:239-246 | the local translation is a banner followed by the untouched text; the banner is the English one exactly for "en" |
| EnhancedResumeService.LanguageTag | backend/src/main/java/com/resumeenhancer/service/EnhancedResumeService.java:178-179 | a translation is tagged EN exactly for "en", otherwise ZH, never ORIGINAL |
| EnhancedResumeService.StoredSuggestions | backend/src/main/java/com/resumeenhancer/service/EnhancedResumeService.java:249-262 | for the JSON text the entity just saved holds, a list is read back exactly when it is an object whose "suggestions" field is an array |
| EnhancedResumeService.SuggestionsRoundTrip | backend/src/main/java/com/resumeenhancer/service/EnhancedResumeService.java:112-117 | suggestions written at save come back from `convertToDto` of the entity just saved as the same list, `null` entries included |
| EnhancedResumeService.NewestDecidesReuse | backend/src/main/java/com/resumeenhancer/service/EnhancedResumeService.java:63-71 | the version saved last decides reuse: a rewrite is reused, a translation is not |
| EnhancedResumeService.GptAnalysisCharges | backend/src/main/java/com/resumeenhancer/service/EnhancedResumeService.java:92-103 | a GPT analysis adds one to both counters of that user and day and to no other counter |
| EnhancedResumeService.EnhancedResumeService.constructor | backend/src/main/java/com/resumeenhancer/service/EnhancedResumeService.java:26-39 | the service keeps its repositories, GPT service and optional usage tracker |
| EnhancedResumeService.EnhancedResumeService.AnalyzeWithGpt | backend/src/main/java/com/resumeenhancer/service/EnhancedResumeService.java:84-89 | the GPT path runs the enhancement and then, for parsed JSON, the suggestions against the store the enhancement left |
| EnhancedResumeService.EnhancedResumeService.SaveVersion | backend/src/main/java/com/resumeenhancer/service/EnhancedResumeService.java:116-117 | one version is appended with the next id and its DTO is returned |
| EnhancedResumeService.EnhancedResumeService.RegenerateLocally | backend/src/main/java/com/resumeenhancer/service/EnhancedResumeService.java:97-117 | the local path saves the template's text and charges one enhancement |
| EnhancedResumeService.EnhancedResumeService.RegenerateWithGpt | backend/src/main/java/com/resumeenhancer/service/EnhancedResumeService.java:77-117 | the GPT path: the quota check, the GPT outcome, then charging and saving |
| EnhancedResumeService.EnhancedResumeService.SaveGptRewrite | backend/src/main/java/com/resumeenhancer/service/EnhancedResumeService.java:92-117 | one GPT use and one enhancement are charged, then the rewrite with its suggestions is saved |
| EnhancedResumeService.EnhancedResumeService.Regenerate | backend/src/main/java/com/resumeenhancer/service/EnhancedResumeService.java:73-121 | the `try` block of `analyzeResume`: GPT for mode "gpt" with a key, the template otherwise |
| EnhancedResumeService.EnhancedResumeService.AnalyzeResume | backend/src/main/java/com/resumeenhancer/service/EnhancedResumeService.java:54-122 | `analyzeResume` answers and leaves exactly what `Analysis` says |
| EnhancedResumeService.EnhancedResumeService.EnhanceResume | backend/src/main/java/com/resumeenhancer/service/EnhancedResumeService.java:43-52 | `enhanceResume` is an analysis with the refresh forced |
| EnhancedResumeService.EnhancedResumeService.FailedRegenerationChangesNoRecord | backend/src/main/java/com/resumeenhancer/service/EnhancedResumeService.java:77-121 | only the GPT path can fail, and a failure saves no version and charges nothing |
| EnhancedResumeService.EnhancedResumeService.SuccessfulRegenerationSavesOneRewrite | backend/src/main/java/com/resumeenhancer/service/EnhancedResumeService.java:100-117 | a success appends one ORIGINAL "rewrite" version of the resume, answers with it, and charges one enhancement (plus one GPT use on the GPT path) |
| EnhancedResumeService.EnhancedResumeService.FailedAnalysisChangesNoRecord | backend/src/main/java/com/resumeenhancer/service/EnhancedResumeService.java:54-122 | a failed analysis saves and charges nothing; the guards and the local path change nothing at all |
| EnhancedResumeService.EnhancedResumeService.AnalysisGuards | backend/src/main/java/com/resumeenhancer/service/EnhancedResumeService.java:55-60 | an unknown or foreign resume gives "Resume not found"; a missing or blank text gives "Resume text is not available yet"; neither changes anything |
| EnhancedResumeService.EnhancedResumeService.SuccessSavesOneRewrite | backend/src/main/java/com/resumeenhancer/service/EnhancedResumeService.java:62-117 | a success either reuses (nothing saved) or saves exactly one new rewrite and answers with it; a forced refresh always saves one |
| EnhancedResumeService.EnhancedResumeService.AnalysisIsReused | backend/src/main/java/com/resumeenhancer/service/EnhancedResumeService.java:63-71 | a second analysis without a forced refresh returns the first one's answer and changes nothing, whatever its job description, mode or GPT outcome |
| EnhancedResumeService.EnhancedResumeService.QuotaStopsGpt | backend/src/main/java/com/resumeenhancer/service/EnhancedResumeService.java:79-81 | with the day's GPT quota used up, a GPT analysis fails with the quota message and changes nothing |
| EnhancedResumeService.EnhancedResumeService.AnalysisCharges | backend/src/main/java/com/resumeenhancer/service/EnhancedResumeService.java:92-103 | a saved analysis adds one enhancement, plus one GPT use exactly on the GPT path |
| EnhancedResumeService.EnhancedResumeService.LocalAnalysisUsesTemplate | backend/src/main/java/com/resumeenhancer/service/EnhancedResumeService.java:95-98 | the local path always succeeds with the template's text, no suggestions and the cache untouched |
| EnhancedResumeService.EnhancedResumeService.TranslationSource | backend/src/main/java/com/resumeenhancer/service/EnhancedResumeService.java:125-141 | the source text is never blank, and it comes from a resume exactly when an id is given |
| EnhancedResumeService.EnhancedResumeService.Translate | backend/src/main/java/com/resumeenhancer/service/EnhancedResumeService.java:150-169 | GPT behind the quota, charging one GPT use on success, or the local translation |
| EnhancedResumeService.EnhancedResumeService.TranslateResume | backend/src/main/java/com/resumeenhancer/service/EnhancedResumeService.java:124-197 | `translateResume` answers and leaves exactly what `Translation` says |
| EnhancedResumeService.EnhancedResumeService.SaveTranslation | backend/src/main/java/com/resumeenhancer/service/EnhancedResumeService.java:171-192 | a resume's translation is saved as a "translate" version; a text's is only answered, without ids |
| EnhancedResumeService.EnhancedResumeService.TranslationSourceCases | backend/src/main/java/com/resumeenhancer/service/EnhancedResumeService.java:128-137 | an id wins over the text; an unknown id gives "Resume not found"; with neither, the request is refused |
| EnhancedResumeService.EnhancedResumeService.TranslationSaves | backend/src/main/java/com/resumeenhancer/service/EnhancedResumeService.java:171-192 | a text translation saves nothing; a resume translation appends one "translate" version in the target language and answers with it |
| EnhancedResumeService.EnhancedResumeService.TranslationCharges | backend/src/main/java/com/resumeenhancer/service/EnhancedResumeService.java:150-169 | a translation never moves the enhancement counter; a local one moves no counter |
| EnhancedResumeService.EnhancedResumeService.TranslationEndsReuse | backend/src/main/java/com/resumeenhancer/service/EnhancedResumeService.java:63-71 | after a saved translation, the next analysis of the resume regenerates |
| EnhancedResumeService.EnhancedResumeService.GetEnhancedResume | backend/src/main/java/com/resumeenhancer/service/EnhancedResumeService.java:199-203 | found exactly when the version exists and its resume is the user's, answering its DTO; otherwise "Enhanced resume not found" |
| EnhancedResumeService.EnhancedResumeService.GetEnhancedVersions | backend/src/main/java/com/resumeenhancer/service/EnhancedResumeService.java:205-211 | for an owned resume, every version of that resume and only those, newest first |
| EnhancedResumeService.Forced | backend/src/main/java/com/resumeenhancer/service/EnhancedResumeService.java:45-49 | an enhance request becomes an analysis with forceRefresh true |
| ResumeService.UploadCheckFirstFailure | backend/src/main/java/com/resumeenhancer/service/ResumeService.java:38-52 | the upload checks pass exactly when the file is non-empty, at most 5 MB, a PDF or text and the user exists; a failure names the first failed check |
| ResumeService.Touch | backend/src/main/java/com/resumeenhancer/service/ResumeService.java:112-142 | an update changes only the row with that id, and an unknown id changes nothing |
| ResumeService.RawText | backend/src/main/java/com/resumeenhancer/service/ResumeService.java:86-95 | a PDF gives PDFBox's text trimmed, or "Failed to extract text: " with PDFBox's message; a text file gives the decoded bytes trimmed; another type is "Unsupported file type" |
| ResumeService.ExtractedText | backend/src/main/java/com/resumeenhancer/service/ResumeService.java:86-100 | the extracted text is `RawText`'s when that is non-blank; blank text is "No text content extracted", and `RawText`'s failures pass through |
| ResumeService.StepsKeepIds | backend/src/main/java/com/resumeenhancer/service/ResumeService.java:112-142 | the background steps keep the ids in place, and an id with no row changes nothing |
| ResumeService.ParseOutcome | backend/src/main/java/com/resumeenhancer/service/ResumeService.java:127-142 | a successful parse sets the parsed JSON only; a failed one sets the flag only; the text is never touched |
| ResumeService.ExtractOutcome | backend/src/main/java/com/resumeenhancer/service/ResumeService.java:84-125 | extracted text is stored and parsed, leaving the flag true exactly when the parse failed; no text sets the flag and parses nothing |
| ResumeService.UnsupportedFileFlagged | backend/src/main/java/com/resumeenhancer/service/ResumeService.java:92-99 | an unsupported type, or a text file whose content is blank, ends with only the flag set |
| ResumeService.ResumeService.constructor | backend/src/main/java/com/resumeenhancer/service/ResumeService.java:21-34 | the service keeps its repositories, storage, PDF text and decoder |
| ResumeService.ResumeService.UpdateResumeText | backend/src/main/java/com/resumeenhancer/service/ResumeService.java:112-118 | the row gets the text and a cleared flag |
| ResumeService.ResumeService.MarkParseError | backend/src/main/java/com/resumeenhancer/service/ResumeService.java:120-125 | the row's flag is set |
| ResumeService.ResumeService.UpdateResumeParsedJson | backend/src/main/java/com/resumeenhancer/service/ResumeService.java:137-142 | the row gets the parsed JSON |
| ResumeService.ResumeService.ParseResume | backend/src/main/java/com/resumeenhancer/service/ResumeService.java:127-135 | `parseResumeAsync` leaves the rows `AfterParse` describes |
| ResumeService.ResumeService.ExtractText | backend/src/main/java/com/resumeenhancer/service/ResumeService.java:83-110 | `extractTextAsync` leaves the rows `AfterExtract` describes |
| ResumeService.ResumeService.UploadResume | backend/src/main/java/com/resumeenhancer/service/ResumeService.java:36-65 | a failed check changes nothing; otherwise the file is stored, a new row is added, extraction and parsing run, and the new row's DTO is answered |
| ResumeService.ResumeService.CreateTextResume | backend/src/main/java/com/resumeenhancer/service/ResumeService.java:67-81 | an unknown user changes nothing; otherwise a "text-input" row with the text is added and parsed |
| ResumeService.ResumeService.GetResume | backend/src/main/java/com/resumeenhancer/service/ResumeService.java:144-148 | found exactly when the resume exists and is the user's; otherwise "Resume not found" |
| ResumeService.ResumeService.GetUserResumes | backend/src/main/java/com/resumeenhancer/service/ResumeService.java:150-153 | the answer is `UserResumes` of the rows |
| ResumeService.UserResumes | backend/src/main/java/com/resumeenhancer/service/ResumeService.java:150-153 | one DTO per owned row, in newest-first order |
| ResumeService.UserResumesNewestFirst | backend/src/main/java/com/resumeenhancer/service/ResumeService.java:151 | the ids of the answered resumes strictly decrease |
| ResumeService.UserResumesExactlyOwned | backend/src/main/java/com/resumeenhancer/service/ResumeService.java:151-152 | every answered resume is the user's, and every resume of the user is answered |
| PdfTextExtractor.ContentTypesExclusive | backend/src/main/java/com/resumeenhancer/service/PdfTextExtractor.java:24-33 | no file is both a PDF and a text file, and a file without a content type is neither |
| PdfTextExtractor.TrimmedSlice | backend/src/main/java/com/resumeenhancer/service/PdfTextExtractor.java:16-21 | trimming gives a trimmed piece of the text |
| PdfTextExtractor.ExtractTextFromPdf | backend/src/main/java/com/resumeenhancer/service/PdfTextExtractor.java:13-18 | the answer is exactly PDFBox's text trimmed, a trimmed piece of it, and fails with PDFBox's message exactly when PDFBox fails |
| PdfTextExtractor.ExtractTextFromText | backend/src/main/java/com/resumeenhancer/service/PdfTextExtractor.java:20-22 | the answer is exactly the decoded bytes trimmed |
| StorageService.Extension | backend/src/main/java/com/resumeenhancer/service/StorageService.java:30-32 | the extension is empty exactly when there is no name or no '.', and otherwise the name's suffix from its last '.' |
| StorageService.Download | backend/src/main/java/com/resumeenhancer/service/StorageService.java:42-48 | a download succeeds exactly for a stored path, with its bytes |
| StorageService.FileUrl | backend/src/main/java/com/resumeenhancer/service/StorageService.java:75-78 | the URL is "/files/" followed by the name |
| StorageService.FileUrlInjective | backend/src/main/java/com/resumeenhancer/service/StorageService.java:75-78 | different names give different URLs |
| StorageService.WriteThenDownload | backend/src/main/java/com/resumeenhancer/service/StorageService.java:42-66 | written bytes download unchanged, and other paths are unaffected |
| StorageService.StorageService.constructor | backend/src/main/java/com/resumeenhancer/service/StorageService.java:16-17 | the store starts empty |
| StorageService.StorageService.UploadFile | backend/src/main/java/com/resumeenhancer/service/StorageService.java:19-40 | an empty file is refused; otherwise the bytes go to folder/uuid+extension, which must not exist yet |
| StorageService.StorageService.UploadBytes | backend/src/main/java/com/resumeenhancer/service/StorageService.java:50-66 | the bytes are written to folder/uuid+extension, replacing what was there |
| StorageService.StorageService.DownloadFile | backend/src/main/java/com/resumeenhancer/service/StorageService.java:42-48 | the answer is `Download` of the store |
| StorageService.StorageService.DeleteFile | backend/src/main/java/com/resumeenhancer/service/StorageService.java:68-73 | the path is gone afterwards, and a missing path is no error |
| StorageService.StorageService.UploadThenDownload | backend/src/main/java/com/resumeenhancer/service/StorageService.java:42-66 | usage scenario combining two source methods, not a model of one: uploading bytes and downloading the returned path gives the bytes back |
| AuthService.RegisterCheckFirstFailure | backend/src/main/java/com/resumeenhancer/service/AuthService.java:31-43 | registration passes exactly when the name and email are non-blank, the password has at least 8 UTF-16 units and the email is new; the name check comes first and the duplicate check last |
| AuthService.RegisterTwiceRefused | backend/src/main/java/com/resumeenhancer/service/AuthService.java:41-50 | once a request has registered, the same request is refused as a duplicate |
| AuthService.RegisteredUserFound | backend/src/main/java/com/resumeenhancer/service/AuthService.java:50-58 | the user saved under a new email is the one a later lookup finds |
| AuthService.AuthService.constructor | backend/src/main/java/com/resumeenhancer/service/AuthService.java:17-27 | the service keeps its repository, encoder, token signer, authenticator and the persist-time validator of `User` |
| AuthService.AuthService.Register | backend/src/main/java/com/resumeenhancer/service/AuthService.java:29-54 | a failed check answers its message and saves nothing; a row that the persist-time validation of `User` refuses answers the violation and saves nothing; otherwise one user with the email, the encoded password and the trimmed name is saved and answered with its token |
| AuthService.AuthService.Login | backend/src/main/java/com/resumeenhancer/service/AuthService.java:56-70 | an unknown email is reported before the password is checked; a refused password gives "Invalid password" |
| AuthService.AuthService.RegisterThenLogin | backend/src/main/java/com/resumeenhancer/service/AuthService.java:29-70 | usage scenario combining two source methods, not a model of one: a fresh registration whose row passes validation, followed by a login with an accepted password, gives the same answer twice; a refused row saves nothing |
| Repositories.UserById | backend/src/main/java/com/resumeenhancer/service/ResumeService.java:51-52 | `findById` finds a user exactly when one has that id |
| Repositories.UserByEmail | backend/src/main/java/com/resumeenhancer/service/AuthService.java:58-59 | `findByEmail` finds a user exactly when one has that email |
| Repositories.OwnedResume | backend/src/main/java/com/resumeenhancer/service/ResumeService.java:145-146 | `findByIdAndUserId` finds a resume exactly when it has that id and owner |
| Repositories.VersionsOfShape | backend/src/main/java/com/resumeenhancer/repository/EnhancedResumeRepository.java:12 | `findByResumeIdOrderByCreatedAtDesc` holds exactly the resume's versions, newest first |
| Repositories.VersionsAfterInsert | backend/src/main/java/com/resumeenhancer/repository/EnhancedResumeRepository.java:12 | a version saved for the resume becomes the first of its list; others leave the list unchanged |
| Repositories.OwnedVersion | backend/src/main/java/com/resumeenhancer/repository/EnhancedResumeRepository.java:13 | `findByIdAndResumeUserId` finds a version exactly when one has that id and belongs to a resume of the user |
| Repositories.NewestFirstShape | backend/src/main/java/com/resumeenhancer/service/ResumeService.java:151 | a newest-first query keeps exactly the matching rows, in strictly decreasing id order |
| Repositories.UserRepository.Insert | backend/src/main/java/com/resumeenhancer/service/AuthService.java:50 | saving appends the user with the next id |
| Repositories.ResumeRepository.Insert | backend/src/main/java/com/resumeenhancer/service/ResumeService.java:59 | saving appends the resume with the next id |
| Repositories.ResumeRepository.Update | backend/src/main/java/com/resumeenhancer/service/ResumeService.java:116 | saving an existing resume replaces its row |
| Repositories.EnhancedResumeRepository.Insert | backend/src/main/java/com/resumeenhancer/service/EnhancedResumeService.java:116 | saving appends the version with the next id |
| JavaText.Utf16Prefix | backend/src/main/java/com/resumeenhancer/service/EnhancedResumeService.java:233 | `substring(0, min(100, length()))` is a prefix of at most 100 UTF-16 units, and the whole text when it is short enough |
| JavaText.TrimIdempotent | backend/src/main/java/com/resumeenhancer/service/PdfTextExtractor.java:16 | trimming twice is trimming once |
| JavaText.BlankIffAllTrimmable | backend/src/main/java/com/resumeenhancer/service/ResumeService.java:97 | `trim().isEmpty()` holds exactly when every character is at most U+0020 |
| JavaText.JoinPieces | backend/src/main/java/com/resumeenhancer/service/EnhancedResumeService.java:219 | the pieces of a split, joined again with the separator, give the text back |
| JavaText.HashIsWrappedPolynomial | backend/src/main/java/com/resumeenhancer/service/CacheService.java:139 | `hashCode` is the polynomial over the UTF-16 units, wrapped to 32 bits |
| Numeric.DecimalRoundTrip | backend/src/main/java/com/resumeenhancer/service/UsageTrackingService.java:37 | a counter written as decimal digits reads back as the same number |
| Numeric.LongToStringInjective | backend/src/main/java/com/resumeenhancer/service/CacheService.java:59 | different ids render differently |
| Numeric.MathAbsOfIntMin | backend/src/main/java/com/resumeenhancer/service/CacheService.java:139 | `Math.abs(Integer.MIN_VALUE)` stays negative |
| JsonTree.AsStringList | backend/src/main/java/com/resumeenhancer/service/GptService.java:127-128 | the conversion succeeds exactly when every element converts, element by element; JSON null becomes a `null` entry |
| JsonTree.ElementAsString | backend/src/main/java/com/resumeenhancer/service/GptService.java:127-128 | an element gives a `null` entry exactly when it is the JSON null, and is refused exactly when it is an array or an object |
| JsonTree.StringsRoundTrip | backend/src/main/java/com/resumeenhancer/service/EnhancedResumeService.java:113 | a list written as a JSON array, `null` entries as JSON null, converts back to the same list |
| NlpParser.CollapseSpaces | nlp/main.py:80 | the result's only whitespace is ' ', and it holds no other new characters |
| NlpParser.CollapseKeepsNonSpace | nlp/main.py:80 | collapsing whitespace keeps every other character, in order |
| NlpParser.CleanTextShape | nlp/main.py:78-83 | the cleaned text has only word characters, spaces and the kept punctuation; it has no newline and no space at either end |
| NlpParser.CleanKeepsText | nlp/main.py:78-83 | on text of word characters, whitespace and the kept punctuation, cleaning changes only the whitespace |
| NlpParser.FindKeyword | nlp/main.py:260-261 | the first position at which the keyword occurs between word boundaries, or -1 when there is none |
| NlpParser.SectionEnd | nlp/main.py:260 | the section ends at the first blank line, capitalised heading or end of text |
| NlpParser.FirstOccurringKeyword | nlp/main.py:259-263 | the first keyword of the list that occurs at all |
| NlpParser.SectionAbsentIffNoKeyword | nlp/main.py:256-265 | no section is found exactly when no keyword occurs |
| NlpParser.SectionFromFirstKeyword | nlp/main.py:256-265 | a found section is the stripped body after the first occurrence of the first keyword that occurs, in the lower-cased text |
| NlpParser.SectionOfOneLine | nlp/main.py:256-265 | in text without newlines a section is the rest of the line after the keyword |
| NlpParser.FoundSkillsMembers | nlp/main.py:100-109 | the collected skills are exactly the title-cased keywords found in the haystack |
| NlpParser.ExtractSkills | nlp/main.py:85-112 | the skills are sorted without duplicates, and are exactly the title-cased keywords found in the skills section, or in the whole text when there is none |
| NlpParser.GroupingFollowsStarts | nlp/main.py:143-181 | one entry per line that starts one, in order, each keeping the key its start gave it |
| NlpParser.StartsSatisfy | nlp/main.py:149-159 | every started entry satisfies what its start promises |
| NlpParser.ExtractExperiences | nlp/main.py:114-183 | the experiences are those of `ExperiencesOf` |
| NlpParser.GroupExperienceLines | nlp/main.py:140-183 | the loop over the lines builds the grouping of `GroupLines` |
| NlpParser.ExperiencePerCompanyLine | nlp/main.py:149-181 | one experience per company line, in order, with the company of that line and empty bullets at start |
| NlpParser.ExtractEducation | nlp/main.py:185-254 | the education entries are those of `EducationOf` |
| NlpParser.GroupEducationLines | nlp/main.py:215-254 | the loop over the lines builds the grouping of `GroupLines` |
| NlpParser.EducationPerDegreeLine | nlp/main.py:224-252 | one education entry per degree line, in order, with the degree of that line |
| NlpParser.StartsOfOneLine | nlp/main.py:140 | a text without newlines starts at most one entry |
| NlpParser.ParseResumeText | nlp/main.py:63-76 | the parts are extracted from the cleaned text; the skills are sorted and exactly the ones found; at most one experience and one education entry |
| NlpParser.BlankTextGets500AsWritten | nlp/main.py:53-61 | as written, whitespace-only text is answered with 500 |
| NlpParser.BlankTextGets400 | nlp/main.py:54-55 | with the 400 passed through, whitespace-only text gets 400 and every other text is parsed |
| NlpParser.ParseResume | nlp/main.py:51-61 | blank text gets 400 "Text cannot be empty"; other text is parsed from its cleaned form, with its skills sorted, distinct and exactly the keywords found |
| PythonText.StripIsSlice | nlp/main.py:83 | `strip` gives a slice without whitespace at either end |
| PythonText.StripEmptyIffAllSpace | nlp/main.py:54 | `text.strip()` is empty exactly when every character is whitespace |
| PythonText.Insert | nlp/main.py:112 | inserting keeps the list sorted and adds exactly the new element |
| PythonText.SortedDistinct | nlp/main.py:112 | `sorted(set(xs))` is strictly sorted and holds exactly the elements of xs |
| PythonText.SortedHasNoDuplicates | nlp/main.py:112 | a strictly sorted list has no duplicates |
| PythonText.LexTransitive | nlp/main.py:112 | the string order is transitive |
| PythonText.LexTotal | nlp/main.py:112 | any two different strings are ordered one way or the other |
| Validation.ValidateEmailIsShape | frontend/src/utils/validation.test.ts:4-7 | the email pattern matches exactly one '@' with non-empty text before it, and after it a '.' with non-empty text on both sides and no whitespace anywhere |
| Validation.ValidEmailAccepted | frontend/src/utils/validation.test.ts:20 | "test@example.com" is accepted |
| Validation.DottedEmailAccepted | frontend/src/utils/validation.test.ts:21 | "user.name@domain.co.uk" is accepted |
| Validation.InvalidEmailsRejected | frontend/src/utils/validation.test.ts:24-28 | "invalid-email", "test@" and "@example.com" are rejected |
| Validation.PasswordCases | frontend/src/utils/validation.test.ts:30-38 | the test passwords are accepted or rejected as the tests expect |
| Validation.PasswordExtends | frontend/src/utils/validation.test.ts:9-11 | a password that is accepted stays accepted when it is extended |
| Validation.FullNameIgnoresPadding | frontend/src/utils/validation.test.ts:13-15 | surrounding whitespace does not change a name's verdict |
| Validation.BlankNameRejected | frontend/src/utils/validation.test.ts:13-15 | a whitespace-only name is rejected |
| Validation.FullNameCases | frontend/src/utils/validation.test.ts:40-49 | the test names are accepted or rejected as the tests expect |

## Left out

- HTTP, WebClient, Redis connections, JPA sessions, files on disk and the
  OpenAI API are not modelled. Their answers are inputs: the chat reply, the
  NLP reply, `storeDown`, the PDF text and the file UUID.
- Timeouts, the 60-second GPT call bound and retries are not modelled; a call
  that fails is an `Err` reply.
- `@Async` is not modelled. The two background steps of `ResumeService` are
  called on the service itself, so Spring runs them in line, and the model
  runs them in sequence.
- Concurrency between requests is not modelled: each operation runs on its
  own.
- `createdAt` is not modelled; "newest first" is "highest id first". Clock
  ties and clock skew are left out.
- The clock, the time zone and the day key are parameters: `date` for the
  usage counters and `now` for cache expiry.
- `UsageTracking.UsageTrackingService.TrackGptUsage`: the one-day expiry set on
  a counter key is not modelled. Counters for later dates use other keys.
- `UsageTracking.UsageTrackingService.TrackEnhancementUsage`: the same one-day
  expiry is not modelled.
- Counters are stored as integers. `Integer.parseInt` of the stored text and
  the `increment` command's 64-bit range are not modelled.
- Redis errors inside `UsageTrackingService` propagate in the source; the
  model keeps that store always reachable instead of adding a failure path.
- `CacheService.CacheService.ClearCache`: the pattern is taken literally as a
  prefix. Glob metacharacters inside it (`*`, `?`, `[`) are not interpreted.
- Jackson is an oracle. `readTree` and `writeValueAsString` are function
  fields, and the tree model has only integer numbers.
- SHA-256 is an oracle (`digest`); its failure selects the hashCode fallback.
- `NlpParser.CleanText`: `\w` is exact for ASCII and Latin-1 only. Above
  U+00FF every non-space character counts as a word character, except the
  General Punctuation block and U+3000-U+3003.
- `PythonText.Lower`: `lower` and `title` are modelled on ASCII letters only.
- `JavaText.Utf16Prefix`: the prefix never splits a surrogate pair, whereas
  `substring` can cut a pair in half.
- The company, title, year, degree and university regular expressions of the
  NLP parser are opaque line matchers (`LinePatterns`). The model proves the
  grouping logic around them, not the patterns.
- spaCy is loaded in `main.py` but never used by the parser. The `/` and
  `/health` handlers only report status; neither is modelled.
- The console debug output of `GptService` and `EnhancedResumeService` is not
  modelled.
- The prompt texts are held as service fields (`enhanceWording`,
  `suggestionsWording`). The constructor sets them to the source's texts, and
  the lemmas hold for any fixed wording.
- `EnhancedResumeService.EnhancedResumeService.AnalyzeResume`: the
  properties of the analysis are stated for any outcome of the GPT path
  (`gptPath`). The method itself fixes that path to the GPT service.
- `EnhancedResumeService.EnhancedResumeService.TranslateResume`: likewise, the
  translation lemmas are stated for any GPT translation (`gptTranslate`).
- `cacheService` and `nlpService` are injected into `EnhancedResumeService`
  but never used there. The enhancement and translation caches of
  `CacheService` have no caller in the core.
- `EnhancedResumeService.ConvertToDto`: the suggestions column is read as the
  JSON text the entity holds just after `save`. A row loaded again in a later
  request holds whatever the JSON column type deserialises, probably a `Map`.
  The `toString` of a `Map` is not JSON, and the swallowed parse error would
  leave `suggestions` null. That Java form is not modelled. So for the reuse
  answer of `analyzeResume`, for `getEnhancedResume` and for
  `getEnhancedVersions`, the model's suggestions are those of the text written
  at save.
- `ResumeService.ResumeService.UploadResume`: its answer shows the row as the
  request leaves it, which is what the shared persistence context gives. A
  detached entity snapshot is not modelled.
- Path normalisation in `StorageService` (`..`, absolute names) is not
  modelled. Paths are keys, and `Files.createDirectories` is implicit.
- `ResumeRepository.java` and `UserRepository.java` are not part of this
  model. Their queries are modelled from the way the services call them.
- The web front end beyond `validation.test.ts` (pages, hooks, the API
  client) is not modelled.
- `AuthService.AuthService.Register`: whether a Bean Validation provider checks
  `User`'s `@Email`, `@NotBlank` and `@Size` constraints at persist depends on
  the deployment, so the check is an oracle (`validate`). The model does not
  state which e-mails the `@Email` constraint accepts, nor the text of the
  violation message.
- Token signing, password hashing and Spring's authentication manager are
  oracles held by `AuthService`.

## Findings

| source | as written | input that shows it | evidently intended | confidence | as-written member | corrected member |
|---|---|---|---|---|---|---|
| nlp/main.py:53-61 | the `HTTPException(400)` raised inside `try` is caught by `except Exception` and replaced by a 500 | `{"text": "   "}` (and the test's `""`) is answered with 500 | blank text answered with 400 "Text cannot be empty", as `nlp/tests/test_parse.py:14-16` expects | not executed | NlpParser.BlankTextGets500AsWritten | NlpParser.BlankTextGets400 |
